/** Over every run of a board's gate the live receipts are current: judged under the
 * profile, class and grants in force, about what their item binds, and in
 * agreement with each other.
 */
module GateRuns {
  import opened Prelude
  import opened Graphs
  import opened GateRules
  import opened GateRevocation
  import opened StaleCascade
  import opened GateState

  // ---- receipts only ever leave ----

  lemma FallenLive(before: Staleness, after: Staleness, inputs: Inputs, seeds: set<ReceiptId>)
    requires Fallen(before, after, inputs, seeds)
    ensures forall r :: Live(after, r) ==> Live(before, r) && r !in seeds
  {
    hide Reaches;
    forall r | Live(before, r) && r in seeds ensures after[r].Some? {
      ReachesSelf(ConsumerGraph(before, inputs), r);
      assert Reached(before, inputs, seeds, r);
    }
  }

  /** What each command leaves alive, and how the rest of the state is seen from it. */
  lemma StaleKeeps(g: Gate, who: set<Who>, stale: Staleness)
    requires Current(g, who) && stale.Keys == g.stale.Keys && forall r :: Live(stale, r) ==> Live(g.stale, r)
    ensures Current(g.(stale := stale), who)
  {
    hide SameVerdict, MatchesBinding, Agree, Evaluate, DistinctTags;
    forall id | Live(stale, id) ensures RowCurrent(g.(stale := stale), who, id) {
      assert RowCurrent(g, who, id);
    }
  }

  lemma VerdictReflexive(v: Verdict)
    ensures SameVerdict(v, v)
  {
  }

  lemma VerdictThrough(a: Verdict, b: Verdict, c: Verdict)
    requires SameVerdict(a, b) && SameVerdict(c, b)
    ensures SameVerdict(a, c)
  {
  }

  // ---- posting ----

  lemma PostedKeeps(a: Gate, b: Gate, who: set<Who>, item: ItemId, r: Receipt, bound: set<(Text, Text)>, consumed: set<ReceiptId>)
    requires Current(a, who) && item in a.items && item in a.grants && consumed <= a.rows.Keys
    requires Posted(a, b, who, item, r, bound, consumed)
    ensures Current(b, who)
  {
    hide SameVerdict, Evaluate, DistinctTags, Fallen, MatchesBinding, Agree, Superseded, InputChangers, Arrived, RowCurrent, Grade;
    var id := ReceiptId(a.next);
    var mid := WithReceipt(a, who, item, r, bound, consumed);
    assert id !in a.rows;
    FallenLive(mid.stale, b.stale, mid.inputs, PostSeeds(mid, id));
    SameReceipts(mid.stale, b.stale, mid.inputs, PostSeeds(mid, id));
    PostedShape(a, mid, b, id, consumed);
    NotSeeds(mid, b.stale, id);
    hide PostSeeds, ArrivalStale, SupersededBy;
    PostedRows(a, b, who, item, r, bound, consumed);
    hide NewRow;
    OthersAgree(a, mid, who, id, b.stale);
    PostedAgree(mid, b.stale, id);
  }

  lemma PostedRows(a: Gate, b: Gate, who: set<Who>, item: ItemId, r: Receipt, bound: set<(Text, Text)>, consumed: set<ReceiptId>)
    requires Current(a, who) && item in a.items && item in a.grants && ReceiptId(a.next) !in a.rows && Shaped(b)
    requires b == WithReceipt(a, who, item, r, bound, consumed).(stale := b.stale)
    requires forall x :: Live(b.stale, x) ==> Live(WithReceipt(a, who, item, r, bound, consumed).stale, x)
    requires Live(b.stale, ReceiptId(a.next)) ==> ArrivalStale(r, a.items[item].binding).None?
    ensures forall x :: Live(b.stale, x) ==> RowCurrent(b, who, x)
  {
    hide SameVerdict, Evaluate, DistinctTags, MatchesBinding, Grade, SameGate, ArrivalStale;
    var id := ReceiptId(a.next);
    forall x | Live(b.stale, x) ensures RowCurrent(b, who, x) {
      if x == id {
        VerdictReflexive(b.rows[id].verdict);
        ArrivedBound(r, a.items[item].binding);
      } else {
        assert RowCurrent(a, who, x);
      }
    }
  }

  /** A live new receipt did not arrive stale, and no other live one is superseded
   *  by it. */
  lemma NotSeeds(mid: Gate, stale: Staleness, id: ReceiptId)
    requires id in mid.rows && mid.rows[id].item in mid.items
    requires forall x :: Live(stale, x) ==> x !in PostSeeds(mid, id)
    ensures Live(stale, id) ==> ArrivalStale(mid.rows[id].receipt, mid.items[mid.rows[id].item].binding).None?
    ensures forall x :: Live(stale, x) && x != id && x in mid.rows && SameGate(mid.rows[x], mid.rows[id])
              ==> SupersededBy(mid.rows[x].receipt, mid.rows[id].receipt).None?
  {
    hide ArrivalStale, SupersededBy;
    forall x | Live(stale, x) && x != id && x in mid.rows && SameGate(mid.rows[x], mid.rows[id])
      ensures SupersededBy(mid.rows[x].receipt, mid.rows[id].receipt).None?
    {
      assert x !in Superseded(mid, id);
    }
  }

  lemma PostedAgree(mid: Gate, stale: Staleness, id: ReceiptId)
    requires id in mid.rows && stale.Keys == mid.rows.Keys
    requires forall x, y :: Live(stale, x) && Live(stale, y) && x != id && y != id && SameGate(mid.rows[x], mid.rows[y]) ==>
               Agree(mid.rows[x].receipt, mid.rows[y].receipt)
    requires forall x :: Live(stale, x) && x != id && x in mid.rows && SameGate(mid.rows[x], mid.rows[id])
              ==> SupersededBy(mid.rows[x].receipt, mid.rows[id].receipt).None?
    ensures forall x, y :: Live(stale, x) && Live(stale, y) && SameGate(mid.rows[x], mid.rows[y]) ==>
              Agree(mid.rows[x].receipt, mid.rows[y].receipt)
  {
    hide SupersededBy, Agree;
    forall x, y | Live(stale, x) && Live(stale, y) && SameGate(mid.rows[x], mid.rows[y])
      ensures Agree(mid.rows[x].receipt, mid.rows[y].receipt)
    {
      if x == id && y == id {
        AgreeSelf(mid.rows[id].receipt);
      } else if x == id {
        NotSuperseded(mid.rows[y].receipt, mid.rows[id].receipt);
      } else if y == id {
        NotSuperseded(mid.rows[x].receipt, mid.rows[id].receipt);
      }
    }
  }

  lemma OthersAgree(a: Gate, mid: Gate, who: set<Who>, id: ReceiptId, stale: Staleness)
    requires Current(a, who) && stale.Keys == mid.rows.Keys == a.rows.Keys + {id}
    requires forall x :: x in a.rows ==> x != id && mid.rows[x] == a.rows[x]
    requires forall x :: Live(stale, x) && x != id ==> Live(a.stale, x)
    ensures forall x, y :: Live(stale, x) && Live(stale, y) && x != id && y != id && SameGate(mid.rows[x], mid.rows[y]) ==>
              Agree(mid.rows[x].receipt, mid.rows[y].receipt)
  {
    hide Agree, RowCurrent, SameGate;
  }

  lemma PostedShape(a: Gate, mid: Gate, b: Gate, id: ReceiptId, consumed: set<ReceiptId>)
    requires Shaped(a) && consumed <= a.rows.Keys && id == ReceiptId(a.next) && id !in a.rows
    requires mid.rows.Keys == a.rows.Keys + {id} && mid.stale.Keys == a.stale.Keys + {id} && mid.next == a.next + 1
    requires forall x :: x in a.rows ==> mid.rows[x] == a.rows[x]
    requires mid.rows[id].item in a.items && mid.items == a.items && mid.grants == a.grants
    requires mid.inputs == a.inputs + set p | p in consumed :: (id, p)
    requires b == mid.(stale := b.stale) && b.stale.Keys == mid.stale.Keys
    ensures Shaped(b)
  {
    hide DistinctTags;
  }

  lemma ArrivedBound(r: Receipt, b: Binding)
    requires ArrivalStale(r, b).None?
    ensures MatchesBinding(r, b)
  {
  }

  lemma AgreeSelf(r: Receipt)
    ensures Agree(r, r)
  {
  }

  lemma NotSuperseded(older: Receipt, r: Receipt)
    requires SupersededBy(older, r).None?
    ensures Agree(older, r) && Agree(r, older)
  {
  }

  // ---- grants ----

  lemma RegrantedKeeps(a: Gate, b: Gate, who: set<Who>, item: ItemId, grants: seq<Grant>)
    requires Current(a, who) && item in a.items && DistinctTags(grants) && Regranted(a, b, who, item, grants)
    ensures Current(b, who)
  {
    hide SameVerdict, Evaluate, DistinctTags, MatchesBinding, Agree, RowCurrent, Grade;
    assert Shaped(b);
    forall id | Live(b.stale, id) ensures RowCurrent(b, who, id) {
      assert RowCurrent(a, who, id);
      RegrantedRow(a, b, who, item, grants, id);
    }
  }

  /** A live receipt of another item sees none of it; one of this item was judged
   *  under just these grants. */
  lemma RegrantedRow(a: Gate, b: Gate, who: set<Who>, item: ItemId, grants: seq<Grant>, id: ReceiptId)
    requires Shaped(a) && Shaped(b) && item in a.items && Regranted(a, b, who, item, grants)
    requires Live(b.stale, id) && id in a.rows && RowCurrent(a, who, id)
    ensures id in b.rows && RowCurrent(b, who, id)
  {
    hide SameVerdict, Evaluate, DistinctTags, MatchesBinding, Grade;
    if a.rows[id].item == item {
      VerdictReflexive(b.rows[id].verdict);
    }
  }

  lemma AttachedTags(grants: seq<Grant>, grant: Grant)
    requires DistinctTags(grants) && forall i :: 0 <= i < |grants| ==> grants[i].tag != grant.tag
    ensures DistinctTags(grants + [grant])
  {
  }

  lemma {:induction false} RevokedTags(grants: seq<Grant>, tag: Label)
    ensures forall i :: 0 <= i < |grants| ==>
              WithRevoked(grants, tag)[i] == if grants[i].tag == tag then grants[i].(revoked := true) else grants[i]
  {
    if grants != [] {
      RevokedTags(grants[1..], tag);
    }
  }

  lemma {:induction false} CheckedTags(grants: seq<Grant>, tag: Label, check: MessageCheck)
    ensures forall i :: 0 <= i < |grants| ==> WithCheck(grants, tag, check)[i].tag == grants[i].tag
  {
    if grants != [] {
      CheckedTags(grants[1..], tag, check);
    }
  }

  lemma {:induction false} GradeTwo(x: seq<Grant>, y: seq<Grant>, p: Option<Profile>, who: set<Who>)
    ensures Grade(x + y, p, who) == Grade(x, p, who) + Grade(y, p, who)
  {
    hide GrantProblems;
    if x == [] {
      assert x + y == y;
    } else {
      assert (x + y)[0] == x[0] && (x + y)[1..] == x[1..] + y;
      GradeTwo(x[1..], y, p, who);
    }
  }

  lemma {:induction false} FoundAt(grants: seq<Grant>, tag: Label) returns (k: nat)
    requires FindGrant(grants, tag).Some?
    ensures k < |grants| && grants[k].tag == tag && FindGrant(grants, tag).value == grants[k]
  {
    if grants[0].tag == tag {
      k := 0;
    } else {
      var j := FoundAt(grants[1..], tag);
      k := j + 1;
    }
  }

  /** Revoking one grant of the list changes exactly that one. */
  lemma RevokedSplit(grants: seq<Grant>, tag: Label, k: nat)
    requires k < |grants| && DistinctTags(grants) && grants[k].tag == tag
    ensures grants == grants[..k] + [grants[k]] + grants[k + 1..]
    ensures WithRevoked(grants, tag) == grants[..k] + [grants[k].(revoked := true)] + grants[k + 1..]
  {
    RevokedTags(grants, tag);
  }

  lemma GradedSplit(grants: seq<Grant>, tag: Label, k: nat, p: Option<Profile>, who: set<Who>)
    requires k < |grants| && DistinctTags(grants) && grants[k].tag == tag
    ensures var x, x' := Graded(grants[k], GrantProblems(grants[k], p, who)),
                         Graded(grants[k].(revoked := true), GrantProblems(grants[k].(revoked := true), p, who));
            && Grade(grants, p, who) == Grade(grants[..k], p, who) + [x] + Grade(grants[k + 1..], p, who)
            && Grade(WithRevoked(grants, tag), p, who) == Grade(grants[..k], p, who) + [x'] + Grade(grants[k + 1..], p, who)
            && RevokedFrom(x, x')
  {
    hide GrantProblems;
    RevokedSplit(grants, tag, k);
    var g, h := grants[k], grants[k].(revoked := true);
    GradeThree(grants[..k], g, grants[k + 1..], p, who);
    GradeThree(grants[..k], h, grants[k + 1..], p, who);
    RevokedProblems(g, p, who);
  }

  lemma GradeThree(x: seq<Grant>, g: Grant, y: seq<Grant>, p: Option<Profile>, who: set<Who>)
    ensures Grade(x + [g] + y, p, who) == Grade(x, p, who) + [Graded(g, GrantProblems(g, p, who))] + Grade(y, p, who)
  {
    hide GrantProblems;
    GradeTwo(x + [g], y, p, who);
    GradeTwo(x, [g], p, who);
    assert [g][1..] == [];
  }

  lemma RevokedProblems(g: Grant, p: Option<Profile>, who: set<Who>)
    ensures RevokedFrom(Graded(g, GrantProblems(g, p, who)),
                        Graded(g.(revoked := true), GrantProblems(g.(revoked := true), p, who)))
  {
    var problems := GrantProblems(g, p, who);
    if g.kind == Selection && g.nodes == [] {
      assert NoNodes in ShapeProblems(g, p);
      assert NoNodes in problems;
    }
  }

  /** A live receipt that neither cites nor names the revoked grant keeps its
   *  verdict. */
  lemma BystanderKeeps(a: Gate, who: set<Who>, item: ItemId, tag: Label, id: ReceiptId)
    requires Current(a, who) && item in a.items && FindGrant(a.grants[item], tag).Some?
    requires Live(a.stale, id) && a.rows[id].item == item
    requires tag !in a.rows[id].receipt.waivers && forall x :: x in a.rows[id].verdict.reasons ==> tag !in Names(x.why)
    ensures SameVerdict(a.rows[id].verdict,
                        Evaluate(a.rows[id].receipt, ProfileFor(a, a.rows[id].klass),
                                 Grade(WithRevoked(a.grants[item], tag), ProfileFor(a, Effective(a, item)), who)))
  {
    hide Evaluate, GrantProblems, Loud, DistinctTags, RevokedFrom;
    var row := a.rows[id];
    assert RowCurrent(a, who, id);
    var grants, p := a.grants[item], ProfileFor(a, Effective(a, item));
    var k := FoundAt(grants, tag);
    GradedSplit(grants, tag, k, p, who);
    var x, x' := Graded(grants[k], GrantProblems(grants[k], p, who)),
                 Graded(grants[k].(revoked := true), GrantProblems(grants[k].(revoked := true), p, who));
    var u, v := Grade(grants[..k], p, who), Grade(grants[k + 1..], p, who);
    forall y | y in Loud(row.verdict.reasons) ensures tag !in Names(y.why) {
      LoudMember(row.verdict.reasons, y);
    }
    assert Unnamed(Evaluate(row.receipt, p, u + [x] + v).reasons, tag);
    UnnamedGrantIrrelevant(row.receipt, p, u, x, x', v);
    VerdictThrough(row.verdict, Evaluate(row.receipt, p, u + [x] + v), Evaluate(row.receipt, p, u + [x'] + v));
  }

  lemma RevokedKeeps(a: Gate, b: Gate, who: set<Who>, item: ItemId, tag: Label, mentions: set<ReceiptId>)
    requires Current(a, who) && item in a.items && FindGrant(a.grants[item], tag).Some?
    requires RevokedIn(a, b, item, tag, mentions)
    ensures Current(b, who)
  {
    hide SameVerdict, Evaluate, Fallen, MatchesBinding, Agree, DistinctTags;
    FallenLive(a.stale, b.stale, a.inputs, Users(a, item, tag, mentions));
    RevokedDistinct(a.grants[item], tag);
    assert b.stale.Keys == a.stale.Keys by {
      SameReceipts(a.stale, b.stale, a.inputs, Users(a, item, tag, mentions));
    }
    forall id | Live(b.stale, id) ensures RowCurrent(b, who, id) {
      assert RowCurrent(a, who, id);
      if a.rows[id].item == item {
        BystanderKeeps(a, who, item, tag, id);
      }
    }
  }

  lemma RevokedDistinct(grants: seq<Grant>, tag: Label)
    requires DistinctTags(grants)
    ensures DistinctTags(WithRevoked(grants, tag))
  {
    RevokedTags(grants, tag);
  }

  lemma CheckedDistinct(grants: seq<Grant>, tag: Label, check: MessageCheck)
    requires DistinctTags(grants)
    ensures DistinctTags(WithCheck(grants, tag, check))
  {
    CheckedTags(grants, tag, check);
  }

  lemma SameReceipts(before: Staleness, after: Staleness, inputs: Inputs, seeds: set<ReceiptId>)
    requires Fallen(before, after, inputs, seeds)
    ensures after.Keys == before.Keys
  {
  }

  // ---- profiles ----

  /** With profiles and the default class replaced, receipts of a class and an item
   *  that are judged as before stay current. */
  lemma RejudgedKeeps(a: Gate, b: Gate, who: set<Who>)
    requires Current(a, who) && b == a.(profiles := b.profiles, defaultClass := b.defaultClass, stale := b.stale)
    requires b.stale.Keys == a.stale.Keys && forall id :: Live(b.stale, id) ==> Live(a.stale, id)
    requires forall id :: Live(b.stale, id) ==>
               Effective(b, b.rows[id].item) == Effective(a, a.rows[id].item) && ProfileFor(b, b.rows[id].klass) == ProfileFor(a, a.rows[id].klass)
    ensures Current(b, who)
  {
    hide SameVerdict, Evaluate, MatchesBinding, Agree, DistinctTags, Grade;
    forall id | Live(b.stale, id) ensures RowCurrent(b, who, id) {
      assert RowCurrent(a, who, id);
    }
  }

  lemma ReprofiledKeeps(a: Gate, b: Gate, who: set<Who>, klass: Name, profile: Option<Profile>, makeDefault: bool)
    requires Current(a, who) && Reprofiled(a, b, klass, profile, makeDefault)
    ensures Current(b, who)
  {
    hide SameVerdict, Evaluate, Fallen, MatchesBinding, Agree, DistinctTags, Grade;
    var mid := WithProfile(a, klass, profile, makeDefault);
    var seeds := OfClass(a, klass) + if mid.defaultClass != a.defaultClass then Inheriting(a) else {};
    FallenLive(a.stale, b.stale, a.inputs, seeds);
    SameReceipts(a.stale, b.stale, a.inputs, seeds);
    forall id | Live(b.stale, id)
      ensures Effective(b, b.rows[id].item) == Effective(a, a.rows[id].item) && ProfileFor(b, b.rows[id].klass) == ProfileFor(a, a.rows[id].klass)
    {
      assert RowCurrent(a, who, id);
      assert id !in OfClass(a, klass);
    }
    RejudgedKeeps(a, b, who);
  }

  lemma RedefaultedKeeps(a: Gate, b: Gate, who: set<Who>, defaultClass: Option<Name>)
    requires Current(a, who) && Redefaulted(a, b, defaultClass)
    ensures Current(b, who)
  {
    hide SameVerdict, Evaluate, Fallen, MatchesBinding, Agree, DistinctTags, Grade;
    var seeds := if defaultClass != a.defaultClass then Inheriting(a) else {};
    FallenLive(a.stale, b.stale, a.inputs, seeds);
    SameReceipts(a.stale, b.stale, a.inputs, seeds);
    RejudgedKeeps(a, b, who);
  }

  // ---- bindings ----

  lemma StillBound(r: Receipt, was: Binding, c: Command)
    requires c.Bind? && MatchesBinding(r, was) && BindingStale(r, Rebound(was, c), ChangedFields(was, c)).None?
    ensures MatchesBinding(r, Rebound(was, c))
  {
  }

  lemma BoundKeeps(a: Gate, b: Gate, who: set<Who>, c: Command)
    requires Current(a, who) && c.Bind? && c.bindee in a.items && BoundTo(a, b, c)
    ensures Current(b, who)
  {
    hide SameVerdict, Evaluate, Fallen, MatchesBinding, Agree, DistinctTags, Grade, BindingStale, Rebound, ChangedFields;
    FallenLive(a.stale, b.stale, a.inputs, LeftBehind(a, c));
    SameReceipts(a.stale, b.stale, a.inputs, LeftBehind(a, c));
    forall id | Live(b.stale, id) ensures RowCurrent(b, who, id) {
      assert RowCurrent(a, who, id);
      if a.rows[id].item == c.bindee {
        assert id !in LeftBehind(a, c);
        StillBound(a.rows[id].receipt, a.items[c.bindee].binding, c);
      }
    }
  }

  // ---- runs ----

  /** A tag not handed out yet. */
  ghost predicate Numbered(g: Gate) {
    forall item :: item in g.grants ==> forall i :: 0 <= i < |g.grants[item]| ==> g.grants[item][i].tag == Label(item.n, i + 1)
  }

  lemma StepNumbered(a: Gate, b: Gate, who: set<Who>, c: Command)
    requires Shaped(a) && Numbered(a) && Step(a, b, who, c)
    ensures Numbered(b)
  {
    hide Evaluate, Fallen, DistinctTags, Grade, GrantProblems, ShapeProblems;
    match c
    case Revoke(item, _, tag, _) =>
      if item in a.grants {
        RevokedTags(a.grants[item], tag);
      }
    case Recheck(item, tag, check) =>
      if item in a.grants {
        CheckedTags(a.grants[item], tag, check);
      }
    case _ =>
  }

  lemma StepKeeps(a: Gate, b: Gate, who: set<Who>, c: Command)
    requires Current(a, who) && Numbered(a) && Step(a, b, who, c)
    ensures Current(b, who) && Numbered(b)
  {
    hide RowCurrent, Fallen, Numbered, SameGate, Agree, Posted, Regranted, RevokedIn, Reprofiled, Redefaulted, BoundTo, ShapeProblems;
    StepNumbered(a, b, who, c);
    match c
    case Post(item, r, claimed, bound, consumed) =>
      if MayPost(a, item, claimed, consumed) {
        PostedKeeps(a, b, who, item, r, bound, consumed);
      }
    case Attach(item, by_, draft) =>
      if MayAttach(a, who, item, by_, draft) {
        var grant := Completed(a, item, by_, draft);
        FreshTag(a, item, grant);
        RegrantedKeeps(a, b, who, item, a.grants[item] + [grant]);
      }
    case Revoke(item, _, tag, mentions) =>
      if GrantOf(a, item, tag).Some? && b != a {
        RevokedKeeps(a, b, who, item, tag, mentions);
      }
    case Recheck(item, tag, check) =>
      if GrantOf(a, item, tag).Some? && b != a {
        CheckedDistinct(a.grants[item], tag, check);
        RegrantedKeeps(a, b, who, item, WithCheck(a.grants[item], tag, check));
      }
    case SetProfile(klass, profile, makeDefault) => ReprofiledKeeps(a, b, who, klass, profile, makeDefault);
    case SetDefault(defaultClass) => RedefaultedKeeps(a, b, who, defaultClass);
    case Bind(item, _, _, _, _) =>
      if item in a.items {
        BoundKeeps(a, b, who, c);
      }
    case Observe(id, moved) =>
      var seeds := if moved then {id} else {};
      FallenLive(a.stale, b.stale, a.inputs, seeds);
      SameReceipts(a.stale, b.stale, a.inputs, seeds);
      StaleKeeps(a, who, b.stale);
  }

  lemma FreshTag(a: Gate, item: ItemId, grant: Grant)
    requires Shaped(a) && Numbered(a) && item in a.grants && grant.tag == Label(item.n, |a.grants[item]| + 1)
    ensures DistinctTags(a.grants[item] + [grant])
  {
    AttachedTags(a.grants[item], grant);
  }

  /** Over every run of posting receipts, attaching, re-checking and revoking
   *  grants, editing profiles and classes, moving bindings and observing hosts,
   *  with the grantors fixed: each live receipt's stored verdict and reasons (but
   *  for notes) are what judging it now would give, and live receipts agree with
   *  their item's binding and with each other. */
  lemma {:induction false} RunKeeps(states: seq<Gate>, commands: seq<Command>, who: set<Who>)
    requires |states| == |commands| + 1 && Current(states[0], who) && Numbered(states[0])
    requires forall i :: 0 <= i < |commands| ==> Shaped(states[i]) ==> Step(states[i], states[i + 1], who, commands[i])
    ensures Current(states[|commands|], who)
    decreases |commands|
  {
    RunNumbered(states, commands, who);
  }

  lemma {:induction false} RunNumbered(states: seq<Gate>, commands: seq<Command>, who: set<Who>)
    requires |states| == |commands| + 1 && Current(states[0], who) && Numbered(states[0])
    requires forall i :: 0 <= i < |commands| ==> Shaped(states[i]) ==> Step(states[i], states[i + 1], who, commands[i])
    ensures Current(states[|commands|], who) && Numbered(states[|commands|])
    decreases |commands|
  {
    hide RowCurrent, Step, Numbered, SameGate, Agree;
    if commands != [] {
      var n := |commands| - 1;
      RunNumbered(states[..n + 1], commands[..n], who);
      StepKeeps(states[n], states[n + 1], who, commands[n]);
    }
  }

  /** Staleness is never undone, whatever the command. */
  lemma StaleForGood(a: Gate, b: Gate, who: set<Who>, c: Command, id: ReceiptId)
    requires Shaped(a) && Step(a, b, who, c) && id in a.stale && a.stale[id].Some?
    ensures id in b.stale && b.stale[id] == a.stale[id]
  {
    hide Reaches, Evaluate, Grade, ShapeProblems, Reached;
    assert id.number < a.next;
  }

  /** A board nobody has posted to. */
  lemma NewBoardCurrent(items: map<ItemId, ItemGate>, who: set<Who>)
    ensures var g := Gate(map[], None, items, map item | item in items :: [], map[], map[], {}, 0);
            Current(g, who) && Numbered(g)
  {
  }
}
