/** What a verdict means: when a run passes, and that one more grant adds no reason
 * harder than Incomplete.
 */
module GateVerdicts {
  import opened Prelude
  import opened Words
  import opened GateRules
  import CommandCheck
  import CommandGrant

  predicate Blocks(level: Level) {
    level == Fail || level == Void || level == Incomplete
  }

  // ---- `must_run` entries under more cover ----

  /** Every blocking level of `a` is one of `b`. */
  ghost predicate NoWorse(a: seq<Reason>, b: seq<Reason>) {
    forall x :: x in a && Blocks(x.level) ==> HasLevel(b, x.level)
  }

  lemma NoWorseWord(a: seq<Reason>, b: seq<Reason>)
    requires NoWorse(a, b)
    ensures Rank(WordOf(a)) <= Rank(WordOf(b))
  {
  }

  lemma LevelOfEither(a: seq<Reason>, b: seq<Reason>, level: Level)
    ensures HasLevel(a + b, level) <==> HasLevel(a, level) || HasLevel(b, level)
  {
    if HasLevel(a, level) {
      var x :| x in a && x.level == level;
      assert x in a + b;
    }
    if HasLevel(b, level) {
      var x :| x in b && x.level == level;
      assert x in a + b;
    }
  }

  /** At most one slash at the end. */
  predicate SingleSlash(entry: Token) {
    |entry| <= |StripSlashes(entry)| + 1
  }

  lemma {:induction false} Slashes(entry: Token)
    ensures |StripSlashes(entry)| <= |entry| && StripSlashes(entry) == entry[..|StripSlashes(entry)|]
    ensures forall i :: |StripSlashes(entry)| <= i < |entry| ==> entry[i] == '/'
  {
    if entry != "" && entry[|entry| - 1] == '/' {
      Slashes(entry[..|entry| - 1]);
    }
  }

  lemma UnderStarts(id: NodeId, entry: Token)
    requires SingleSlash(entry) && CommandCheck.Under(id, entry)
    ensures id == entry || StartsWith(id, entry)
  {
    Slashes(entry);
    if StartsWith(id, StripSlashes(entry) + "/") {
      assert entry == StripSlashes(entry) || entry == StripSlashes(entry) + "/";
      assert id[..|StripSlashes(entry)|] == (StripSlashes(entry) + "/")[..|StripSlashes(entry)|];
    } else if StartsWith(id, entry + "::") {
      assert id[..|entry|] == (entry + "::")[..|entry|];
    }
  }

  lemma EntryNoWorse(name: Name, byId: map<NodeId, Node>, entry: Token, covered: set<NodeId>, more: set<NodeId>)
    requires covered <= more && SingleSlash(entry)
    ensures NoWorse(EntryReasons(name, byId, entry, more), EntryReasons(name, byId, entry, covered))
  {
    hide CommandCheck.Under, StartsWith, SingleSlash;
    var hits, fewer := EntryHits(byId, entry, covered), EntryHits(byId, entry, more);
    assert fewer <= hits;
    if fewer == {} && hits != {} {
      var i :| i in hits;
      assert i in more || i in fewer;
      UnderStarts(i, entry);
      assert EntryCovered(entry, more);
    }
    if EntryCovered(entry, covered) {
      var i :| i in covered && (i == entry || StartsWith(i, entry));
      assert i in more;
    }
    LevelOfOne(name, byId, entry, covered);
  }

  lemma LevelOfOne(name: Name, byId: map<NodeId, Node>, entry: Token, covered: set<NodeId>)
    ensures var rs := EntryReasons(name, byId, entry, covered);
            forall x :: x in rs ==> x.level == Incomplete && rs[0] == x && HasLevel(rs, Incomplete)
  {
    var rs := EntryReasons(name, byId, entry, covered);
    if rs != [] {
      assert rs[0] in rs;
    }
  }

  /** Covering more nodes never makes a `must_run` entry worse exactly when the
   *  entry ends in at most one slash. */
  lemma SingleSlashExact(name: Name, entry: Token)
    ensures SingleSlash(entry) <==>
              forall byId: map<NodeId, Node>, covered: set<NodeId>, more: set<NodeId> :: covered <= more ==>
                NoWorse(EntryReasons(name, byId, entry, more), EntryReasons(name, byId, entry, covered))
  {
    if SingleSlash(entry) {
      forall byId: map<NodeId, Node>, covered: set<NodeId>, more: set<NodeId> | covered <= more
        ensures NoWorse(EntryReasons(name, byId, entry, more), EntryReasons(name, byId, entry, covered))
      {
        EntryNoWorse(name, byId, entry, covered, more);
      }
    } else {
      var id := StripSlashes(entry) + "/x";
      var byId := map[id := Node(id, Passed, None)];
      DoubleSlash(entry);
      assert EntryHits(byId, entry, {}) == {id} && EntryHits(byId, entry, {id}) == {};
      assert EntryReasons(name, byId, entry, {}) == [];
      assert EntryReasons(name, byId, entry, {id})[0] in EntryReasons(name, byId, entry, {id});
      assert !NoWorse(EntryReasons(name, byId, entry, {id}), EntryReasons(name, byId, entry, {}));
    }
  }

  lemma DoubleSlash(entry: Token)
    requires !SingleSlash(entry)
    ensures var id := StripSlashes(entry) + "/x";
            CommandCheck.Under(id, entry) && id != entry && !StartsWith(id, entry)
  {
    Slashes(entry);
    var k := |StripSlashes(entry)|;
    var id := StripSlashes(entry) + "/x";
    assert id[..k + 1] == StripSlashes(entry) + "/";
    assert id[k + 1] == 'x' && entry[k + 1] == '/';
    assert |entry| <= |id| ==> id[..|entry|][k + 1] == id[k + 1];
  }

  // ---- one more grant adds nothing harder than Incomplete ----

  /** Every failing or void level of `a` is one of `b`. */
  ghost predicate NoHarder(a: seq<Reason>, b: seq<Reason>) {
    forall x :: x in a && (x.level == Fail || x.level == Void) ==> HasLevel(b, x.level)
  }

  lemma NoHarderWord(a: seq<Reason>, b: seq<Reason>)
    requires NoHarder(a, b)
    ensures Rank(WordOf(a)) <= 1 || Rank(WordOf(a)) <= Rank(WordOf(b))
  {
  }

  lemma NoHarderSame(a: seq<Reason>)
    ensures NoHarder(a, a)
  {
  }

  lemma NoHarderBoth(a: seq<Reason>, b: seq<Reason>, c: seq<Reason>, d: seq<Reason>)
    requires NoHarder(a, b) && NoHarder(c, d)
    ensures NoHarder(a + c, b + d)
  {
    forall x | x in a + c && (x.level == Fail || x.level == Void) ensures HasLevel(b + d, x.level) {
      LevelOfEither(b, d, x.level);
    }
  }

  /** No reason here is harder than Incomplete. */
  lemma {:induction false} MustRunSoft(name: Name, byId: map<NodeId, Node>, entries: seq<Token>, covered: set<NodeId>)
    ensures forall x :: x in MustRunReasons(name, byId, entries, covered) ==> x.level == Incomplete
  {
    if entries != [] {
      LevelOfOne(name, byId, entries[0], covered);
      MustRunSoft(name, byId, entries[1..], covered);
    }
  }

  lemma {:induction false} SkipsNoHarder(sp: StepProfile, skips: seq<Noted>, covered: set<NodeId>, more: set<NodeId>)
    requires covered <= more
    ensures NoHarder(SkipReasons(sp, skips, more), SkipReasons(sp, skips, covered))
  {
    if skips != [] {
      SkipsNoHarder(sp, skips[1..], covered, more);
      var s := skips[0];
      var own := if s.reason == "" then One(Incomplete, SkipUnexplained(sp.name, s.node))
                 else If(!sp.allowsSkip(s.reason), if sp.skipFails then Fail else Incomplete, SkipNotAllowed(sp.name, s.node, s.reason));
      var none: seq<Reason> := [];
      NoHarderSame(own);
      var a, b := if s.node in more then none else own, if s.node in covered then none else own;
      assert NoHarder(a, b);
      NoHarderBoth(a, b, SkipReasons(sp, skips[1..], more), SkipReasons(sp, skips[1..], covered));
    }
  }

  lemma {:induction false} MfNoHarder(sp: StepProfile, byId: map<NodeId, Node>, wanted: seq<NodeId>, covered: set<NodeId>, more: set<NodeId>)
    requires covered <= more
    ensures NoHarder(MfReasons(sp, byId, wanted, more), MfReasons(sp, byId, wanted, covered))
  {
    hide MfNodeReasons;
    if wanted != [] {
      MfNoHarder(sp, byId, wanted[1..], covered, more);
      var own := MfNodeReasons(sp, byId, wanted[0]);
      var none: seq<Reason> := [];
      NoHarderSame(own);
      var a, b := if wanted[0] in more then none else own, if wanted[0] in covered then none else own;
      assert NoHarder(a, b);
      NoHarderBoth(a, b, MfReasons(sp, byId, wanted[1..], more), MfReasons(sp, byId, wanted[1..], covered));
    }
  }

  lemma PytestNoHarder(sp: StepProfile, st: StepRun, r: Receipt, covered: set<NodeId>, more: set<NodeId>)
    requires covered <= more
    ensures NoHarder(PytestReasons(sp, st, r, more), PytestReasons(sp, st, r, covered))
  {
    hide ConsistencyReasons, ResultReasons, MustRunReasons, SkipReasons, MfReasons, ById, NoHarder;
    if st.nodes.None? || st.skips.None? || st.deselected.None? {
      NoHarderSame(PytestReasons(sp, st, r, covered));
    } else {
      var nodes := st.nodes.value;
      var byId := ById(nodes);
      var head := ConsistencyReasons(sp, st, r);
      if sp.atMf {
        var none := If(Wanted(sp, nodes) == [], Incomplete, NoMfNode(sp.name));
        MfNoHarder(sp, byId, Wanted(sp, nodes), covered, more);
        After(none, MfReasons(sp, byId, Wanted(sp, nodes), more), MfReasons(sp, byId, Wanted(sp, nodes), covered));
        After(head, none + MfReasons(sp, byId, Wanted(sp, nodes), more), none + MfReasons(sp, byId, Wanted(sp, nodes), covered));
      } else {
        MustRunSoft(sp.name, byId, sp.mustRun, more);
        SkipsNoHarder(sp, st.skips.value, covered, more);
        var a, a' := MustRunReasons(sp.name, byId, sp.mustRun, more), MustRunReasons(sp.name, byId, sp.mustRun, covered);
        var b, b' := SkipReasons(sp, st.skips.value, more), SkipReasons(sp, st.skips.value, covered);
        var result := ResultReasons(sp, nodes);
        SoftNoHarder(a, a');
        After(result, a, a');
        NoHarderBoth(result + a, result + a', b, b');
        After(head, result + a + b, result + a' + b');
      }
    }
  }

  lemma After(head: seq<Reason>, a: seq<Reason>, b: seq<Reason>)
    requires NoHarder(a, b)
    ensures NoHarder(head + a, head + b)
  {
    NoHarderSame(head);
    NoHarderBoth(head, head, a, b);
  }

  lemma SoftNoHarder(a: seq<Reason>, b: seq<Reason>)
    requires forall x :: x in a ==> x.level == Incomplete
    ensures NoHarder(a, b)
  {
  }

  // ---- grants by membership ----

  lemma {:induction false} NodesOfMember(grants: seq<Grant>, id: NodeId)
    ensures id in NodesOf(grants) <==> exists g :: g in grants && id in g.nodes
  {
    if grants != [] {
      NodesOfMember(grants[1..], id);
      assert forall g :: g in grants <==> g == grants[0] || g in grants[1..];
    }
  }

  lemma {:induction false} WholeMember(waivers: seq<Grant>)
    ensures WholeWaiver(waivers).Some? <==> exists g :: g in waivers && g.nodes == []
  {
    if waivers != [] {
      WholeMember(waivers[1..]);
      assert forall g :: g in waivers <==> g == waivers[0] || g in waivers[1..];
    }
  }

  lemma {:induction false} MatchingMember(variances: seq<Grant>, digest: Digest)
    ensures MatchingVariance(variances, digest).Some? <==> exists g :: g in variances && g.digest == Some(digest)
    ensures MatchingVariance(variances, digest).Some? ==> MatchingVariance(variances, digest).value in variances
  {
    if variances != [] {
      MatchingMember(variances[1..], digest);
      assert forall g :: g in variances <==> g == variances[0] || g in variances[1..];
    }
  }

  lemma {:induction false} CoveringMember(grants: seq<Graded>, r: Receipt, step: Name, kind: GrantKind, g: Grant)
    ensures g in Covering(grants, r, step, kind) <==>
              exists x :: x in grants && x.g == g && Concerns(g, r, step, kind) && Against(x, r) == {}
  {
    hide Concerns, Against;
    if grants != [] {
      CoveringMember(grants[1..], r, step, kind, g);
      assert forall x :: x in grants <==> x == grants[0] || x in grants[1..];
    }
  }

  /** `big` has every covering waiver and variance of `small`, and the same
   *  selections. */
  ghost predicate Extends(small: seq<Graded>, big: seq<Graded>, r: Receipt) {
    && (forall step: Name :: Covering(big, r, step, Selection) == Covering(small, r, step, Selection))
    && (forall step: Name, kind: GrantKind, g: Grant :: g in Covering(small, r, step, kind) ==> g in Covering(big, r, step, kind))
  }

  lemma {:induction false} CoveringTwo(a: seq<Graded>, b: seq<Graded>, r: Receipt, step: Name, kind: GrantKind)
    ensures Covering(a + b, r, step, kind) == Covering(a, r, step, kind) + Covering(b, r, step, kind)
  {
    hide Concerns, Against;
    if a == [] {
      assert a + b == b;
    } else {
      assert (a + b)[0] == a[0] && (a + b)[1..] == a[1..] + b;
      CoveringTwo(a[1..], b, r, step, kind);
    }
  }

  lemma CoveringThree(a: seq<Graded>, x: Graded, b: seq<Graded>, r: Receipt, step: Name, kind: GrantKind)
    ensures Covering(a + [x] + b, r, step, kind)
         == Covering(a, r, step, kind) + Covering([x], r, step, kind) + Covering(b, r, step, kind)
  {
    CoveringTwo(a + [x], b, r, step, kind);
    CoveringTwo(a, [x], r, step, kind);
  }

  lemma OtherKindCoversNothing(x: Graded, r: Receipt, step: Name, kind: GrantKind)
    requires x.g.kind != kind
    ensures Covering([x], r, step, kind) == []
  {
    assert [x][1..] == [];
  }

  /** One more grant, anywhere among the others. */
  lemma InsertedExtends(a: seq<Graded>, x: Graded, b: seq<Graded>, r: Receipt)
    requires x.g.kind != Selection
    ensures Extends(a + b, a + [x] + b, r)
  {
    hide Covering;
    forall step: Name ensures Covering(a + [x] + b, r, step, Selection) == Covering(a + b, r, step, Selection) {
      CoveringThree(a, x, b, r, step, Selection);
      CoveringTwo(a, b, r, step, Selection);
      OtherKindCoversNothing(x, r, step, Selection);
    }
    forall step: Name, kind: GrantKind, g: Grant | g in Covering(a + b, r, step, kind)
      ensures g in Covering(a + [x] + b, r, step, kind)
    {
      CoveringThree(a, x, b, r, step, kind);
      CoveringTwo(a, b, r, step, kind);
    }
  }

  // ---- no step gets worse ----

  lemma NodesNoHarder(sp: StepProfile, st: StepRun, selected: set<NodeId>, covered: set<NodeId>, more: set<NodeId>)
    requires covered <= more
    ensures NodeReasons(sp, st, selected, more).0 == NodeReasons(sp, st, selected, covered).0
    ensures NoHarder(NodeReasons(sp, st, selected, more).1, NodeReasons(sp, st, selected, covered).1)
  {
    if st.nodes.Some? && Drops(sp, st.nodes.value, selected, more) {
      assert Drops(sp, st.nodes.value, selected, covered) by {
        assert ExecutedIds(st.nodes.value) + covered <= ExecutedIds(st.nodes.value) + more;
      }
    }
    hide Drops;
    NoHarderSame(NodeReasons(sp, st, selected, covered).1);
  }

  lemma {:induction false} NotingQuiet(notes: seq<Why>)
    ensures forall x :: x in Noting(notes) ==> x.level == Note
  {
    if notes != [] {
      NotingQuiet(notes[1..]);
    }
  }

  lemma {:induction false} AsNotesQuiet(reasons: seq<Reason>)
    ensures forall x :: x in AsNotes(reasons) ==> x.level == Note
  {
    if reasons != [] {
      AsNotesQuiet(reasons[1..]);
    }
  }

  lemma CommandNoHarder(sp: StepProfile, st: StepRun, r: Receipt, p: Profile, small: seq<Graded>, big: seq<Graded>)
    requires Extends(small, big, r)
    ensures NoHarder(CommandReasons(sp, st, r, p, big), CommandReasons(sp, st, r, p, small))
  {
    hide Weakenings, CoverNotes, Covering, DigestOf;
    MatchingMember(Covering(small, r, sp.name, Variance), DigestOf(st.cmd));
    MatchingMember(Covering(big, r, sp.name, Variance), DigestOf(st.cmd));
    NotingQuiet(CoverNotes(big, r, sp.name, Variance));
    var weak := Weakenings(sp, st, r, p);
    var a, b := CommandReasons(sp, st, r, p, big), CommandReasons(sp, st, r, p, small);
    if a != [] {
      assert b[0] == Reason(Fail, Weakened(sp.name, weak)) && b[0] in b;
      assert HasLevel(b, Fail);
    }
  }

  lemma RunNoHarder(sp: StepProfile, st: StepRun, r: Receipt, p: Profile, small: seq<Graded>, big: seq<Graded>,
                   covered: set<NodeId>, more: set<NodeId>)
    requires Extends(small, big, r) && covered <= more
    ensures NoHarder(RunReasons(sp, st, r, p, big, more), RunReasons(sp, st, r, p, small, covered))
  {
    hide NoHarder, NodeReasons, CommandReasons, PytestReasons, SimpleReasons, Covering;
    var selected := NodesOf(Covering(small, r, sp.name, Selection));
    CommandNoHarder(sp, st, r, p, small, big);
    var c, c' := CommandReasons(sp, st, r, p, big), CommandReasons(sp, st, r, p, small);
    if sp.kind == Pytest {
      NodesNoHarder(sp, st, selected, covered, more);
      PytestNoHarder(sp, st, r, covered, more);
      var u := NodeReasons(sp, st, selected, covered).0;
      var d, d' := NodeReasons(sp, st, selected, more).1, NodeReasons(sp, st, selected, covered).1;
      After(u, c, c');
      NoHarderBoth(u + c, u + c', d, d');
      NoHarderBoth(u + c + d, u + c' + d', PytestReasons(sp, st, r, more), PytestReasons(sp, st, r, covered));
    } else {
      var none: seq<Reason> := [];
      var s := SimpleReasons(sp, st);
      NoHarderSame(s);
      After(none, c, c');
      NoHarderSame(none);
      NoHarderBoth(none + c, none + c', none, none);
      NoHarderBoth(none + c + none, none + c' + none, s, s);
    }
  }

  lemma EvidenceNoHarder(sp: StepProfile, st: Option<StepRun>, r: Receipt, p: Profile, small: seq<Graded>, big: seq<Graded>,
                        covered: set<NodeId>, more: set<NodeId>)
    requires Extends(small, big, r) && covered <= more
    ensures NoHarder(EvidenceReasons(sp, st, r, p, big, more), EvidenceReasons(sp, st, r, p, small, covered))
  {
    hide NoHarder, RunReasons, Extends;
    if st.Some? && st.value.state == Ran {
      RunNoHarder(sp, st.value, r, p, small, big, covered, more);
    } else {
      NoHarderSame(EvidenceReasons(sp, st, r, p, small, covered));
    }
  }

  /** The blocking reasons of a step: those of its evidence, when it is required and
   *  not waived as a whole. */
  lemma StepBlocks(sp: StepProfile, r: Receipt, p: Profile, grants: seq<Graded>)
    ensures var waivers := Covering(grants, r, sp.name, Waiver);
            var rs := StepReasons(sp, r, p, grants);
            var evidence := EvidenceReasons(sp, RunNamed(r.steps, sp.name), r, p, grants, NodesOf(waivers));
            if WholeWaiver(waivers).Some? || !sp.required then forall x :: x in rs ==> !Blocks(x.level)
            else NoWorse(rs, evidence) && NoWorse(evidence, rs)
  {
    hide EvidenceReasons, Weakenings, CoverNotes;
    var waivers := Covering(grants, r, sp.name, Waiver);
    var st := RunNamed(r.steps, sp.name);
    hide Covering, RunNamed;
    var evidence := EvidenceReasons(sp, st, r, p, grants, NodesOf(waivers));
    NotingQuiet(CoverNotes(grants, r, sp.name, Waiver));
    AsNotesQuiet(evidence);
    if WholeWaiver(waivers).None? && sp.required {
      forall x | x in evidence && Blocks(x.level) ensures HasLevel(StepReasons(sp, r, p, grants), x.level) {
        assert x in StepReasons(sp, r, p, grants);
      }
    }
  }

  lemma StepNoHarder(sp: StepProfile, r: Receipt, p: Profile, small: seq<Graded>, big: seq<Graded>)
    requires Extends(small, big, r)
    ensures NoHarder(StepReasons(sp, r, p, big), StepReasons(sp, r, p, small))
  {
    hide StepReasons, EvidenceReasons;
    StepBlocks(sp, r, p, small);
    StepBlocks(sp, r, p, big);
    var few, many := Covering(small, r, sp.name, Waiver), Covering(big, r, sp.name, Waiver);
    WholeMember(few);
    WholeMember(many);
    if WholeWaiver(many).None? && sp.required {
      var st := RunNamed(r.steps, sp.name);
      assert NodesOf(few) <= NodesOf(many) by {
        forall id | id in NodesOf(few) ensures id in NodesOf(many) {
          NodesOfMember(few, id);
          NodesOfMember(many, id);
        }
      }
      EvidenceNoHarder(sp, st, r, p, small, big, NodesOf(few), NodesOf(many));
      hide Covering, RunNamed, NodesOf, Extends;
      NoHarderThrough(StepReasons(sp, r, p, big), EvidenceReasons(sp, st, r, p, big, NodesOf(many)),
                     EvidenceReasons(sp, st, r, p, small, NodesOf(few)), StepReasons(sp, r, p, small));
    }
  }

  lemma NoHarderThrough(a: seq<Reason>, b: seq<Reason>, c: seq<Reason>, d: seq<Reason>)
    requires NoWorse(a, b) && NoHarder(b, c) && NoWorse(c, d)
    ensures NoHarder(a, d)
  {
  }

  lemma {:induction false} StepsNoHarder(steps: seq<StepProfile>, r: Receipt, p: Profile, small: seq<Graded>, big: seq<Graded>)
    requires Extends(small, big, r)
    ensures NoHarder(AllStepReasons(steps, r, p, big), AllStepReasons(steps, r, p, small))
  {
    hide StepReasons, NoHarder, Extends;
    if steps == [] {
      NoHarderSame([]);
    } else {
      StepNoHarder(steps[0], r, p, small, big);
      StepsNoHarder(steps[1..], r, p, small, big);
      NoHarderBoth(StepReasons(steps[0], r, p, big), StepReasons(steps[0], r, p, small),
                  AllStepReasons(steps[1..], r, p, big), AllStepReasons(steps[1..], r, p, small));
    }
  }

  // ---- when a run passes ----

  /** No blocking reason. */
  ghost predicate Clear(reasons: seq<Reason>) {
    forall x :: x in reasons ==> !Blocks(x.level)
  }

  lemma ClearIsPass(reasons: seq<Reason>)
    ensures WordOf(reasons) == Pass <==> Clear(reasons)
  {
  }

  lemma ClearBoth(a: seq<Reason>, b: seq<Reason>)
    ensures Clear(a + b) <==> Clear(a) && Clear(b)
  {
    assert forall x :: x in a + b <==> x in a || x in b;
  }

  lemma ClearIf(c: bool, level: Level, why: Why)
    requires Blocks(level)
    ensures Clear(If(c, level, why)) <==> !c
    ensures !Clear(One(level, why))
  {
    assert Reason(level, why) in One(level, why);
    assert c ==> Reason(level, why) in If(c, level, why);
  }

  ghost predicate CleanWorktree(r: Receipt) {
    && r.worktree.headBefore == Some(r.head) && r.worktree.headAfter == Some(r.head)
    && r.worktree.dirtyBefore == Some(false) && r.worktree.dirtyAfter == Some(false)
  }

  ghost predicate GoodBase(r: Receipt, rule: BaseRule) {
    && (r.base.ref.None? || r.base.ref == Some(rule.ref))
    && r.base.shaAfter.Some? && r.base.treeAfter.Some? && r.base.treeBefore == r.base.treeAfter
    && r.base.treeAfter != Some(Conflict)
    && (rule.byPaths ==> r.closure != {})
  }

  /** The run is identified: what it ran on is named, unmoved and clean. */
  ghost predicate Identified(r: Receipt, p: Profile) {
    && !p.require_.attestation
    && (p.require_.mf ==> r.mf.Some?) && (p.require_.runner ==> r.runner.Some?) && (p.require_.ruling ==> r.ruling.Some?)
    && CleanWorktree(r)
    && (p.base.Some? ==> GoodBase(r, p.base.value))
  }

  lemma Recorded(b: Option<bool>)
    ensures b == None || b == Some(true) || b == Some(false)
  {
    assert b.Some? ==> b.value == true || b.value == false;
  }

  lemma WorktreeClear(r: Receipt)
    ensures Clear(WorktreeReasons(r)) <==> CleanWorktree(r)
  {
    var wt := r.worktree;
    hide Clear;
    ClearIf(true, Incomplete, NoWorktree);
    ClearIf(true, Incomplete, Dirty);
    ClearIf(wt.headBefore != wt.headAfter, Incomplete, CodeMoved);
    ClearIf(wt.headBefore != Some(r.head), Incomplete, OtherCheckout);
    ClearIf(wt.dirtyBefore.None? || wt.dirtyAfter.None?, Incomplete, CleanUnknown);
    ClearBoth(If(wt.headBefore != wt.headAfter, Incomplete, CodeMoved), If(wt.headBefore != Some(r.head), Incomplete, OtherCheckout));
    var heads := if wt.headBefore.None? || wt.headAfter.None? then One(Incomplete, NoWorktree)
                 else If(wt.headBefore != wt.headAfter, Incomplete, CodeMoved) + If(wt.headBefore != Some(r.head), Incomplete, OtherCheckout);
    var dirt := if wt.dirtyBefore == Some(true) || wt.dirtyAfter == Some(true) then One(Incomplete, Dirty)
                else If(wt.dirtyBefore.None? || wt.dirtyAfter.None?, Incomplete, CleanUnknown);
    ClearBoth(heads, dirt);
    assert WorktreeReasons(r) == heads + dirt;
    Recorded(wt.dirtyBefore);
    Recorded(wt.dirtyAfter);
    assert Clear(heads) <==> wt.headBefore == Some(r.head) && wt.headAfter == Some(r.head);
    assert Clear(dirt) <==> wt.dirtyBefore == Some(false) && wt.dirtyAfter == Some(false);
  }

  lemma BaseClear(r: Receipt, rule: BaseRule)
    ensures Clear(BaseReasons(r, rule)) <==> GoodBase(r, rule)
  {
    hide Clear;
    var b := r.base;
    var ref := If(b.ref.Some? && b.ref.value != rule.ref, Fail, WeakenedBase);
    var tree := if b.shaAfter.None? || b.treeAfter.None? || b.treeBefore.None? then One(Incomplete, NoTree)
                else if b.treeBefore != b.treeAfter then One(Incomplete, TreeChanged)
                else If(b.treeAfter == Some(Conflict), Incomplete, TreeConflict);
    ClearIf(b.ref.Some? && b.ref.value != rule.ref, Fail, WeakenedBase);
    ClearIf(true, Incomplete, NoTree);
    ClearIf(true, Incomplete, TreeChanged);
    ClearIf(b.treeAfter == Some(Conflict), Incomplete, TreeConflict);
    ClearIf(rule.byPaths && r.closure == {}, Incomplete, NoClosure);
    ClearBoth(ref, tree);
    ClearBoth(ref + tree, If(rule.byPaths && r.closure == {}, Incomplete, NoClosure));
  }

  lemma IdentityClear(r: Receipt, p: Profile)
    ensures Clear(IdentityReasons(r, p)) <==> Identified(r, p)
  {
    hide Clear, WorktreeReasons, BaseReasons, CleanWorktree, GoodBase;
    var a := If(p.require_.attestation, Incomplete, NotAttested);
    var b := If(p.require_.mf && r.mf.None?, Incomplete, NoMf);
    var c := If(p.require_.runner && r.runner.None?, Incomplete, NoRunner);
    var d := If(p.require_.ruling && r.ruling.None?, Incomplete, NoRuling);
    var base: seq<Reason> := if p.base.Some? then BaseReasons(r, p.base.value) else [];
    ClearIf(p.require_.attestation, Incomplete, NotAttested);
    ClearIf(p.require_.mf && r.mf.None?, Incomplete, NoMf);
    ClearIf(p.require_.runner && r.runner.None?, Incomplete, NoRunner);
    ClearIf(p.require_.ruling && r.ruling.None?, Incomplete, NoRuling);
    ClearBoth(a, b);
    ClearBoth(a + b, c);
    ClearBoth(a + b + c, d);
    ClearBoth(a + b + c + d, WorktreeReasons(r));
    ClearBoth(a + b + c + d + WorktreeReasons(r), base);
    WorktreeClear(r);
    if p.base.Some? {
      BaseClear(r, p.base.value);
    } else {
      NothingClear();
    }
  }

  lemma NothingClear()
    ensures Clear([])
  {
  }

  /** Summary, node list, lists and exit code agree, and it ran where it should. */
  ghost predicate Consistent(sp: StepProfile, st: StepRun, r: Receipt)
    requires st.nodes.Some? && st.skips.Some? && st.deselected.Some?
  {
    var counts := NodeCounts(st.nodes.value);
    && st.counts == Some(counts)
    && st.rc.Some? && (if counts.failed + counts.errors > 0 then st.rc.value != 0 else st.rc.value == 0 || st.rc.value == 5)
    && NotedIds(st.skips.value) == IdsWith(st.nodes.value, Skipped)
    && NotedIds(st.deselected.value) == IdsWith(st.nodes.value, Deselected)
    && (if sp.atMf then st.atSha.Some? && st.atSha == r.mf else st.atSha.None? || st.atSha == Some(r.head))
  }

  lemma ConsistencyClear(sp: StepProfile, st: StepRun, r: Receipt)
    requires st.nodes.Some? && st.skips.Some? && st.deselected.Some?
    ensures Clear(ConsistencyReasons(sp, st, r)) <==> Consistent(sp, st, r)
  {
    hide Clear, NodeCounts, NotedIds, IdsWith;
    var nodes := st.nodes.value;
    var counts := NodeCounts(nodes);
    var bad := counts.failed + counts.errors;
    var a := if st.counts.None? then One(Incomplete, Unparsed(sp.name)) else If(st.counts.value != counts, Fail, CountsDiffer(sp.name));
    var off := st.rc.Some? && ((bad > 0 && st.rc.value == 0) || (bad == 0 && st.rc.value != 0 && st.rc.value != 5));
    var b := if st.rc.None? then One(Incomplete, NoExitCode(sp.name)) else If(off, Fail, ExitCodeDiffers(sp.name, st.rc.value));
    var skips, gone := NotedIds(st.skips.value) != IdsWith(nodes, Skipped), NotedIds(st.deselected.value) != IdsWith(nodes, Deselected);
    var c, d := If(skips, Fail, SkipsDiffer(sp.name)), If(gone, Fail, DeselectedDiffer(sp.name));
    var e := if sp.atMf then if st.atSha.None? then One(Incomplete, NoAtSha(sp.name)) else If(st.atSha != r.mf, Fail, RanElsewhere(sp.name))
             else If(st.atSha.Some? && st.atSha.value != r.head, Fail, RanElsewhere(sp.name));
    ClearIf(true, Incomplete, Unparsed(sp.name));
    ClearIf(st.counts.Some? && st.counts.value != counts, Fail, CountsDiffer(sp.name));
    ClearIf(true, Incomplete, NoExitCode(sp.name));
    if st.rc.Some? {
      ClearIf(off, Fail, ExitCodeDiffers(sp.name, st.rc.value));
    }
    ClearIf(skips, Fail, SkipsDiffer(sp.name));
    ClearIf(gone, Fail, DeselectedDiffer(sp.name));
    ClearIf(true, Incomplete, NoAtSha(sp.name));
    ClearIf(st.atSha != r.mf, Fail, RanElsewhere(sp.name));
    ClearIf(st.atSha.Some? && st.atSha.value != r.head, Fail, RanElsewhere(sp.name));
    ClearBoth(a, b);
    ClearBoth(a + b, c);
    ClearBoth(a + b + c, d);
    ClearBoth(a + b + c + d, e);
  }

  /** Something of the entry ran or was waived, and whatever of it was not waived
   *  ran. */
  ghost predicate EntryRan(byId: map<NodeId, Node>, entry: Token, covered: set<NodeId>) {
    && (forall i :: i in byId && CommandCheck.Under(i, entry) && i !in covered ==> HasRun(byId[i].outcome))
    && ((exists i :: i in byId && CommandCheck.Under(i, entry) && i !in covered) || EntryCovered(entry, covered))
  }

  lemma EntryClear(name: Name, byId: map<NodeId, Node>, entry: Token, covered: set<NodeId>)
    ensures Clear(EntryReasons(name, byId, entry, covered)) <==> EntryRan(byId, entry, covered)
  {
    hide CommandCheck.Under, EntryCovered;
    var hits := EntryHits(byId, entry, covered);
    assert forall i :: i in hits <==> i in byId && CommandCheck.Under(i, entry) && i !in covered;
    assert hits == {} <==> !exists i :: i in byId && CommandCheck.Under(i, entry) && i !in covered;
    hide EntryHits;
    ClearIf(!EntryCovered(entry, covered), Incomplete, MustRunAbsent(name, entry));
    ClearIf(exists i :: i in hits && !HasRun(byId[i].outcome), Incomplete, MustRunNotRun(name, entry));
  }

  lemma {:induction false} MustRunClear(name: Name, byId: map<NodeId, Node>, entries: seq<Token>, covered: set<NodeId>)
    ensures Clear(MustRunReasons(name, byId, entries, covered)) <==> forall e :: e in entries ==> EntryRan(byId, e, covered)
  {
    hide EntryReasons, EntryRan, Clear;
    if entries == [] {
      NothingClear();
    } else {
      EntryClear(name, byId, entries[0], covered);
      MustRunClear(name, byId, entries[1..], covered);
      ClearBoth(EntryReasons(name, byId, entries[0], covered), MustRunReasons(name, byId, entries[1..], covered));
      assert forall e :: e in entries <==> e == entries[0] || e in entries[1..];
    }
  }

  ghost predicate SkipAllowed(sp: StepProfile, s: Noted, covered: set<NodeId>) {
    s.node in covered || (s.reason != "" && sp.allowsSkip(s.reason))
  }

  lemma {:induction false} SkipsClear(sp: StepProfile, skips: seq<Noted>, covered: set<NodeId>)
    ensures Clear(SkipReasons(sp, skips, covered)) <==> forall s :: s in skips ==> SkipAllowed(sp, s, covered)
  {
    hide Clear;
    NothingClear();
    if skips != [] {
      var s := skips[0];
      var level := if sp.skipFails then Fail else Incomplete;
      var own := if s.node in covered then []
                 else if s.reason == "" then One(Incomplete, SkipUnexplained(sp.name, s.node))
                 else If(!sp.allowsSkip(s.reason), level, SkipNotAllowed(sp.name, s.node, s.reason));
      ClearIf(true, Incomplete, SkipUnexplained(sp.name, s.node));
      ClearIf(!sp.allowsSkip(s.reason), level, SkipNotAllowed(sp.name, s.node, s.reason));
      SkipsClear(sp, skips[1..], covered);
      ClearBoth(own, SkipReasons(sp, skips[1..], covered));
      assert SkipReasons(sp, skips, covered) == own + SkipReasons(sp, skips[1..], covered);
      assert Clear(own) <==> SkipAllowed(sp, s, covered);
      assert forall x :: x in skips <==> x == s || x in skips[1..];
    }
  }

  /** The node failed at the must-fail commit, with an expected exception. */
  ghost predicate FailedAsExpected(sp: StepProfile, byId: map<NodeId, Node>, id: NodeId) {
    id in byId && byId[id].outcome == Failed && byId[id].excType.Some? && byId[id].excType.value in ExpectedErrors(sp, id)
  }

  lemma MfNodeClear(sp: StepProfile, byId: map<NodeId, Node>, id: NodeId)
    ensures Clear(MfNodeReasons(sp, byId, id)) <==> FailedAsExpected(sp, byId, id)
  {
    hide Clear, ExpectedErrors;
    ClearIf(true, Incomplete, MfAbsent(sp.name, id));
    if id in byId {
      var node := byId[id];
      ClearIf(true, Fail, MfOutcome(sp.name, id, node.outcome));
      ClearIf(true, Incomplete, MfOutcome(sp.name, id, node.outcome));
      ClearIf(node.excType.None? || node.excType.value !in ExpectedErrors(sp, id), Fail, MfOtherError(sp.name, id, node.excType));
    }
  }

  lemma {:induction false} MfClear(sp: StepProfile, byId: map<NodeId, Node>, wanted: seq<NodeId>, covered: set<NodeId>)
    ensures Clear(MfReasons(sp, byId, wanted, covered)) <==>
              forall id :: id in wanted ==> id in covered || FailedAsExpected(sp, byId, id)
  {
    hide Clear, MfNodeReasons, FailedAsExpected;
    NothingClear();
    if wanted != [] {
      MfNodeClear(sp, byId, wanted[0]);
      MfClear(sp, byId, wanted[1..], covered);
      ClearBoth(if wanted[0] in covered then [] else MfNodeReasons(sp, byId, wanted[0]), MfReasons(sp, byId, wanted[1..], covered));
      assert forall id :: id in wanted <==> id == wanted[0] || id in wanted[1..];
    }
  }

  ghost predicate ResultsPass(sp: StepProfile, st: StepRun, covered: set<NodeId>)
    requires st.nodes.Some? && st.skips.Some?
  {
    var counts := NodeCounts(st.nodes.value);
    && counts.failed + counts.errors <= sp.maxFailed
    && counts.passed + (if sp.xfailPasses then counts.xfailed else 0) >= sp.minPassed
    && (forall e :: e in sp.mustRun ==> EntryRan(ById(st.nodes.value), e, covered))
    && (forall s :: s in st.skips.value ==> SkipAllowed(sp, s, covered))
  }

  ghost predicate MustFailPass(sp: StepProfile, st: StepRun, covered: set<NodeId>)
    requires st.nodes.Some?
  {
    var wanted := Wanted(sp, st.nodes.value);
    wanted != [] && forall id :: id in wanted ==> id in covered || FailedAsExpected(sp, ById(st.nodes.value), id)
  }

  ghost predicate PytestPasses(sp: StepProfile, st: StepRun, r: Receipt, covered: set<NodeId>) {
    && st.nodes.Some? && st.skips.Some? && st.deselected.Some?
    && Consistent(sp, st, r)
    && if sp.atMf then MustFailPass(sp, st, covered) else ResultsPass(sp, st, covered)
  }

  lemma ResultsClear(sp: StepProfile, nodes: seq<Node>)
    ensures var counts := NodeCounts(nodes);
            Clear(ResultReasons(sp, nodes)) <==>
              counts.failed + counts.errors <= sp.maxFailed
              && counts.passed + (if sp.xfailPasses then counts.xfailed else 0) >= sp.minPassed
  {
    hide Clear, NodeCounts;
    var counts := NodeCounts(nodes);
    var passed := counts.passed + if sp.xfailPasses then counts.xfailed else 0;
    var a := If(counts.failed + counts.errors > sp.maxFailed, Fail, Failures(sp.name, counts.failed, counts.errors));
    ClearIf(counts.failed + counts.errors > sp.maxFailed, Fail, Failures(sp.name, counts.failed, counts.errors));
    ClearIf(passed < sp.minPassed, Incomplete, Vacuous(sp.name, passed));
    ClearBoth(a, If(passed < sp.minPassed, Incomplete, Vacuous(sp.name, passed)));
  }

  lemma PytestClear(sp: StepProfile, st: StepRun, r: Receipt, covered: set<NodeId>)
    ensures Clear(PytestReasons(sp, st, r, covered)) <==> PytestPasses(sp, st, r, covered)
  {
    hide Clear, ConsistencyReasons, ResultReasons, MustRunReasons, SkipReasons, MfReasons, NodeCounts, Consistent, EntryRan,
         FailedAsExpected, ById, SkipAllowed, Wanted;
    ClearIf(true, Incomplete, NoLists(sp.name));
    if st.nodes.Some? && st.skips.Some? && st.deselected.Some? {
      var nodes := st.nodes.value;
      var byId := ById(nodes);
      ConsistencyClear(sp, st, r);
      if sp.atMf {
        var wanted := Wanted(sp, nodes);
        var none := If(wanted == [], Incomplete, NoMfNode(sp.name));
        ClearIf(wanted == [], Incomplete, NoMfNode(sp.name));
        MfClear(sp, byId, wanted, covered);
        ClearBoth(none, MfReasons(sp, byId, wanted, covered));
        ClearBoth(ConsistencyReasons(sp, st, r), none + MfReasons(sp, byId, wanted, covered));
      } else {
        var a, b, c := ResultReasons(sp, nodes), MustRunReasons(sp.name, byId, sp.mustRun, covered), SkipReasons(sp, st.skips.value, covered);
        ResultsClear(sp, nodes);
        MustRunClear(sp.name, byId, sp.mustRun, covered);
        SkipsClear(sp, st.skips.value, covered);
        ClearBoth(a, b);
        ClearBoth(a + b, c);
        ClearBoth(ConsistencyReasons(sp, st, r), a + b + c);
      }
    }
  }

  ghost predicate SimplePasses(sp: StepProfile, st: StepRun) {
    st.rc.Some? &&
    match sp.kind
    case ExitCode => st.rc.value == 0
    case MypyKind => st.mypy.Some? && st.mypy.value.ok == (st.rc.value == 0) && st.mypy.value.errors <= sp.maxErrors
    case _ => st.violations.Some? && (st.violations.value == 0) == (st.rc.value == 0) && st.violations.value <= sp.maxViolations
  }

  lemma SimpleClear(sp: StepProfile, st: StepRun)
    ensures Clear(SimpleReasons(sp, st)) <==> SimplePasses(sp, st)
  {
    hide Clear;
    ClearIf(true, Incomplete, NoExitCode(sp.name));
    ClearIf(true, Incomplete, Unparsed(sp.name));
    if st.rc.Some? {
      var rc := st.rc.value;
      ClearIf(true, Fail, ExitCodeDiffers(sp.name, rc));
      ClearIf(rc != 0, Fail, ExitCodeDiffers(sp.name, rc));
      if st.mypy.Some? {
        ClearIf(st.mypy.value.errors > sp.maxErrors, Fail, TooMany(sp.name, st.mypy.value.errors));
      }
      if st.violations.Some? {
        ClearIf(st.violations.value > sp.maxViolations, Fail, TooMany(sp.name, st.violations.value));
      }
    }
  }

  /** A verified grant for this very head and gate; a waiver also cited. */
  ghost predicate Covers(grants: seq<Graded>, r: Receipt, step: Name, kind: GrantKind, g: Grant) {
    exists x :: x in grants && x.g == g && Concerns(g, r, step, kind) && Against(x, r) == {}
  }

  ghost predicate WhollyWaived(grants: seq<Graded>, r: Receipt, step: Name) {
    exists g: Grant :: Covers(grants, r, step, Waiver, g) && g.nodes == []
  }

  /** The command is within the grant, or a variance grant names it. */
  ghost predicate CommandOk(sp: StepProfile, st: StepRun, r: Receipt, p: Profile, grants: seq<Graded>) {
    Weakenings(sp, st, r, p) == {} || exists g: Grant :: Covers(grants, r, sp.name, Variance, g) && g.digest == Some(DigestOf(st.cmd))
  }

  /** There is a granted node set, and every node of it was executed or waived. */
  ghost predicate NodesOk(sp: StepProfile, st: StepRun, selected: set<NodeId>, covered: set<NodeId>) {
    st.nodes.Some? ==>
      (sp.nodes != [] || selected != {}) && GrantedNodes(sp, selected) <= ExecutedIds(st.nodes.value) + covered
  }

  ghost predicate RunPasses(sp: StepProfile, st: StepRun, r: Receipt, p: Profile, grants: seq<Graded>) {
    var covered := NodesOf(Covering(grants, r, sp.name, Waiver));
    && CommandOk(sp, st, r, p, grants)
    && if sp.kind == Pytest then
         NodesOk(sp, st, NodesOf(Covering(grants, r, sp.name, Selection)), covered) && PytestPasses(sp, st, r, covered)
       else SimplePasses(sp, st)
  }

  ghost predicate StepPasses(sp: StepProfile, r: Receipt, p: Profile, grants: seq<Graded>) {
    !sp.required || WhollyWaived(grants, r, sp.name) ||
    (RunNamed(r.steps, sp.name).Some? && RunNamed(r.steps, sp.name).value.state == Ran
     && RunPasses(sp, RunNamed(r.steps, sp.name).value, r, p, grants))
  }

  lemma NodesClear(sp: StepProfile, st: StepRun, selected: set<NodeId>, covered: set<NodeId>)
    ensures Clear(NodeReasons(sp, st, selected, covered).0) && Clear(NodeReasons(sp, st, selected, covered).1)
            <==> NodesOk(sp, st, selected, covered)
  {
    hide Clear, GrantedNodes, ExecutedIds;
    NothingClear();
    ClearIf(true, Incomplete, NoGrantedNodes(sp.name));
    if st.nodes.Some? {
      ClearIf(Drops(sp, st.nodes.value, selected, covered), Fail, NodesDropped(sp.name));
    }
  }

  lemma CommandClear(sp: StepProfile, st: StepRun, r: Receipt, p: Profile, grants: seq<Graded>)
    ensures Clear(CommandReasons(sp, st, r, p, grants)) <==> CommandOk(sp, st, r, p, grants)
  {
    hide Clear, Weakenings, CoverNotes, DigestOf, Concerns, Against;
    var variances := Covering(grants, r, sp.name, Variance);
    var digest := DigestOf(st.cmd);
    forall g ensures g in variances <==> Covers(grants, r, sp.name, Variance, g) {
      CoveringMember(grants, r, sp.name, Variance, g);
    }
    MatchingMember(variances, digest);
    hide Covers, Covering, MatchingVariance;
    NothingClear();
    var weak := Weakenings(sp, st, r, p);
    ClearIf(true, Fail, Weakened(sp.name, weak));
    ClearBoth(One(Fail, Weakened(sp.name, weak)), Noting(CoverNotes(grants, r, sp.name, Variance)));
  }

  lemma RunClear(sp: StepProfile, st: StepRun, r: Receipt, p: Profile, grants: seq<Graded>)
    ensures Clear(RunReasons(sp, st, r, p, grants, NodesOf(Covering(grants, r, sp.name, Waiver)))) <==> RunPasses(sp, st, r, p, grants)
  {
    hide Clear, NodeReasons, CommandReasons, PytestReasons, SimpleReasons, Covering, CommandOk, NodesOk, PytestPasses, SimplePasses;
    var covered := NodesOf(Covering(grants, r, sp.name, Waiver));
    var selected := NodesOf(Covering(grants, r, sp.name, Selection));
    var c := CommandReasons(sp, st, r, p, grants);
    CommandClear(sp, st, r, p, grants);
    var u, d, e: seq<Reason> := [], [], SimpleReasons(sp, st);
    NothingClear();
    if sp.kind == Pytest {
      u, d, e := NodeReasons(sp, st, selected, covered).0, NodeReasons(sp, st, selected, covered).1, PytestReasons(sp, st, r, covered);
      NodesClear(sp, st, selected, covered);
      PytestClear(sp, st, r, covered);
    } else {
      SimpleClear(sp, st);
    }
    ClearBoth(u, c);
    ClearBoth(u + c, d);
    ClearBoth(u + c + d, e);
  }

  lemma EvidenceClear(sp: StepProfile, r: Receipt, p: Profile, grants: seq<Graded>)
    ensures var st := RunNamed(r.steps, sp.name);
            var covered := NodesOf(Covering(grants, r, sp.name, Waiver));
            Clear(EvidenceReasons(sp, st, r, p, grants, covered)) <==>
              st.Some? && st.value.state == Ran && RunPasses(sp, st.value, r, p, grants)
  {
    hide Clear, RunReasons, RunPasses, Covering, RunNamed;
    var st := RunNamed(r.steps, sp.name);
    ClearIf(true, Incomplete, MissingStep(sp.name));
    ClearIf(true, Void, VoidedStep(sp.name));
    ClearIf(true, Incomplete, StepNotRun(sp.name, SkippedStep));
    ClearIf(true, Incomplete, StepNotRun(sp.name, NotRun));
    if st.Some? {
      RunClear(sp, st.value, r, p, grants);
    }
  }

  lemma StepClear(sp: StepProfile, r: Receipt, p: Profile, grants: seq<Graded>)
    ensures Clear(StepReasons(sp, r, p, grants)) <==> StepPasses(sp, r, p, grants)
  {
    hide StepReasons, EvidenceReasons, RunPasses, Covering, Concerns, Against, RunNamed;
    var waivers := Covering(grants, r, sp.name, Waiver);
    forall g ensures g in waivers <==> Covers(grants, r, sp.name, Waiver, g) {
      CoveringMember(grants, r, sp.name, Waiver, g);
    }
    WholeMember(waivers);
    StepBlocks(sp, r, p, grants);
    EvidenceClear(sp, r, p, grants);
    var evidence := EvidenceReasons(sp, RunNamed(r.steps, sp.name), r, p, grants, NodesOf(waivers));
    hide NodesOf, WholeWaiver, Covers;
    if WholeWaiver(waivers).None? && sp.required {
      ClearIsPass(evidence);
      ClearIsPass(StepReasons(sp, r, p, grants));
      NoWorseWord(evidence, StepReasons(sp, r, p, grants));
      NoWorseWord(StepReasons(sp, r, p, grants), evidence);
    }
  }

  lemma {:induction false} StepsClear(steps: seq<StepProfile>, r: Receipt, p: Profile, grants: seq<Graded>)
    ensures Clear(AllStepReasons(steps, r, p, grants)) <==> forall sp :: sp in steps ==> StepPasses(sp, r, p, grants)
  {
    hide Clear, StepReasons, StepPasses;
    if steps == [] {
      NothingClear();
    } else {
      StepClear(steps[0], r, p, grants);
      StepsClear(steps[1..], r, p, grants);
      ClearBoth(StepReasons(steps[0], r, p, grants), AllStepReasons(steps[1..], r, p, grants));
      assert forall sp :: sp in steps <==> sp == steps[0] || sp in steps[1..];
    }
  }

  /** A required input is reported, of its kind, bound by content, and hashed at the
   *  run or of a kind the profile accepts unhashed. */
  ghost predicate InputBound(rule: InputRule, r: Receipt, p: Profile) {
    rule.required ==>
      var i := InputNamed(r.inputs, rule.name);
      i.Some? && i.value.kind == rule.kind && i.value.state == Bound && i.value.contentId.Some?
      && WellPrefixed(i.value.kind, i.value.contentId.value) && (i.value.hashedAtRun || i.value.kind in p.acceptUnverified)
  }

  lemma InputClear(rule: InputRule, r: Receipt, p: Profile)
    ensures Clear(InputReason(rule, r, p)) <==> InputBound(rule, r, p)
  {
    hide Clear, InputNamed, WellPrefixed;
    NothingClear();
    ClearIf(true, Incomplete, InputNotReported(rule.name));
    ClearIf(true, Incomplete, InputOtherKind(rule.name));
    ClearIf(true, Void, InputMissing(rule.name));
    ClearIf(true, Incomplete, InputUnbound(rule.name));
    ClearIf(true, Incomplete, InputBadId(rule.name));
    var i := InputNamed(r.inputs, rule.name);
    if i.Some? {
      ClearIf(!i.value.hashedAtRun && i.value.kind !in p.acceptUnverified, Incomplete, InputUnverified(rule.name));
    }
  }

  lemma {:induction false} InputsClear(rules: seq<InputRule>, r: Receipt, p: Profile)
    ensures Clear(InputReasons(rules, r, p)) <==> forall rule :: rule in rules ==> InputBound(rule, r, p)
  {
    hide Clear, InputReason, InputBound;
    if rules == [] {
      NothingClear();
    } else {
      InputClear(rules[0], r, p);
      InputsClear(rules[1..], r, p);
      ClearBoth(InputReason(rules[0], r, p), InputReasons(rules[1..], r, p));
      assert forall rule :: rule in rules <==> rule == rules[0] || rule in rules[1..];
    }
  }

  /** A receipt passes exactly when the run is identified, every required step is
   *  wholly waived for this head or ran within its grant and passed, and every
   *  required input is bound. */
  lemma PassExactly(r: Receipt, p: Profile, grants: seq<Graded>)
    ensures Evaluate(r, Some(p), grants).word == Pass <==>
              && Identified(r, p)
              && (forall sp :: sp in p.steps ==> StepPasses(sp, r, p, grants))
              && (forall rule :: rule in p.inputs ==> InputBound(rule, r, p))
  {
    hide Clear, WordOf, IdentityReasons, AllStepReasons, InputReasons, Identified, StepPasses, InputBound;
    var a, b, c := IdentityReasons(r, p), AllStepReasons(p.steps, r, p, grants), InputReasons(p.inputs, r, p);
    ClearIsPass(a + b + c);
    ClearBoth(a, b);
    ClearBoth(a + b, c);
    IdentityClear(r, p);
    StepsClear(p.steps, r, p, grants);
    InputsClear(p.inputs, r, p);
  }

  /** Without a profile nothing passes. */
  lemma NoProfileNeverPasses(r: Receipt, grants: seq<Graded>)
    ensures Evaluate(r, None, grants).word == IncompleteWord
  {
    assert Reason(Incomplete, NoProfile) in One(Incomplete, NoProfile);
  }

  lemma PassedStep(r: Receipt, p: Profile, grants: seq<Graded>, sp: StepProfile)
    requires Evaluate(r, Some(p), grants).word == Pass && sp in p.steps && sp.required && !WhollyWaived(grants, r, sp.name)
    ensures var st := RunNamed(r.steps, sp.name);
            st.Some? && st.value.state == Ran && CommandOk(sp, st.value, r, p, grants)
  {
    hide WhollyWaived, PytestPasses, NodesOk, Identified, InputBound, Evaluate, RunNamed, CommandOk, SimplePasses;
    PassExactly(r, p, grants);
    assert StepPasses(sp, r, p, grants);
  }

  /** Behind a PASS, a required pytest step that no grant excuses ran bounded
   *  wrappers, the granted program, and arguments within the grant. */
  lemma PassedCommand(r: Receipt, p: Profile, grants: seq<Graded>, sp: StepProfile) returns (run: Executed, at: nat)
    requires Evaluate(r, Some(p), grants).word == Pass && sp in p.steps && sp.required
    requires sp.kind == Pytest && sp.argv != [] && !WhollyWaived(grants, r, sp.name)
    requires forall g: Grant :: !Covers(grants, r, sp.name, Variance, g)
    ensures var st := RunNamed(r.steps, sp.name);
            st.Some? && st.value.state == Ran && st.value.cmd == Some(run)
    ensures at < |run.argv| && CommandGrant.WrapperChain(run.argv[..at], p.allowedEnv) && run.env.Keys <= p.allowedEnv
    ensures CommandCheck.ProgramAt(run.argv, at, sp.argv)
    ensures var k := CommandCheck.ProgramLength(sp.argv);
            CommandGrant.WithinGrant(CommandCheck.Split(sp.argv[k..]), CommandCheck.Split(run.argv[at + k..]))
  {
    hide Covers, WhollyWaived, CommandCheck.CommandProblems, Evaluate, RunNamed, DigestOf, CommandCheck.ProgramAt, CommandCheck.Split,
         CommandGrant.WrapperChain, CommandGrant.WithinGrant;
    PassedStep(r, p, grants, sp);
    var st := RunNamed(r.steps, sp.name).value;
    NoCommandIsAProblem(sp, p, r);
    run := st.cmd.value;
    at := CommandGrant.CommandAccepted(sp.argv, CommandCheck.Command(run.argv, run.env.Keys), p.allowedEnv,
                                       CommandCheck.Places(r.worktree.path, p.runnerPath));
  }

  lemma NoCommandIsAProblem(sp: StepProfile, p: Profile, r: Receipt)
    requires sp.argv != []
    ensures CommandCheck.CommandProblems(sp.kind == Pytest, sp.argv, None, p.allowedEnv,
                                         CommandCheck.Places(r.worktree.path, p.runnerPath)) != {}
  {
  }
}
