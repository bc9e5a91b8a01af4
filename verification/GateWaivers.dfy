/** When one more waiver or variance makes a verdict worse: only where it covers all
 * that ran of a `must_run` entry whose name ends in two or more slashes.
 */
module GateWaivers {
  import opened Prelude
  import opened Words
  import opened GateRules
  import opened GateVerdicts
  import CommandCheck

  function CoveredNodes(grants: seq<Graded>, r: Receipt, step: Name): set<NodeId> {
    NodesOf(Covering(grants, r, step, Waiver))
  }

  /** Some node of the entry is reported and not waived, or one under the name as
   *  written is waived. */
  predicate Present(nodes: seq<Node>, entry: Token, covered: set<NodeId>) {
    EntryHits(ById(nodes), entry, covered) != {} || EntryCovered(entry, covered)
  }

  /** An entry of a required step that is checked for it is absent. */
  ghost predicate Slips(sp: StepProfile, entry: Token, r: Receipt, grants: seq<Graded>) {
    && sp.required && sp.kind == Pytest && !sp.atMf && entry in sp.mustRun && !WhollyWaived(grants, r, sp.name)
    && var st := RunNamed(r.steps, sp.name);
       st.Some? && st.value.state == Ran && st.value.nodes.Some?
       && !Present(st.value.nodes.value, entry, CoveredNodes(grants, r, sp.name))
  }

  ghost predicate SlipsSomewhere(p: Profile, r: Receipt, grants: seq<Graded>) {
    exists sp, e :: sp in p.steps && Slips(sp, e, r, grants)
  }

  // ---- more cover ----

  lemma MoreCovered(small: seq<Graded>, big: seq<Graded>, r: Receipt, step: Name)
    requires Extends(small, big, r)
    ensures CoveredNodes(small, r, step) <= CoveredNodes(big, r, step)
  {
    hide Covering;
    forall id | id in CoveredNodes(small, r, step) ensures id in CoveredNodes(big, r, step) {
      NodesOfMember(Covering(small, r, step, Waiver), id);
      NodesOfMember(Covering(big, r, step, Waiver), id);
    }
  }

  lemma StillCovers(small: seq<Graded>, big: seq<Graded>, r: Receipt, step: Name, kind: GrantKind, g: Grant)
    requires Extends(small, big, r) && Covers(small, r, step, kind, g)
    ensures Covers(big, r, step, kind, g)
  {
    hide Concerns, Against, Covering;
    CoveringMember(small, r, step, kind, g);
    CoveringMember(big, r, step, kind, g);
  }

  lemma StillWaived(small: seq<Graded>, big: seq<Graded>, r: Receipt, step: Name)
    requires Extends(small, big, r) && WhollyWaived(small, r, step)
    ensures WhollyWaived(big, r, step)
  {
    hide Covers, Extends;
    var g: Grant :| Covers(small, r, step, Waiver, g) && g.nodes == [];
    StillCovers(small, big, r, step, Waiver, g);
  }

  lemma StillCommanded(small: seq<Graded>, big: seq<Graded>, sp: StepProfile, st: StepRun, r: Receipt, p: Profile)
    requires Extends(small, big, r) && CommandOk(sp, st, r, p, small)
    ensures CommandOk(sp, st, r, p, big)
  {
    hide Covers, Extends, Weakenings, DigestOf;
    if Weakenings(sp, st, r, p) != {} {
      var g: Grant :| Covers(small, r, sp.name, Variance, g) && g.digest == Some(DigestOf(st.cmd));
      StillCovers(small, big, r, sp.name, Variance, g);
    }
  }

  // ---- a step that passed ----

  /** An entry that ran still does under more cover, unless it slips. */
  lemma EntryStillRan(byId: map<NodeId, Node>, entry: Token, covered: set<NodeId>, more: set<NodeId>)
    requires covered <= more && EntryRan(byId, entry, covered)
    ensures EntryRan(byId, entry, more) <==> EntryHits(byId, entry, more) != {} || EntryCovered(entry, more)
  {
    hide CommandCheck.Under, EntryCovered, HasRun;
    assert forall i :: i in EntryHits(byId, entry, more) <==> i in byId && CommandCheck.Under(i, entry) && i !in more;
  }

  /** Of the rest of a pytest step, nothing that passed fails under more cover. */
  lemma PytestStillPasses(sp: StepProfile, st: StepRun, r: Receipt, covered: set<NodeId>, more: set<NodeId>)
    requires covered <= more && PytestPasses(sp, st, r, covered)
    ensures PytestPasses(sp, st, r, more) <==>
              sp.atMf || forall e :: e in sp.mustRun ==> Present(st.nodes.value, e, more)
  {
    hide Consistent, NodeCounts, ById, EntryRan, EntryHits, EntryCovered, FailedAsExpected, Wanted;
    if !sp.atMf {
      forall e | e in sp.mustRun
        ensures EntryRan(ById(st.nodes.value), e, more) <==> Present(st.nodes.value, e, more)
      {
        EntryStillRan(ById(st.nodes.value), e, covered, more);
      }
      forall x | x in st.skips.value ensures SkipAllowed(sp, x, more) {
        assert SkipAllowed(sp, x, covered);
      }
    }
  }

  lemma NodesStillOk(sp: StepProfile, st: StepRun, selected: set<NodeId>, covered: set<NodeId>, more: set<NodeId>)
    requires covered <= more && NodesOk(sp, st, selected, covered)
    ensures NodesOk(sp, st, selected, more)
  {
    hide GrantedNodes, ExecutedIds;
  }

  lemma RunStillPasses(sp: StepProfile, st: StepRun, r: Receipt, p: Profile, small: seq<Graded>, big: seq<Graded>)
    requires Extends(small, big, r) && RunPasses(sp, st, r, p, small) && (sp.kind == Pytest ==> st.nodes.Some?)
    ensures RunPasses(sp, st, r, p, big) <==>
              sp.kind != Pytest || sp.atMf || forall e :: e in sp.mustRun ==> Present(st.nodes.value, e, CoveredNodes(big, r, sp.name))
  {
    hide CommandOk, NodesOk, PytestPasses, SimplePasses, Present, Covering, NodesOf;
    StillCommanded(small, big, sp, st, r, p);
    MoreCovered(small, big, r, sp.name);
    var covered, more := CoveredNodes(small, r, sp.name), CoveredNodes(big, r, sp.name);
    if sp.kind == Pytest {
      var selected := NodesOf(Covering(small, r, sp.name, Selection));
      assert NodesOf(Covering(big, r, sp.name, Selection)) == selected;
      NodesStillOk(sp, st, selected, covered, more);
      PytestStillPasses(sp, st, r, covered, more);
    }
  }

  /** A step that passed still does with one more grant, unless an entry slips. */
  lemma StepStillPasses(sp: StepProfile, r: Receipt, p: Profile, small: seq<Graded>, big: seq<Graded>)
    requires Extends(small, big, r) && StepPasses(sp, r, p, small)
    ensures StepPasses(sp, r, p, big) <==> forall e :: !Slips(sp, e, r, big)
  {
    hide Extends, WhollyWaived, RunPasses, Present, CoveredNodes, RunNamed;
    if WhollyWaived(small, r, sp.name) {
      StillWaived(small, big, r, sp.name);
    }
    if sp.required && !WhollyWaived(big, r, sp.name) {
      var st := RunNamed(r.steps, sp.name).value;
      RunHasNodes(sp, st, r, p, small);
      RunStillPasses(sp, st, r, p, small, big);
      if sp.kind == Pytest && !sp.atMf {
        forall e ensures Slips(sp, e, r, big) <==> e in sp.mustRun && !Present(st.nodes.value, e, CoveredNodes(big, r, sp.name)) {
        }
      }
    }
  }

  lemma RunHasNodes(sp: StepProfile, st: StepRun, r: Receipt, p: Profile, grants: seq<Graded>)
    requires RunPasses(sp, st, r, p, grants)
    ensures sp.kind == Pytest ==> st.nodes.Some?
  {
    hide CommandOk, NodesOk;
  }

  // ---- the verdict ----

  /** The grant at `x` makes the verdict worse (PASS, INCOMPLETE, VOID, FAIL). */
  ghost predicate Worsens(r: Receipt, p: Option<Profile>, a: seq<Graded>, x: Graded, b: seq<Graded>) {
    Rank(Evaluate(r, p, a + [x] + b).word) > Rank(Evaluate(r, p, a + b).word)
  }

  lemma NothingHarder(r: Receipt, p: Profile, small: seq<Graded>, big: seq<Graded>)
    requires Extends(small, big, r)
    ensures Rank(Evaluate(r, Some(p), big).word) <= 1
            || Rank(Evaluate(r, Some(p), big).word) <= Rank(Evaluate(r, Some(p), small).word)
  {
    hide Extends, NoHarder, WordOf, IdentityReasons, InputReasons, AllStepReasons;
    StepsNoHarder(p.steps, r, p, small, big);
    var head, tail := IdentityReasons(r, p), InputReasons(p.inputs, r, p);
    var s, s' := AllStepReasons(p.steps, r, p, big), AllStepReasons(p.steps, r, p, small);
    After(head, s, s');
    NoHarderSame(tail);
    NoHarderBoth(head + s, head + s', tail, tail);
    NoHarderWord(head + s + tail, head + s' + tail);
  }

  lemma PassStays(r: Receipt, p: Profile, small: seq<Graded>, big: seq<Graded>)
    requires Extends(small, big, r) && Evaluate(r, Some(p), small).word == Pass
    ensures Evaluate(r, Some(p), big).word == Pass <==> !SlipsSomewhere(p, r, big)
  {
    hide Evaluate, Extends, StepPasses, Slips, Identified, InputBound;
    PassExactly(r, p, small);
    PassExactly(r, p, big);
    forall sp | sp in p.steps ensures StepPasses(sp, r, p, big) <==> forall e :: !Slips(sp, e, r, big) {
      StepStillPasses(sp, r, p, small, big);
    }
  }

  /** One more waiver or variance grant, verified or not and wherever it stands among
   *  the others, makes a verdict worse if and only if the receipt passed without it
   *  and an entry slips with it. */
  lemma WorsensExactly(r: Receipt, p: Option<Profile>, a: seq<Graded>, x: Graded, b: seq<Graded>)
    requires x.g.kind != Selection
    ensures Worsens(r, p, a, x, b) <==>
              p.Some? && Evaluate(r, p, a + b).word == Pass && SlipsSomewhere(p.value, r, a + [x] + b)
  {
    hide Evaluate, Extends, SlipsSomewhere;
    InsertedExtends(a, x, b, r);
    if p.None? {
      NoProfileNeverPasses(r, a + b);
      NoProfileNeverPasses(r, a + [x] + b);
    } else {
      NothingHarder(r, p.value, a + b, a + [x] + b);
      if Evaluate(r, p, a + b).word == Pass {
        PassStays(r, p.value, a + b, a + [x] + b);
      }
    }
  }

  /** The entries that a profile checks, of required pytest steps not run at the
   *  must-fail commit, end in at most one slash. */
  ghost predicate SlashesInOrder(p: Profile) {
    forall sp, e :: sp in p.steps && sp.required && sp.kind == Pytest && !sp.atMf && e in sp.mustRun ==> SingleSlash(e)
  }

  /** Under such a profile no waiver or variance makes a verdict worse. */
  lemma GrantNeverWorsens(r: Receipt, p: Option<Profile>, a: seq<Graded>, x: Graded, b: seq<Graded>)
    requires x.g.kind != Selection && (p.Some? ==> SlashesInOrder(p.value))
    ensures Rank(Evaluate(r, p, a + [x] + b).word) <= Rank(Evaluate(r, p, a + b).word)
  {
    hide Evaluate, Slips, SingleSlash;
    WorsensExactly(r, p, a, x, b);
    if Worsens(r, p, a, x, b) {
      var sp, e :| sp in p.value.steps && Slips(sp, e, r, a + [x] + b);
      InsertedExtends(a, x, b, r);
      SlipsBySlashes(sp, e, r, p.value, a + b, a + [x] + b);
      SlipsOf(sp, e, r, a + [x] + b);
      assert false;
    }
  }

  lemma SlipsOf(sp: StepProfile, e: Token, r: Receipt, grants: seq<Graded>)
    requires Slips(sp, e, r, grants)
    ensures sp.required && sp.kind == Pytest && !sp.atMf && e in sp.mustRun
  {
  }

  /** Only a name with two or more slashes at the end slips from a passing run. */
  lemma SlipsBySlashes(sp: StepProfile, e: Token, r: Receipt, p: Profile, small: seq<Graded>, big: seq<Graded>)
    requires Extends(small, big, r) && Evaluate(r, Some(p), small).word == Pass && sp in p.steps && Slips(sp, e, r, big)
    ensures !SingleSlash(e)
  {
    hide Evaluate, Extends, Slips, Identified, InputBound, SingleSlash;
    PassExactly(r, p, small);
    assert StepPasses(sp, r, p, small);
    hide StepPasses;
    var byId, covered, more := SlippedEntry(sp, e, r, p, small, big);
    if SingleSlash(e) {
      SingleStays(byId, e, covered, more);
    }
  }

  lemma SlippedEntry(sp: StepProfile, e: Token, r: Receipt, p: Profile, small: seq<Graded>, big: seq<Graded>)
    returns (byId: map<NodeId, Node>, covered: set<NodeId>, more: set<NodeId>)
    requires Extends(small, big, r) && StepPasses(sp, r, p, small) && Slips(sp, e, r, big)
    ensures covered <= more && EntryRan(byId, e, covered) && EntryHits(byId, e, more) == {} && !EntryCovered(e, more)
  {
    hide Extends, WhollyWaived, EntryHits, EntryCovered, EntryRan, ById, RunNamed, CommandOk, NodesOk, Covering, NodesOf, Consistent, NodeCounts;
    if WhollyWaived(small, r, sp.name) {
      StillWaived(small, big, r, sp.name);
    }
    MoreCovered(small, big, r, sp.name);
    covered, more := CoveredNodes(small, r, sp.name), CoveredNodes(big, r, sp.name);
    byId := ById(RunNamed(r.steps, sp.name).value.nodes.value);
  }

  lemma SingleStays(byId: map<NodeId, Node>, entry: Token, covered: set<NodeId>, more: set<NodeId>)
    requires covered <= more && EntryRan(byId, entry, covered) && SingleSlash(entry)
    ensures EntryHits(byId, entry, more) != {} || EntryCovered(entry, more)
  {
    hide CommandCheck.Under, StartsWith, SingleSlash, HasRun;
    if EntryCovered(entry, covered) {
      var i :| i in covered && (i == entry || StartsWith(i, entry));
      assert i in more;
    } else {
      var i :| i in byId && CommandCheck.Under(i, entry) && i !in covered;
      if i in more {
        UnderStarts(i, entry);
      } else {
        assert i in EntryHits(byId, entry, more);
      }
    }
  }

  // ---- a waiver that hurts ----

  const STEP: Name := Name("tests")

  /** A gate that asks for nothing but one entry of one pytest step. */
  function OneEntry(entry: Token): Profile {
    Profile(1, [StepProfile(STEP, Pytest, true, [], false, [StripSlashes(entry) + "/x"], map[], "", 1, 0, false,
                            [entry], (t: Text) => false, false, 0, 0)],
            {STEP}, Require(false, false, false, false), None, [], {}, {}, None)
  }

  /** A clean run of the one node, citing a waiver. */
  function CleanRun(entry: Token, tag: Label): Receipt {
    var head := Sha("a");
    Receipt(Name("gate"), head, None, None, None, Base(None, None, None, None, None), {},
            Worktree(Some(head), Some(head), Some(false), Some(false), None), [],
            [StepRun(STEP, Ran, None, None, Some(0), Some([Node(StripSlashes(entry) + "/x", Passed, None)]), Some([]), Some([]),
                     Some(Counts(1, 0, 0, 0, 0, 0)), None, None)],
            {tag})
  }

  /** A verified waiver of that node. */
  function NodeWaiver(entry: Token, tag: Label): Graded {
    Graded(Grant(tag, Waiver, Name("gate"), Owner, Sha("a"), None, STEP, [StripSlashes(entry) + "/x"], None, "flaky", "none",
                 MessageCheck(true, Some(Owner), true, true, true, true), false), {})
  }

  lemma NodeOfRun(entry: Token, tag: Label)
    ensures var r, id := CleanRun(entry, tag), StripSlashes(entry) + "/x";
            RunNamed(r.steps, STEP) == Some(r.steps[0]) && ById(r.steps[0].nodes.value) == map[id := Node(id, Passed, None)]
  {
    var nodes := CleanRun(entry, tag).steps[0].nodes.value;
    assert nodes[..0] == [] && ById(nodes[..0]) == map[];
  }

  lemma CleanCounts(entry: Token, tag: Label)
    ensures var st, id := CleanRun(entry, tag).steps[0], StripSlashes(entry) + "/x";
            && NodeCounts(st.nodes.value) == Counts(1, 0, 0, 0, 0, 0)
            && IdsWith(st.nodes.value, Skipped) == multiset{} && IdsWith(st.nodes.value, Deselected) == multiset{}
            && id in ExecutedIds(st.nodes.value) && Selected(st.nodes.value) == [id]
  {
    hide StripSlashes;
    var nodes := CleanRun(entry, tag).steps[0].nodes.value;
    assert nodes[1..] == [];
    forall o ensures Count(nodes, o) == if o == Passed then 1 else 0 {
    }
  }

  /** The one node ran and passed, and nothing was skipped. */
  lemma CleanResults(entry: Token, tag: Label)
    requires !SingleSlash(entry)
    ensures var r, sp := CleanRun(entry, tag), OneEntry(entry).steps[0];
            PytestPasses(sp, r.steps[0], r, {})
  {
    hide SingleSlash, StripSlashes, CommandCheck.Under, ById, NodeCounts, IdsWith, Selected, ExecutedIds;
    var r, p, id := CleanRun(entry, tag), OneEntry(entry), StripSlashes(entry) + "/x";
    NodeOfRun(entry, tag);
    DoubleSlash(entry);
    CleanCounts(entry, tag);
    assert EntryRan(map[id := Node(id, Passed, None)], entry, {});
  }

  lemma CleanNodes(entry: Token, tag: Label)
    ensures var r, sp := CleanRun(entry, tag), OneEntry(entry).steps[0];
            NodesOk(sp, r.steps[0], NodesOf(Covering([], r, STEP, Selection)), {})
  {
    hide StripSlashes, ExecutedIds;
    CleanCounts(entry, tag);
  }

  /** Without the waiver the run passes. */
  lemma CleanRunPasses(entry: Token, tag: Label)
    requires !SingleSlash(entry)
    ensures Evaluate(CleanRun(entry, tag), Some(OneEntry(entry)), []).word == Pass
  {
    hide Evaluate, SingleSlash, StripSlashes, PytestPasses, NodesOk, ById, RunNamed;
    var r, p := CleanRun(entry, tag), OneEntry(entry);
    NodeOfRun(entry, tag);
    CleanResults(entry, tag);
    CleanNodes(entry, tag);
    PassExactly(r, p, []);
    assert Weakenings(p.steps[0], r.steps[0], r, p) == {};
    assert NodesOf(Covering([], r, STEP, Waiver)) == {};
    assert RunPasses(p.steps[0], r.steps[0], r, p, []);
    hide RunPasses;
  }

  /** With it the entry is absent. */
  lemma WaiverSlips(entry: Token, tag: Label)
    requires !SingleSlash(entry)
    ensures Slips(OneEntry(entry).steps[0], entry, CleanRun(entry, tag), [NodeWaiver(entry, tag)])
  {
    hide SingleSlash, StripSlashes, CommandCheck.Under, StartsWith;
    var r, x, id := CleanRun(entry, tag), NodeWaiver(entry, tag), StripSlashes(entry) + "/x";
    NodeOfRun(entry, tag);
    DoubleSlash(entry);
    hide RunNamed, ById;
    var none: seq<Graded> := [];
    assert [x][1..] == none;
    assert Covering([x], r, STEP, Waiver) == [x.g];
    assert [x.g][1..] == [] && NodesOf([x.g]) == {id};
    assert EntryHits(map[id := Node(id, Passed, None)], entry, {id}) == {};
  }

  /** A `must_run` entry is safe in every gate that asks for nothing else exactly
   *  when it ends in at most one slash: otherwise a verified waiver of the node that
   *  ran turns PASS into INCOMPLETE. */
  lemma SingleSlashSafe(entry: Token)
    ensures SingleSlash(entry) <==>
              forall r, a, x: Graded, b :: x.g.kind != Selection ==> !Worsens(r, Some(OneEntry(entry)), a, x, b)
  {
    hide SingleSlash, Worsens, Evaluate, SlipsSomewhere, Slips, StripSlashes;
    var p := OneEntry(entry);
    if SingleSlash(entry) {
      forall r, a, x: Graded, b | x.g.kind != Selection ensures !Worsens(r, Some(p), a, x, b) {
        NeverWorsens(r, p, a, x, b);
      }
    } else {
      WaiverHurts(entry, Label(1, 1));
    }
  }

  lemma NeverWorsens(r: Receipt, p: Profile, a: seq<Graded>, x: Graded, b: seq<Graded>)
    requires x.g.kind != Selection && SlashesInOrder(p)
    ensures !Worsens(r, Some(p), a, x, b)
  {
    hide Evaluate, SlashesInOrder;
    GrantNeverWorsens(r, Some(p), a, x, b);
  }

  /** The waiver that hurts, for every entry with two or more slashes at the end. */
  lemma WaiverHurts(entry: Token, tag: Label)
    requires !SingleSlash(entry)
    ensures Worsens(CleanRun(entry, tag), Some(OneEntry(entry)), [], NodeWaiver(entry, tag), [])
  {
    hide SingleSlash, Evaluate, Slips, StripSlashes;
    var r, p, x := CleanRun(entry, tag), OneEntry(entry), NodeWaiver(entry, tag);
    var none: seq<Graded> := [];
    CleanRunPasses(entry, tag);
    WaiverSlips(entry, tag);
    assert none + none == none && none + [x] + none == [x];
    assert p.steps[0] in p.steps;
    WorsensExactly(r, Some(p), none, x, none);
  }
}
