/** The verdict as it is computed: reasons appended step by step
 * (`evaluate` and its helpers in dispatch/gate_rules.py).
 */
module GateEvaluator {
  import opened Prelude
  import opened Words
  import opened GateRules
  import CommandCheck
  import CommandParser

  /** The verified grants covering a step, and notes on those that do not. */
  method FindCovering(grants: seq<Graded>, r: Receipt, step: Name, kind: GrantKind) returns (good: seq<Grant>, notes: seq<Why>)
    ensures good == Covering(grants, r, step, kind) && notes == CoverNotes(grants, r, step, kind)
  {
    hide Concerns, Against, Good, Bad, Covering, CoverNotes;
    good, notes := [], [];
    assert grants[0..] == grants;
    CoveringEnd(grants, r, step, kind);
    for i := 0 to |grants|
      invariant Covering(grants, r, step, kind) == good + Covering(grants[i..], r, step, kind)
      invariant CoverNotes(grants, r, step, kind) == notes + CoverNotes(grants[i..], r, step, kind)
    {
      CoveringHead(grants, i, r, step, kind);
      var mine, noted := CoverOne(grants[i], r, step, kind);
      ghost var later, laterNotes := Covering(grants[i + 1..], r, step, kind), CoverNotes(grants[i + 1..], r, step, kind);
      assert good + (mine + later) == good + mine + later;
      assert notes + (noted + laterNotes) == notes + noted + laterNotes;
      good, notes := good + mine, notes + noted;
    }
  }

  ghost function Good(x: Graded, r: Receipt, step: Name, kind: GrantKind): seq<Grant> {
    if Concerns(x.g, r, step, kind) && Against(x, r) == {} then [x.g] else []
  }

  ghost function Bad(x: Graded, r: Receipt, step: Name, kind: GrantKind): seq<Why> {
    if Concerns(x.g, r, step, kind) && Against(x, r) != {} && (kind == Variance || x.g.tag in r.waivers)
    then [Unverified(x.g.tag, Against(x, r))] else []
  }

  lemma CoveringEnd(grants: seq<Graded>, r: Receipt, step: Name, kind: GrantKind)
    ensures Covering(grants[|grants|..], r, step, kind) == [] && CoverNotes(grants[|grants|..], r, step, kind) == []
  {
  }

  lemma CoveringHead(grants: seq<Graded>, i: nat, r: Receipt, step: Name, kind: GrantKind)
    requires i < |grants|
    ensures Covering(grants[i..], r, step, kind) == Good(grants[i], r, step, kind) + Covering(grants[i + 1..], r, step, kind)
    ensures CoverNotes(grants[i..], r, step, kind) == Bad(grants[i], r, step, kind) + CoverNotes(grants[i + 1..], r, step, kind)
  {
    hide Concerns, Against;
    assert grants[i..][0] == grants[i] && grants[i..][1..] == grants[i + 1..];
  }

  method CoverOne(x: Graded, r: Receipt, step: Name, kind: GrantKind) returns (good: seq<Grant>, notes: seq<Why>)
    ensures good == Good(x, r, step, kind) && notes == Bad(x, r, step, kind)
  {
    good, notes := [], [];
    if Concerns(x.g, r, step, kind) {
      if Against(x, r) == {} {
        good := [x.g];
      } else if kind == Variance || x.g.tag in r.waivers {
        notes := [Unverified(x.g.tag, Against(x, r))];
      }
    }
  }

  method EvalEntry(name: Name, byId: map<NodeId, Node>, entry: Token, covered: set<NodeId>) returns (out: seq<Reason>)
    ensures out == EntryReasons(name, byId, entry, covered)
  {
    hide CommandCheck.Under;
    out := [];
    var hits := EntryHits(byId, entry, covered);
    if hits == {} {
      if !EntryCovered(entry, covered) {
        out := [Reason(Incomplete, MustRunAbsent(name, entry))];
      }
      return;
    }
    var notRun := set id | id in hits && !HasRun(byId[id].outcome);
    assert (exists id :: id in hits && !HasRun(byId[id].outcome)) ==> notRun != {} by {
      if id :| id in hits && !HasRun(byId[id].outcome) {
        assert id in notRun;
      }
    }
    if notRun != {} {
      out := [Reason(Incomplete, MustRunNotRun(name, entry))];
    }
  }

  method EvalMustRun(name: Name, byId: map<NodeId, Node>, entries: seq<Token>, covered: set<NodeId>) returns (out: seq<Reason>)
    ensures out == MustRunReasons(name, byId, entries, covered)
  {
    hide EntryReasons;
    out := [];
    for i := 0 to |entries|
      invariant MustRunReasons(name, byId, entries, covered) == out + MustRunReasons(name, byId, entries[i..], covered)
    {
      assert entries[i..][0] == entries[i] && entries[i..][1..] == entries[i + 1..];
      var found := EvalEntry(name, byId, entries[i], covered);
      out := out + found;
    }
  }

  method EvalSkips(sp: StepProfile, skips: seq<Noted>, covered: set<NodeId>) returns (out: seq<Reason>)
    ensures out == SkipReasons(sp, skips, covered)
  {
    hide SkipReason;
    out := [];
    for i := 0 to |skips|
      invariant SkipReasons(sp, skips, covered) == out + SkipReasons(sp, skips[i..], covered)
    {
      assert skips[i..][0] == skips[i] && skips[i..][1..] == skips[i + 1..];
      var found := EvalSkip(sp, skips[i], covered);
      out := out + found;
    }
  }

  method EvalSkip(sp: StepProfile, s: Noted, covered: set<NodeId>) returns (out: seq<Reason>)
    ensures out == SkipReason(sp, s, covered)
  {
    out := [];
    if s.node in covered {
      return;
    }
    if s.reason == "" {
      out := [Reason(Incomplete, SkipUnexplained(sp.name, s.node))];
    } else if !sp.allowsSkip(s.reason) {
      out := [Reason(if sp.skipFails then Fail else Incomplete, SkipNotAllowed(sp.name, s.node, s.reason))];
    }
  }

  /** The reasons of a step run at the must-fail commit, node by node. */
  method EvalMf(sp: StepProfile, nodes: seq<Node>, covered: set<NodeId>) returns (out: seq<Reason>)
    ensures out == If(Wanted(sp, nodes) == [], Incomplete, NoMfNode(sp.name)) + MfReasons(sp, ById(nodes), Wanted(sp, nodes), covered)
  {
    hide ById, MfNodeReasons;
    var byId := ById(nodes);
    var wanted := Wanted(sp, nodes);
    out := [];
    if wanted == [] {
      out := out + [Reason(Incomplete, NoMfNode(sp.name))];
    }
    ghost var head := out;
    for i := 0 to |wanted|
      invariant head + MfReasons(sp, byId, wanted, covered) == out + MfReasons(sp, byId, wanted[i..], covered)
    {
      assert wanted[i..][0] == wanted[i] && wanted[i..][1..] == wanted[i + 1..];
      if wanted[i] in covered {
        continue;
      }
      out := out + MfNodeReasons(sp, byId, wanted[i]);
    }
    assert wanted[|wanted|..] == [] && out + [] == out;
    assert head == If(wanted == [], Incomplete, NoMfNode(sp.name));
  }

  method EvalExit(name: Name, rc: Option<int>, bad: nat) returns (out: seq<Reason>)
    ensures out == if rc.None? then One(Incomplete, NoExitCode(name))
                   else If((bad > 0 && rc.value == 0) || (bad == 0 && rc.value != 0 && rc.value != 5), Fail, ExitCodeDiffers(name, rc.value))
  {
    out := [];
    if rc.None? {
      out := [Reason(Incomplete, NoExitCode(name))];
    } else if bad > 0 && rc.value == 0 {
      out := [Reason(Fail, ExitCodeDiffers(name, rc.value))];
    } else if bad == 0 && rc.value != 0 && rc.value != 5 {
      out := [Reason(Fail, ExitCodeDiffers(name, rc.value))];
    }
  }

  method EvalPlace(sp: StepProfile, st: StepRun, r: Receipt) returns (out: seq<Reason>)
    ensures out == if sp.atMf then if st.atSha.None? then One(Incomplete, NoAtSha(sp.name)) else If(st.atSha != r.mf, Fail, RanElsewhere(sp.name))
                   else If(st.atSha.Some? && st.atSha.value != r.head, Fail, RanElsewhere(sp.name))
  {
    out := [];
    if sp.atMf {
      if st.atSha.None? {
        out := [Reason(Incomplete, NoAtSha(sp.name))];
      } else if st.atSha != r.mf {
        out := [Reason(Fail, RanElsewhere(sp.name))];
      }
    } else if st.atSha.Some? && st.atSha.value != r.head {
      out := [Reason(Fail, RanElsewhere(sp.name))];
    }
  }

  /** Summary, nodes, lists and exit code agree, and it ran where it should. */
  method EvalConsistency(sp: StepProfile, st: StepRun, r: Receipt) returns (out: seq<Reason>)
    requires st.nodes.Some? && st.skips.Some? && st.deselected.Some?
    ensures out == ConsistencyReasons(sp, st, r)
  {
    hide NodeCounts, NotedIds, IdsWith;
    var nodes := st.nodes.value;
    var counts := NodeCounts(nodes);
    var summary, skips, deselected: seq<Reason> := [], [], [];
    if st.counts.None? {
      summary := [Reason(Incomplete, Unparsed(sp.name))];
    } else if st.counts.value != counts {
      summary := [Reason(Fail, CountsDiffer(sp.name))];
    }
    var exit := EvalExit(sp.name, st.rc, counts.failed + counts.errors);
    if NotedIds(st.skips.value) != IdsWith(nodes, Skipped) {
      skips := [Reason(Fail, SkipsDiffer(sp.name))];
    }
    if NotedIds(st.deselected.value) != IdsWith(nodes, Deselected) {
      deselected := [Reason(Fail, DeselectedDiffer(sp.name))];
    }
    var place := EvalPlace(sp, st, r);
    out := summary + exit + skips + deselected + place;
  }

  method EvalPytest(sp: StepProfile, st: StepRun, r: Receipt, covered: set<NodeId>) returns (out: seq<Reason>)
    ensures out == PytestReasons(sp, st, r, covered)
  {
    hide ConsistencyReasons, NodeCounts, MustRunReasons, SkipReasons, MfReasons, ById;
    if st.nodes.None? || st.skips.None? || st.deselected.None? {
      return [Reason(Incomplete, NoLists(sp.name))];
    }
    var nodes := st.nodes.value;
    out := EvalConsistency(sp, st, r);
    if sp.atMf {
      var mf := EvalMf(sp, nodes, covered);
      out := out + mf;
      return;
    }
    ghost var head := out;
    var counts := NodeCounts(nodes);
    var passed := counts.passed + if sp.xfailPasses then counts.xfailed else 0;
    var results: seq<Reason> := [];
    if counts.failed + counts.errors > sp.maxFailed {
      results := results + [Reason(Fail, Failures(sp.name, counts.failed, counts.errors))];
    }
    if passed < sp.minPassed {
      results := results + [Reason(Incomplete, Vacuous(sp.name, passed))];
    }
    var mustRun := EvalMustRun(sp.name, ById(nodes), sp.mustRun, covered);
    var skips := EvalSkips(sp, st.skips.value, covered);
    assert results == ResultReasons(sp, nodes);
    out := out + (results + mustRun + skips);
  }

  method EvalSimple(sp: StepProfile, st: StepRun) returns (out: seq<Reason>)
    ensures out == SimpleReasons(sp, st)
  {
    if st.rc.None? {
      return [Reason(Incomplete, NoExitCode(sp.name))];
    }
    var rc := st.rc.value;
    if sp.kind == ExitCode {
      return if rc == 0 then [] else [Reason(Fail, ExitCodeDiffers(sp.name, rc))];
    }
    if sp.kind == MypyKind {
      if st.mypy.None? {
        return [Reason(Incomplete, Unparsed(sp.name))];
      }
      if st.mypy.value.ok != (rc == 0) {
        return [Reason(Fail, ExitCodeDiffers(sp.name, rc))];
      }
      if st.mypy.value.errors > sp.maxErrors {
        return [Reason(Fail, TooMany(sp.name, st.mypy.value.errors))];
      }
      return [];
    }
    if st.violations.None? {
      return [Reason(Incomplete, Unparsed(sp.name))];
    }
    if (st.violations.value == 0) != (rc == 0) {
      return [Reason(Fail, ExitCodeDiffers(sp.name, rc))];
    }
    if st.violations.value > sp.maxViolations {
      return [Reason(Fail, TooMany(sp.name, st.violations.value))];
    }
    out := [];
  }

  /** A step that ran: what its grants did for it, and what its evidence says. */
  method EvalRun(sp: StepProfile, st: StepRun, r: Receipt, p: Profile, grants: seq<Graded>, covered: set<NodeId>)
    returns (said: seq<Reason>, out: seq<Reason>)
    ensures said == GrantReasons(sp, st, r, p, grants) && out == RunReasons(sp, st, r, p, grants, covered)
  {
    hide PytestReasons, SimpleReasons, NodeReasons, Covering, CoverNotes, NodesOf, MatchingVariance, CommandCheck.CommandProblems, DigestOf;
    said, out := [], [];
    var selections, _ := FindCovering(grants, r, sp.name, Selection);
    var selected := NodesOf(selections);
    var dropped: seq<Reason> := [];
    if sp.kind == Pytest {
      if selected != {} {
        said := said + [Reason(Waived, NodesBy(sp.name, Labels(selections)))];
      }
      out := NodeReasons(sp, st, selected, covered).0;
      dropped := NodeReasons(sp, st, selected, covered).1;
    }
    var weak := CommandParser.CommandDiff(sp.kind == Pytest, sp.argv, Commanded(st.cmd), p.allowedEnv,
                                          CommandCheck.Places(r.worktree.path, p.runnerPath));
    assert ToSet(weak) == {} <==> weak == [] by {
      assert weak != [] ==> weak[0] in ToSet(weak);
    }
    if weak != [] {
      var variances, notes := FindCovering(grants, r, sp.name, Variance);
      var accepted := MatchingVariance(variances, DigestOf(st.cmd));
      if accepted.Some? {
        said := said + [Reason(Waived, VarianceBy(sp.name, accepted.value.tag))];
      } else {
        out := out + ([Reason(Fail, Weakened(sp.name, ToSet(weak)))] + Noting(notes));
      }
    }
    out := out + dropped;
    var result;
    if sp.kind == Pytest {
      result := EvalPytest(sp, st, r, covered);
    } else {
      result := EvalSimple(sp, st);
    }
    out := out + result;
  }

  method EvalStep(sp: StepProfile, r: Receipt, p: Profile, grants: seq<Graded>) returns (out: seq<Reason>)
    ensures out == StepReasons(sp, r, p, grants)
  {
    hide RunReasons, GrantReasons, Covering, CoverNotes, NodesOf, WholeWaiver, RunNamed;
    var waivers, notes := FindCovering(grants, r, sp.name, Waiver);
    var whole := WholeWaiver(waivers);
    if whole.Some? {
      return [Reason(Waived, WaivedBy(sp.name, whole.value.tag))];
    }
    out := [];
    var found: seq<Reason> := [];
    var st := RunNamed(r.steps, sp.name);
    if st.None? {
      found := [Reason(Incomplete, MissingStep(sp.name))];
    } else if st.value.state == VoidStep {
      found := [Reason(Void, VoidedStep(sp.name))];
    } else if st.value.state != Ran {
      found := [Reason(Incomplete, StepNotRun(sp.name, st.value.state))];
    } else {
      out, found := EvalRun(sp, st.value, r, p, grants, NodesOf(waivers));
    }
    if !sp.required {
      return out + AsNotes(found);
    }
    if found != [] {
      found := found + Noting(notes);
    }
    out := out + found;
  }

  /** A required input is bound by content, or there is a reason. */
  method EvalInputs(r: Receipt, p: Profile) returns (out: seq<Reason>)
    ensures out == InputReasons(p.inputs, r, p)
  {
    hide InputReason;
    out := [];
    for i := 0 to |p.inputs|
      invariant InputReasons(p.inputs, r, p) == out + InputReasons(p.inputs[i..], r, p)
    {
      assert p.inputs[i..][0] == p.inputs[i] && p.inputs[i..][1..] == p.inputs[i + 1..];
      var reasons := EvalInput(p.inputs[i], r, p);
      out := out + reasons;
    }
  }

  method EvalInput(rule: InputRule, r: Receipt, p: Profile) returns (out: seq<Reason>)
    ensures out == InputReason(rule, r, p)
  {
    var found := InputNamed(r.inputs, rule.name);
    if !rule.required {
      return [];
    }
    if found.None? {
      return [Reason(Incomplete, InputNotReported(rule.name))];
    }
    var i := found.value;
    if i.kind != rule.kind {
      return [Reason(Incomplete, InputOtherKind(rule.name))];
    }
    if i.state == Missing {
      return [Reason(Void, InputMissing(rule.name))];
    }
    if i.state == Unbound || i.contentId.None? {
      return [Reason(Incomplete, InputUnbound(rule.name))];
    }
    if !WellPrefixed(i.kind, i.contentId.value) {
      return [Reason(Incomplete, InputBadId(rule.name))];
    }
    if !i.hashedAtRun && i.kind !in p.acceptUnverified {
      return [Reason(Incomplete, InputUnverified(rule.name))];
    }
    out := [];
  }

  method EvalIdentity(r: Receipt, p: Profile) returns (out: seq<Reason>)
    ensures out == IdentityReasons(r, p)
  {
    hide WorktreeReasons, BaseReasons;
    out := [];
    if p.require_.attestation {
      out := out + [Reason(Incomplete, NotAttested)];
    }
    if p.require_.mf && r.mf.None? {
      out := out + [Reason(Incomplete, NoMf)];
    }
    assert out == If(p.require_.attestation, Incomplete, NotAttested) + If(p.require_.mf && r.mf.None?, Incomplete, NoMf);
    if p.require_.runner && r.runner.None? {
      out := out + [Reason(Incomplete, NoRunner)];
    }
    if p.require_.ruling && r.ruling.None? {
      out := out + [Reason(Incomplete, NoRuling)];
    }
    assert out == If(p.require_.attestation, Incomplete, NotAttested) + If(p.require_.mf && r.mf.None?, Incomplete, NoMf)
                  + If(p.require_.runner && r.runner.None?, Incomplete, NoRunner)
                  + If(p.require_.ruling && r.ruling.None?, Incomplete, NoRuling);
    hide If;
    var worktree := EvalWorktree(r);
    out := out + worktree;
    if p.base.Some? {
      var base := EvalBase(r, p.base.value);
      out := out + base;
    }
  }

  method EvalWorktree(r: Receipt) returns (out: seq<Reason>)
    ensures out == WorktreeReasons(r)
  {
    var wt := r.worktree;
    out := [];
    if wt.headBefore.None? || wt.headAfter.None? {
      out := out + [Reason(Incomplete, NoWorktree)];
    } else {
      if wt.headBefore != wt.headAfter {
        out := out + [Reason(Incomplete, CodeMoved)];
      }
      if wt.headBefore != Some(r.head) {
        out := out + [Reason(Incomplete, OtherCheckout)];
      }
    }
    if wt.dirtyBefore == Some(true) || wt.dirtyAfter == Some(true) {
      out := out + [Reason(Incomplete, Dirty)];
    } else if wt.dirtyBefore.None? || wt.dirtyAfter.None? {
      out := out + [Reason(Incomplete, CleanUnknown)];
    }
  }

  method EvalBase(r: Receipt, rule: BaseRule) returns (out: seq<Reason>)
    ensures out == BaseReasons(r, rule)
  {
    var b := r.base;
    out := [];
    if b.ref.Some? && b.ref.value != rule.ref {
      out := out + [Reason(Fail, WeakenedBase)];
    }
    if b.shaAfter.None? || b.treeAfter.None? || b.treeBefore.None? {
      out := out + [Reason(Incomplete, NoTree)];
    } else if b.treeBefore != b.treeAfter {
      out := out + [Reason(Incomplete, TreeChanged)];
    } else if b.treeAfter == Some(Conflict) {
      out := out + [Reason(Incomplete, TreeConflict)];
    }
    if rule.byPaths && r.closure == {} {
      out := out + [Reason(Incomplete, NoClosure)];
    }
  }

  /** The verdict of a receipt under a profile and the item's grants. */
  method Judge(r: Receipt, profile: Option<Profile>, grants: seq<Graded>) returns (v: Verdict)
    ensures v == Evaluate(r, profile, grants)
  {
    hide IdentityReasons, StepReasons, InputReasons, Combine;
    if profile.None? {
      return Combine([Reason(Incomplete, NoProfile)]);
    }
    var p := profile.value;
    var reasons := EvalIdentity(r, p);
    ghost var head := reasons;
    for i := 0 to |p.steps|
      invariant head + AllStepReasons(p.steps, r, p, grants) == reasons + AllStepReasons(p.steps[i..], r, p, grants)
    {
      assert p.steps[i..][0] == p.steps[i] && p.steps[i..][1..] == p.steps[i + 1..];
      var step := EvalStep(p.steps[i], r, p, grants);
      reasons := reasons + step;
    }
    assert p.steps[|p.steps|..] == [] && reasons == head + AllStepReasons(p.steps, r, p, grants);
    var inputs := EvalInputs(r, p);
    v := Combine(reasons + inputs);
  }
}
