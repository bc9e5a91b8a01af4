/** The verdict of a gate receipt (`evaluate` in dispatch/gate_rules.py): a profile,
 * the evidence of a run, and the grants of the item it ran for.
 *
 * Result lines are already parsed (`counts`, `mypy`, `violations`), and a reason
 * carries what it says and the grants it names instead of a sentence.
 */
module GateRules {
  import opened Prelude
  import opened Words
  import CommandCheck

  datatype Sha = Sha(hex: string)
  datatype Name = Name(text: string)
  datatype Label = Label(item: nat, seq_: nat)
  datatype Who = Owner | Member(name: string)
  type NodeId = string
  type Text = string

  // ---- evidence ----

  datatype Outcome = Passed | Failed | Errored | Skipped | XFailed | XPassed | Deselected
  datatype Node = Node(id: NodeId, outcome: Outcome, excType: Option<Text>)
  datatype Noted = Noted(node: NodeId, reason: Text)
  datatype Counts = Counts(passed: nat, failed: nat, errors: nat, skipped: nat, xfailed: nat, xpassed: nat)
  datatype Mypy = Mypy(ok: bool, errors: nat)
  datatype StepState = Ran | SkippedStep | NotRun | VoidStep

  /** What a variance grant binds: argv and environment, through an injective
   *  digest. */
  datatype Digest = OfCommand(argv: seq<Token>, env: map<Token, Token>) | Other(text: Text)

  datatype Executed = Executed(argv: seq<Token>, env: map<Token, Token>)

  function DigestOf(cmd: Option<Executed>): Digest {
    if cmd.None? then OfCommand([], map[]) else OfCommand(cmd.value.argv, cmd.value.env)
  }

  datatype StepRun = StepRun(
    name: Name, state: StepState, cmd: Option<Executed>, atSha: Option<Sha>, rc: Option<int>,
    nodes: Option<seq<Node>>, skips: Option<seq<Noted>>, deselected: Option<seq<Noted>>,
    counts: Option<Counts>, mypy: Option<Mypy>, violations: Option<nat>)

  datatype InputKind = File | Dir | Gcs | Artifact | Db
  datatype InputState = Bound | Missing | Unbound
  datatype Input = Input(name: Name, kind: InputKind, state: InputState, contentId: Option<Text>, hashedAtRun: bool)

  datatype Tree = Tree(oid: string) | Conflict
  datatype Base = Base(ref: Option<Text>, shaBefore: Option<Sha>, shaAfter: Option<Sha>,
                       treeBefore: Option<Tree>, treeAfter: Option<Tree>)
  datatype Worktree = Worktree(headBefore: Option<Sha>, headAfter: Option<Sha>,
                               dirtyBefore: Option<bool>, dirtyAfter: Option<bool>, path: Option<Token>)

  datatype Receipt = Receipt(
    gate: Name, head: Sha, mf: Option<Sha>, runner: Option<Sha>, ruling: Option<Text>, base: Base,
    closure: set<Text>, worktree: Worktree, inputs: seq<Input>, steps: seq<StepRun>, waivers: set<Label>)

  // ---- what the gate asks ----

  datatype Level = Fail | Void | Incomplete | Waived | Note
  datatype StepKind = Pytest | MypyKind | Ruff | ExitCode

  datatype StepProfile = StepProfile(
    name: Name, kind: StepKind, required: bool, argv: seq<Token>, atMf: bool, nodes: seq<NodeId>,
    expectFail: map<NodeId, seq<Text>>, expectDefault: Text, minPassed: nat, maxFailed: nat, xfailPasses: bool,
    mustRun: seq<Token>, allowsSkip: Text -> bool, skipFails: bool, maxErrors: nat, maxViolations: nat)

  datatype Require = Require(mf: bool, runner: bool, ruling: bool, attestation: bool)
  datatype BaseRule = BaseRule(ref: Text, byPaths: bool)
  datatype InputRule = InputRule(name: Name, kind: InputKind, required: bool)

  datatype Profile = Profile(
    version: nat, steps: seq<StepProfile>, waivable: set<Name>, require_: Require, base: Option<BaseRule>,
    inputs: seq<InputRule>, allowedEnv: set<Token>, acceptUnverified: set<InputKind>, runnerPath: Option<Token>)

  // ---- grants ----

  datatype GrantKind = Waiver | Variance | Selection
  datatype MessageCheck = MessageCheck(found: bool, sender: Option<Who>, head: bool, base: bool, step: bool, kind: bool)

  datatype Grant = Grant(
    tag: Label, kind: GrantKind, gate: Name, grantor: Who, head: Sha, base: Option<Sha>, step: Name,
    nodes: seq<NodeId>, digest: Option<Digest>, reason: Text, risk: Text, check: MessageCheck, revoked: bool)

  datatype GrantProblem =
    | Revoked | NotAGrantor | NoMessage | OtherSender | NoHead | NoBase | NoStep | NoKind | NoReason
    | UnknownStep | NotWaivable | NoDigest | NoNodes | NodesOutside
    | OtherHead | OtherBase

  function StepNamed(p: Option<Profile>, name: Name): Option<StepProfile> {
    if p.None? then None else FindStep(p.value.steps, name)
  }

  function FindStep(steps: seq<StepProfile>, name: Name): Option<StepProfile> {
    if steps == [] then None else if steps[0].name == name then Some(steps[0]) else FindStep(steps[1..], name)
  }

  function MessageProblems(g: Grant): set<GrantProblem> {
    if !g.check.found then {NoMessage}
    else
      (if g.check.sender != Some(g.grantor) then {OtherSender} else {})
      + (if !g.check.head then {NoHead} else {})
      + (if g.base.Some? && !g.check.base then {NoBase} else {})
      + (if !g.check.step then {NoStep} else {})
      + (if !g.check.kind then {NoKind} else {})
  }

  /** What is wrong with a grant whatever its message says. */
  function ShapeProblems(g: Grant, p: Option<Profile>): set<GrantProblem> {
    var step := StepNamed(p, g.step);
    (if step.None? then {UnknownStep} else if g.kind == Waiver && g.step !in p.value.waivable then {NotWaivable} else {})
    + (if g.kind == Variance && g.digest.None? then {NoDigest} else {})
    + (if g.kind == Selection && g.nodes == [] then {NoNodes} else {})
    + (if step.Some? && g.nodes != [] && step.value.nodes != [] && !(ToSet(g.nodes) <= ToSet(step.value.nodes)) then {NodesOutside} else {})
  }

  /** Why a grant is not verified: nothing when it is. */
  function GrantProblems(g: Grant, p: Option<Profile>, grantors: set<Who>): set<GrantProblem> {
    (if g.revoked then {Revoked} else {})
    + (if g.grantor !in grantors then {NotAGrantor} else {})
    + MessageProblems(g)
    + (if g.reason == "" || g.risk == "" then {NoReason} else {})
    + ShapeProblems(g, p)
  }

  /** A grant with what the board holds against it. */
  datatype Graded = Graded(g: Grant, problems: set<GrantProblem>)

  function Grade(grants: seq<Grant>, p: Option<Profile>, grantors: set<Who>): (graded: seq<Graded>)
    ensures |graded| == |grants|
  {
    if grants == [] then [] else [Graded(grants[0], GrantProblems(grants[0], p, grantors))] + Grade(grants[1..], p, grantors)
  }

  /** The grant is about this step of this gate; a waiver must be cited. */
  predicate Concerns(g: Grant, r: Receipt, step: Name, kind: GrantKind) {
    g.step == step && g.kind == kind && g.gate == r.gate && (kind == Waiver ==> g.tag in r.waivers)
  }

  function Against(x: Graded, r: Receipt): set<GrantProblem> {
    x.problems
    + (if x.g.head != r.head then {OtherHead} else {})
    + (if x.g.base.Some? && x.g.base != r.base.shaBefore then {OtherBase} else {})
  }

  /** Those of `grants` that concern the step and have nothing against them, in their
   *  order. */
  function Covering(grants: seq<Graded>, r: Receipt, step: Name, kind: GrantKind): seq<Grant> {
    if grants == [] then []
    else (if Concerns(grants[0].g, r, step, kind) && Against(grants[0], r) == {} then [grants[0].g] else [])
         + Covering(grants[1..], r, step, kind)
  }

  /** Notes on the grants that do not cover it: cited ones, and any variance. */
  function CoverNotes(grants: seq<Graded>, r: Receipt, step: Name, kind: GrantKind): seq<Why> {
    if grants == [] then []
    else (if Concerns(grants[0].g, r, step, kind) && Against(grants[0], r) != {}
             && (kind == Variance || grants[0].g.tag in r.waivers)
          then [Unverified(grants[0].g.tag, Against(grants[0], r))] else [])
         + CoverNotes(grants[1..], r, step, kind)
  }

  // ---- reasons ----

  datatype Why =
    | NoProfile | NotAttested | NoMf | NoRunner | NoRuling | NoWorktree | CodeMoved | OtherCheckout | Dirty | CleanUnknown
    | WeakenedBase | NoTree | TreeChanged | TreeConflict | NoClosure
    | MissingStep(step: Name) | VoidedStep(step: Name) | StepNotRun(step: Name, state: StepState)
    | WaivedBy(step: Name, tag: Label) | NodesBy(step: Name, labels: seq<Label>) | VarianceBy(step: Name, tag: Label)
    | NoGrantedNodes(step: Name) | Weakened(step: Name, problems: set<CommandCheck.Problem>) | NodesDropped(step: Name)
    | Unverified(tag: Label, held: set<GrantProblem>)
    | NoLists(step: Name) | Unparsed(step: Name) | CountsDiffer(step: Name) | NoExitCode(step: Name)
    | ExitCodeDiffers(step: Name, rc: int) | SkipsDiffer(step: Name) | DeselectedDiffer(step: Name) | NoAtSha(step: Name) | RanElsewhere(step: Name)
    | Failures(step: Name, failed: nat, errors: nat) | Vacuous(step: Name, passed: nat)
    | MustRunAbsent(step: Name, entry: Token) | MustRunNotRun(step: Name, entry: Token)
    | SkipUnexplained(step: Name, node: NodeId) | SkipNotAllowed(step: Name, node: NodeId, text: Text)
    | NoMfNode(step: Name) | MfAbsent(step: Name, node: NodeId) | MfOutcome(step: Name, node: NodeId, outcome: Outcome)
    | MfOtherError(step: Name, node: NodeId, excType: Option<Text>)
    | TooMany(step: Name, count: nat)
    | InputNotReported(input: Name) | InputOtherKind(input: Name) | InputMissing(input: Name) | InputUnbound(input: Name)
    | InputBadId(input: Name) | InputUnverified(input: Name)

  datatype Reason = Reason(level: Level, why: Why)

  /** The grants a reason's sentence names. */
  function Names(why: Why): set<Label> {
    match why
    case WaivedBy(_, tag) => {tag}
    case NodesBy(_, labels) => ToSet(labels)
    case VarianceBy(_, tag) => {tag}
    case Unverified(tag, _) => {tag}
    case _ => {}
  }

  function One(level: Level, why: Why): seq<Reason> {
    [Reason(level, why)]
  }

  function If(c: bool, level: Level, why: Why): seq<Reason> {
    if c then [Reason(level, why)] else []
  }

  // ---- the run as a whole ----

  function IdentityReasons(r: Receipt, p: Profile): seq<Reason> {
    If(p.require_.attestation, Incomplete, NotAttested)
    + If(p.require_.mf && r.mf.None?, Incomplete, NoMf)
    + If(p.require_.runner && r.runner.None?, Incomplete, NoRunner)
    + If(p.require_.ruling && r.ruling.None?, Incomplete, NoRuling)
    + WorktreeReasons(r)
    + if p.base.Some? then BaseReasons(r, p.base.value) else []
  }

  function WorktreeReasons(r: Receipt): seq<Reason> {
    var wt := r.worktree;
    (if wt.headBefore.None? || wt.headAfter.None? then One(Incomplete, NoWorktree)
     else If(wt.headBefore != wt.headAfter, Incomplete, CodeMoved) + If(wt.headBefore != Some(r.head), Incomplete, OtherCheckout))
    + (if wt.dirtyBefore == Some(true) || wt.dirtyAfter == Some(true) then One(Incomplete, Dirty)
       else If(wt.dirtyBefore.None? || wt.dirtyAfter.None?, Incomplete, CleanUnknown))
  }

  function BaseReasons(r: Receipt, rule: BaseRule): seq<Reason> {
    var b := r.base;
    If(b.ref.Some? && b.ref.value != rule.ref, Fail, WeakenedBase)
    + (if b.shaAfter.None? || b.treeAfter.None? || b.treeBefore.None? then One(Incomplete, NoTree)
       else if b.treeBefore != b.treeAfter then One(Incomplete, TreeChanged)
       else If(b.treeAfter == Some(Conflict), Incomplete, TreeConflict))
    + If(rule.byPaths && r.closure == {}, Incomplete, NoClosure)
  }

  // ---- pytest ----

  function Count(nodes: seq<Node>, outcome: Outcome): nat {
    if nodes == [] then 0 else (if nodes[0].outcome == outcome then 1 else 0) + Count(nodes[1..], outcome)
  }

  function NodeCounts(nodes: seq<Node>): Counts {
    Counts(Count(nodes, Passed), Count(nodes, Failed), Count(nodes, Errored), Count(nodes, Skipped), Count(nodes, XFailed),
           Count(nodes, XPassed))
  }

  function IdsWith(nodes: seq<Node>, outcome: Outcome): multiset<NodeId> {
    if nodes == [] then multiset{}
    else (if nodes[0].outcome == outcome then multiset{nodes[0].id} else multiset{}) + IdsWith(nodes[1..], outcome)
  }

  function NotedIds(notes: seq<Noted>): multiset<NodeId> {
    if notes == [] then multiset{} else multiset{notes[0].node} + NotedIds(notes[1..])
  }

  /** The last node of each id. */
  function ById(nodes: seq<Node>): map<NodeId, Node> {
    if nodes == [] then map[] else ById(nodes[..|nodes| - 1])[nodes[|nodes| - 1].id := nodes[|nodes| - 1]]
  }

  predicate HasRun(o: Outcome) {
    o != Skipped && o != Deselected
  }

  /** Do the summary, the node list, the lists of skips and the exit code agree, and
   *  did it run where it should? */
  function ConsistencyReasons(sp: StepProfile, st: StepRun, r: Receipt): seq<Reason>
    requires st.nodes.Some? && st.skips.Some? && st.deselected.Some?
  {
    var nodes := st.nodes.value;
    var counts := NodeCounts(nodes);
    var bad := counts.failed + counts.errors;
    (if st.counts.None? then One(Incomplete, Unparsed(sp.name)) else If(st.counts.value != counts, Fail, CountsDiffer(sp.name)))
    + (if st.rc.None? then One(Incomplete, NoExitCode(sp.name))
       else If((bad > 0 && st.rc.value == 0) || (bad == 0 && st.rc.value != 0 && st.rc.value != 5), Fail,
               ExitCodeDiffers(sp.name, st.rc.value)))
    + If(NotedIds(st.skips.value) != IdsWith(nodes, Skipped), Fail, SkipsDiffer(sp.name))
    + If(NotedIds(st.deselected.value) != IdsWith(nodes, Deselected), Fail, DeselectedDiffer(sp.name))
    + (if sp.atMf then if st.atSha.None? then One(Incomplete, NoAtSha(sp.name)) else If(st.atSha != r.mf, Fail, RanElsewhere(sp.name))
       else If(st.atSha.Some? && st.atSha.value != r.head, Fail, RanElsewhere(sp.name)))
  }

  function ResultReasons(sp: StepProfile, nodes: seq<Node>): seq<Reason> {
    var counts := NodeCounts(nodes);
    var passed := counts.passed + if sp.xfailPasses then counts.xfailed else 0;
    If(counts.failed + counts.errors > sp.maxFailed, Fail, Failures(sp.name, counts.failed, counts.errors))
    + If(passed < sp.minPassed, Incomplete, Vacuous(sp.name, passed))
  }

  function EntryHits(byId: map<NodeId, Node>, entry: Token, covered: set<NodeId>): set<NodeId> {
    set i | i in byId && CommandCheck.Under(i, entry) && i !in covered
  }

  predicate EntryCovered(entry: Token, covered: set<NodeId>) {
    exists i :: i in covered && (i == entry || StartsWith(i, entry))
  }

  function EntryReasons(name: Name, byId: map<NodeId, Node>, entry: Token, covered: set<NodeId>): seq<Reason> {
    var hits := EntryHits(byId, entry, covered);
    if hits == {} then If(!EntryCovered(entry, covered), Incomplete, MustRunAbsent(name, entry))
    else If(exists i :: i in hits && !HasRun(byId[i].outcome), Incomplete, MustRunNotRun(name, entry))
  }

  function MustRunReasons(name: Name, byId: map<NodeId, Node>, entries: seq<Token>, covered: set<NodeId>): seq<Reason> {
    if entries == [] then []
    else EntryReasons(name, byId, entries[0], covered) + MustRunReasons(name, byId, entries[1..], covered)
  }

  function SkipReason(sp: StepProfile, s: Noted, covered: set<NodeId>): seq<Reason> {
    if s.node in covered then []
    else if s.reason == "" then One(Incomplete, SkipUnexplained(sp.name, s.node))
    else If(!sp.allowsSkip(s.reason), if sp.skipFails then Fail else Incomplete, SkipNotAllowed(sp.name, s.node, s.reason))
  }

  function SkipReasons(sp: StepProfile, skips: seq<Noted>, covered: set<NodeId>): seq<Reason> {
    if skips == [] then [] else SkipReason(sp, skips[0], covered) + SkipReasons(sp, skips[1..], covered)
  }

  function ExpectedErrors(sp: StepProfile, node: NodeId): seq<Text> {
    if node in sp.expectFail && sp.expectFail[node] != [] then sp.expectFail[node] else [sp.expectDefault]
  }

  /** One must-fail node. */
  function MfNodeReasons(sp: StepProfile, byId: map<NodeId, Node>, id: NodeId): seq<Reason> {
    if id !in byId then One(Incomplete, MfAbsent(sp.name, id))
    else
      var node := byId[id];
      match node.outcome
      case Errored => One(Fail, MfOutcome(sp.name, id, Errored))
      case Passed => One(Fail, MfOutcome(sp.name, id, Passed))
      case XPassed => One(Fail, MfOutcome(sp.name, id, XPassed))
      case Skipped => One(Incomplete, MfOutcome(sp.name, id, Skipped))
      case Deselected => One(Incomplete, MfOutcome(sp.name, id, Deselected))
      case XFailed => One(Fail, MfOutcome(sp.name, id, XFailed))
      case Failed => If(node.excType.None? || node.excType.value !in ExpectedErrors(sp, id), Fail, MfOtherError(sp.name, id, node.excType))
  }

  function MfReasons(sp: StepProfile, byId: map<NodeId, Node>, wanted: seq<NodeId>, covered: set<NodeId>): seq<Reason> {
    if wanted == [] then []
    else (if wanted[0] in covered then [] else MfNodeReasons(sp, byId, wanted[0])) + MfReasons(sp, byId, wanted[1..], covered)
  }

  function Selected(nodes: seq<Node>): seq<NodeId> {
    if nodes == [] then [] else (if nodes[0].outcome == Deselected then [] else [nodes[0].id]) + Selected(nodes[1..])
  }

  function Wanted(sp: StepProfile, nodes: seq<Node>): seq<NodeId> {
    if sp.nodes != [] then sp.nodes else Selected(nodes)
  }

  function PytestReasons(sp: StepProfile, st: StepRun, r: Receipt, covered: set<NodeId>): seq<Reason> {
    if st.nodes.None? || st.skips.None? || st.deselected.None? then One(Incomplete, NoLists(sp.name))
    else
      var nodes := st.nodes.value;
      ConsistencyReasons(sp, st, r)
      + if sp.atMf then
          If(Wanted(sp, nodes) == [], Incomplete, NoMfNode(sp.name)) + MfReasons(sp, ById(nodes), Wanted(sp, nodes), covered)
        else
          ResultReasons(sp, nodes) + MustRunReasons(sp.name, ById(nodes), sp.mustRun, covered) + SkipReasons(sp, st.skips.value, covered)
  }

  // ---- other steps ----

  function SimpleReasons(sp: StepProfile, st: StepRun): seq<Reason> {
    if st.rc.None? then One(Incomplete, NoExitCode(sp.name))
    else
      var rc := st.rc.value;
      if sp.kind == ExitCode then If(rc != 0, Fail, ExitCodeDiffers(sp.name, rc))
      else if sp.kind == MypyKind then
        if st.mypy.None? then One(Incomplete, Unparsed(sp.name))
        else if st.mypy.value.ok != (rc == 0) then One(Fail, ExitCodeDiffers(sp.name, rc))
        else If(st.mypy.value.errors > sp.maxErrors, Fail, TooMany(sp.name, st.mypy.value.errors))
      else if st.violations.None? then One(Incomplete, Unparsed(sp.name))
      else if (st.violations.value == 0) != (rc == 0) then One(Fail, ExitCodeDiffers(sp.name, rc))
      else If(st.violations.value > sp.maxViolations, Fail, TooMany(sp.name, st.violations.value))
  }

  // ---- one step ----

  function NodesOf(grants: seq<Grant>): set<NodeId> {
    if grants == [] then {} else ToSet(grants[0].nodes) + NodesOf(grants[1..])
  }

  function Labels(grants: seq<Grant>): seq<Label> {
    if grants == [] then [] else [grants[0].tag] + Labels(grants[1..])
  }

  /** The first waiver of the step as a whole. */
  function WholeWaiver(waivers: seq<Grant>): Option<Grant> {
    if waivers == [] then None else if waivers[0].nodes == [] then Some(waivers[0]) else WholeWaiver(waivers[1..])
  }

  function MatchingVariance(variances: seq<Grant>, digest: Digest): Option<Grant> {
    if variances == [] then None
    else if variances[0].digest == Some(digest) then Some(variances[0]) else MatchingVariance(variances[1..], digest)
  }

  function ExecutedIds(nodes: seq<Node>): set<NodeId> {
    ToSet(Selected(nodes))
  }

  /** The granted nodes: the profile's, else those of the selections. */
  function GrantedNodes(sp: StepProfile, selected: set<NodeId>): set<NodeId> {
    if sp.nodes != [] then ToSet(sp.nodes) else selected
  }

  predicate Drops(sp: StepProfile, nodes: seq<Node>, selected: set<NodeId>, covered: set<NodeId>) {
    !(GrantedNodes(sp, selected) <= ExecutedIds(nodes) + covered)
  }

  function NodeReasons(sp: StepProfile, st: StepRun, selected: set<NodeId>, covered: set<NodeId>): (seq<Reason>, seq<Reason>) {
    if st.nodes.None? then ([], [])
    else if sp.nodes == [] && selected == {} then (One(Incomplete, NoGrantedNodes(sp.name)), [])
    else ([], If(Drops(sp, st.nodes.value, selected, covered), Fail, NodesDropped(sp.name)))
  }

  function Commanded(cmd: Option<Executed>): Option<CommandCheck.Command> {
    if cmd.None? then None else Some(CommandCheck.Command(cmd.value.argv, cmd.value.env.Keys))
  }

  function Weakenings(sp: StepProfile, st: StepRun, r: Receipt, p: Profile): set<CommandCheck.Problem> {
    CommandCheck.CommandProblems(sp.kind == Pytest, sp.argv, Commanded(st.cmd), p.allowedEnv,
                                 CommandCheck.Places(r.worktree.path, p.runnerPath))
  }

  function Noting(notes: seq<Why>): seq<Reason> {
    if notes == [] then [] else [Reason(Note, notes[0])] + Noting(notes[1..])
  }

  /** What a grant did for the step, said whether it is required or not. */
  function GrantReasons(sp: StepProfile, st: StepRun, r: Receipt, p: Profile, grants: seq<Graded>): seq<Reason> {
    var selections := Covering(grants, r, sp.name, Selection);
    var accepted := MatchingVariance(Covering(grants, r, sp.name, Variance), DigestOf(st.cmd));
    If(sp.kind == Pytest && NodesOf(selections) != {}, Waived, NodesBy(sp.name, Labels(selections)))
    + if Weakenings(sp, st, r, p) != {} && accepted.Some? then One(Waived, VarianceBy(sp.name, accepted.value.tag)) else []
  }

  function CommandReasons(sp: StepProfile, st: StepRun, r: Receipt, p: Profile, grants: seq<Graded>): seq<Reason> {
    var weak := Weakenings(sp, st, r, p);
    if weak == {} || MatchingVariance(Covering(grants, r, sp.name, Variance), DigestOf(st.cmd)).Some? then []
    else One(Fail, Weakened(sp.name, weak)) + Noting(CoverNotes(grants, r, sp.name, Variance))
  }

  /** What the evidence of a step that ran says. */
  function RunReasons(sp: StepProfile, st: StepRun, r: Receipt, p: Profile, grants: seq<Graded>, covered: set<NodeId>): seq<Reason> {
    var selected := NodesOf(Covering(grants, r, sp.name, Selection));
    var (unknown, dropped) := if sp.kind == Pytest then NodeReasons(sp, st, selected, covered) else ([], []);
    unknown + CommandReasons(sp, st, r, p, grants) + dropped
    + if sp.kind == Pytest then PytestReasons(sp, st, r, covered) else SimpleReasons(sp, st)
  }

  /** The last step of that name. */
  function RunNamed(steps: seq<StepRun>, name: Name): Option<StepRun> {
    if steps == [] then None
    else if steps[|steps| - 1].name == name then Some(steps[|steps| - 1]) else RunNamed(steps[..|steps| - 1], name)
  }

  function AsNotes(reasons: seq<Reason>): seq<Reason> {
    if reasons == [] then [] else [reasons[0].(level := Note)] + AsNotes(reasons[1..])
  }

  function EvidenceReasons(sp: StepProfile, st: Option<StepRun>, r: Receipt, p: Profile, grants: seq<Graded>,
                           covered: set<NodeId>): seq<Reason>
  {
    match st
    case None => One(Incomplete, MissingStep(sp.name))
    case Some(run) =>
      match run.state
      case VoidStep => One(Void, VoidedStep(sp.name))
      case SkippedStep => One(Incomplete, StepNotRun(sp.name, SkippedStep))
      case NotRun => One(Incomplete, StepNotRun(sp.name, NotRun))
      case Ran => RunReasons(sp, run, r, p, grants, covered)
  }

  function StepReasons(sp: StepProfile, r: Receipt, p: Profile, grants: seq<Graded>): seq<Reason> {
    var waivers := Covering(grants, r, sp.name, Waiver);
    var whole := WholeWaiver(waivers);
    if whole.Some? then One(Waived, WaivedBy(sp.name, whole.value.tag))
    else
      var st := RunNamed(r.steps, sp.name);
      var evidence := EvidenceReasons(sp, st, r, p, grants, NodesOf(waivers));
      (if st.Some? && st.value.state == Ran then GrantReasons(sp, st.value, r, p, grants) else [])
      + if !sp.required then AsNotes(evidence)
        else evidence + (if evidence == [] then [] else Noting(CoverNotes(grants, r, sp.name, Waiver)))
  }

  function AllStepReasons(steps: seq<StepProfile>, r: Receipt, p: Profile, grants: seq<Graded>): seq<Reason> {
    if steps == [] then [] else StepReasons(steps[0], r, p, grants) + AllStepReasons(steps[1..], r, p, grants)
  }

  // ---- inputs ----

  predicate WellPrefixed(kind: InputKind, id: Text) {
    match kind
    case File => StartsWith(id, "sha256:")
    case Dir => StartsWith(id, "tree:")
    case Gcs => StartsWith(id, "gcs:")
    case Artifact => StartsWith(id, "sha256:") || StartsWith(id, "tree:") || StartsWith(id, "gcs:")
    case Db => StartsWith(id, "snapshot:") || StartsWith(id, "rows:")
  }

  /** The last input of that name. */
  function InputNamed(inputs: seq<Input>, name: Name): Option<Input> {
    if inputs == [] then None
    else if inputs[|inputs| - 1].name == name then Some(inputs[|inputs| - 1]) else InputNamed(inputs[..|inputs| - 1], name)
  }

  function InputReason(rule: InputRule, r: Receipt, p: Profile): seq<Reason> {
    if !rule.required then []
    else
      match InputNamed(r.inputs, rule.name)
      case None => One(Incomplete, InputNotReported(rule.name))
      case Some(i) =>
        if i.kind != rule.kind then One(Incomplete, InputOtherKind(rule.name))
        else if i.state == Missing then One(Void, InputMissing(rule.name))
        else if i.state == Unbound || i.contentId.None? then One(Incomplete, InputUnbound(rule.name))
        else if !WellPrefixed(i.kind, i.contentId.value) then One(Incomplete, InputBadId(rule.name))
        else If(!i.hashedAtRun && i.kind !in p.acceptUnverified, Incomplete, InputUnverified(rule.name))
  }

  function InputReasons(rules: seq<InputRule>, r: Receipt, p: Profile): seq<Reason> {
    if rules == [] then [] else InputReason(rules[0], r, p) + InputReasons(rules[1..], r, p)
  }

  // ---- the verdict ----

  datatype Word = Pass | IncompleteWord | VoidWord | FailWord

  /** From best to worst. */
  function Rank(w: Word): nat {
    match w
    case Pass => 0
    case IncompleteWord => 1
    case VoidWord => 2
    case FailWord => 3
  }

  datatype Verdict = Verdict(word: Word, reasons: seq<Reason>)

  predicate HasLevel(reasons: seq<Reason>, level: Level) {
    exists x :: x in reasons && x.level == level
  }

  function WordOf(reasons: seq<Reason>): Word {
    if HasLevel(reasons, Fail) then FailWord
    else if HasLevel(reasons, Void) then VoidWord
    else if HasLevel(reasons, Incomplete) then IncompleteWord
    else Pass
  }

  function OfLevel(reasons: seq<Reason>, level: Level): seq<Reason> {
    if reasons == [] then [] else (if reasons[0].level == level then [reasons[0]] else []) + OfLevel(reasons[1..], level)
  }

  /** Worst first, otherwise in the order found. */
  function Sorted(reasons: seq<Reason>): seq<Reason> {
    OfLevel(reasons, Fail) + OfLevel(reasons, Void) + OfLevel(reasons, Incomplete) + OfLevel(reasons, Waived) + OfLevel(reasons, Note)
  }

  function Combine(reasons: seq<Reason>): Verdict {
    Verdict(WordOf(reasons), Sorted(reasons))
  }

  function AllReasons(r: Receipt, p: Profile, grants: seq<Graded>): seq<Reason> {
    IdentityReasons(r, p) + AllStepReasons(p.steps, r, p, grants) + InputReasons(p.inputs, r, p)
  }

  function Evaluate(r: Receipt, p: Option<Profile>, grants: seq<Graded>): Verdict {
    Combine(if p.None? then One(Incomplete, NoProfile) else AllReasons(r, p.value, grants))
  }
}
