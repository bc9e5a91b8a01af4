/** Is the executed command the granted one (`command_diff` in
 * dispatch/gate_rules.py)? Bounded resource wrappers may precede the granted
 * program, and what follows it may differ only in ways that neither narrow nor
 * redirect the run.
 */
module CommandCheck {
  import opened Prelude
  import opened Words

  datatype Tool = Timeout | Nice | Ionice | Taskset | Numactl | SystemdRun | Env

  function ToolOf(name: Token): Option<Tool> {
    if name == "timeout" then Some(Timeout)
    else if name == "nice" then Some(Nice)
    else if name == "ionice" then Some(Ionice)
    else if name == "taskset" then Some(Taskset)
    else if name == "numactl" then Some(Numactl)
    else if name == "systemd-run" then Some(SystemdRun)
    else if name == "env" then Some(Env)
    else None
  }

  datatype Problem =
    | NotAllowedForm(tool: Tool, token: Token) | EnvNotAllowed(key: Token) | UnknownPrefix(token: Token)
    | OtherProgram(token: Token) | NoProgram | NoCommand | ArgumentsDiffer
    | TooManyWorkers | NarrowsSelection(opt: Opt) | NotInGrant(opt: Opt) | FilterChanged(opt: Opt) | OptionDropped(opt: Opt)
    | PathRemoved(path: Token) | PathOutside(path: Token)

  // ---- options of the wrappers ----

  datatype Valued = Valued(short: Token, long: Token, form: Form)

  function Flags(tool: Tool): set<Token> {
    match tool
    case Timeout => {"--preserve-status", "--foreground"}
    case Ionice => {"-t"}
    case Numactl => {"-l", "--localalloc"}
    case SystemdRun => {"--user", "--scope", "-q", "--quiet", "--collect", "-G"}
    case _ => {}
  }

  function ValuedOptions(tool: Tool): seq<Valued> {
    match tool
    case Timeout => [Valued("-s", "--signal", SignalName), Valued("-k", "--kill-after", Duration)]
    case Nice => [Valued("-n", "--adjustment", SmallInt)]
    case Ionice => [Valued("-c", "--class", TwoDigits), Valued("-n", "--classdata", TwoDigits)]
    case Taskset => [Valued("-c", "--cpu-list", CpuList)]
    case Numactl => [Valued("-C", "--physcpubind", CpuList), Valued("-N", "--cpunodebind", CpuList),
                     Valued("-m", "--membind", CpuList), Valued("-p", "--preferred", CpuList),
                     Valued("-i", "--interleave", CpuList)]
    case SystemdRun => [Valued("-p", "--property", Property)]
    case Env => []
  }

  /** A value read at `i`, and the index after it; the same index when there is no
   *  such option there. */
  datatype Read = Read(value: Option<Token>, next: nat)

  function OptValue(argv: seq<Token>, i: nat, o: Valued): (r: Read)
    requires i < |argv|
    ensures i <= r.next <= |argv|
  {
    var t := argv[i];
    if StartsWith(t, o.long + "=") then Read(Some(t[|o.long| + 1..]), i + 1)
    else if t == o.short || t == o.long then
      if i + 1 < |argv| then Read(Some(argv[i + 1]), i + 2) else Read(None, i + 1)
    else if StartsWith(t, o.short) && |t| > |o.short| && !StartsWith(t, "--") then Read(Some(t[|o.short|..]), i + 1)
    else Read(None, i)
  }

  predicate Fits(r: Read, form: Form) {
    r.value.Some? && HasForm(r.value.value, form)
  }

  /** The first of the options that stands at `i`. */
  function FirstOption(options: seq<Valued>, argv: seq<Token>, i: nat): Option<Valued>
    requires i < |argv|
    decreases |options|
  {
    if options == [] then None
    else if OptValue(argv, i, options[0]).next != i then Some(options[0])
    else FirstOption(options[1..], argv, i)
  }

  /** Where the options end, what is wrong with them, and whether the wrapper ends
   *  there too. */
  datatype Scan = Scan(next: nat, problems: seq<Problem>, ended: bool)

  function ScanOptions(tool: Tool, argv: seq<Token>, i: nat): (s: Scan)
    requires i <= |argv|
    ensures i <= s.next <= |argv|
    decreases |argv| - i
  {
    if i == |argv| || !StartsWith(argv[i], "-") then Scan(i, [], false)
    else if tool == SystemdRun && argv[i] == "--" then Scan(i + 1, [], true)
    else if argv[i] in Flags(tool) then ScanOptions(tool, argv, i + 1)
    else
      var o := FirstOption(ValuedOptions(tool), argv, i);
      if o.None? || OptValue(argv, i, o.value).next == i then Scan(i + 1, [NotAllowedForm(tool, argv[i])], true)
      else
        var read := OptValue(argv, i, o.value);
        var rest := ScanOptions(tool, argv, read.next);
        Scan(rest.next, (if Fits(read, o.value.form) then [] else [NotAllowedForm(tool, argv[i])]) + rest.problems, rest.ended)
  }

  function ScanAssignments(argv: seq<Token>, i: nat, allowedEnv: set<Token>): (s: Scan)
    requires i <= |argv|
    ensures i <= s.next <= |argv|
    decreases |argv| - i
  {
    if i == |argv| || '=' !in argv[i] || StartsWith(argv[i], "-") then Scan(i, [], false)
    else
      var rest := ScanAssignments(argv, i + 1, allowedEnv);
      rest.(problems := (if AllowedAssignment(argv[i], allowedEnv) then [] else [EnvNotAllowed(BeforeEquals(argv[i]))]) + rest.problems)
  }

  predicate AllowedAssignment(t: Token, allowedEnv: set<Token>) {
    IsEnvKey(BeforeEquals(t)) && BeforeEquals(t) in allowedEnv
  }

  /** The wrapper at `i`: the index after it and what is wrong with it. */
  function WrapperAt(tool: Tool, argv: seq<Token>, i: nat, allowedEnv: set<Token>): (s: Scan)
    requires i < |argv|
    ensures i < s.next
    ensures s.problems == [] ==> s.next <= |argv|
  {
    var from := i + 1;
    match tool
    case Timeout =>
      var s := ScanOptions(Timeout, argv, from);
      if s.ended then s
      else Scan(s.next + 1,
                s.problems + (if s.next < |argv| && HasForm(argv[s.next], Duration) then [] else [NotAllowedForm(Timeout, "")]), true)
    case Nice =>
      if from == |argv| then Scan(from, [], true)
      else
        var read := OptValue(argv, from, ValuedOptions(Nice)[0]);
        if read.next != from then Scan(read.next, if Fits(read, SmallInt) then [] else [NotAllowedForm(Nice, argv[from])], true)
        else if HasForm(argv[from], SmallInt) && StartsWith(argv[from], "-") then Scan(from + 1, [], true)
        else Scan(from, [], true)
    case Taskset =>
      var at := if from < |argv| && argv[from] == "-a" then from + 1 else from;
      var read := if at < |argv| then OptValue(argv, at, ValuedOptions(Taskset)[0]) else Read(None, at);
      if read.next != at then Scan(read.next, if Fits(read, CpuList) then [] else [NotAllowedForm(Taskset, argv[at])], true)
      else Scan(at + 1, if at < |argv| && HasForm(argv[at], Mask) then [] else [NotAllowedForm(Taskset, "")], true)
    case Env =>
      var s := ScanAssignments(argv, from, allowedEnv);
      if s.next < |argv| && StartsWith(argv[s.next], "-")
      then Scan(s.next + 1, s.problems + [NotAllowedForm(Env, argv[s.next])], true) else s
    case Ionice => ScanOptions(Ionice, argv, from)
    case Numactl => ScanOptions(Numactl, argv, from)
    case SystemdRun => ScanOptions(SystemdRun, argv, from)
  }

  // ---- the program ----

  /** How many leading tokens of a granted argv name its program: three for a module run
   *  by an interpreter. */
  function ProgramLength(granted: seq<Token>): nat
    requires granted != []
  {
    if |granted| >= 3 && StartsWith(Basename(granted[0]), "python") && granted[1] == "-m" then 3 else 1
  }

  /** Where a run may take its programs from. */
  datatype Places = Places(worktree: Option<Token>, runnerPath: Option<Token>)

  function AllowedPrograms(name: Token, p: Places): set<Token>
    requires p.worktree.Some?
  {
    {JoinPath(p.worktree.value, ".venv/bin/" + name), JoinPath(p.worktree.value, "venv/bin/" + name)}
    + if p.runnerPath.Some? then {NormPath(JoinPath(p.worktree.value, p.runnerPath.value))} else {}
  }

  predicate ProgramOk(token: Token, granted: Token, p: Places) {
    token == granted
    || (Basename(token) == Basename(granted) && p.worktree.Some? && p.worktree.value != ""
        && NormPath(token) in AllowedPrograms(Basename(granted), p))
  }

  predicate ProgramAt(argv: seq<Token>, i: nat, granted: seq<Token>)
    requires granted != [] && i < |argv|
  {
    var k := ProgramLength(granted);
    Basename(argv[i]) == Basename(granted[0]) && i + k <= |argv| && argv[i + 1..i + k] == granted[1..k]
  }

  datatype Stripped = Stripped(problems: seq<Problem>, effective: seq<Token>)

  function OrNoProgram(problems: seq<Problem>): Stripped {
    Stripped(if problems == [] then [NoProgram] else problems, [])
  }

  /** The argv from the program on, after the wrappers from `i`. */
  function Strip(argv: seq<Token>, i: nat, granted: seq<Token>, allowedEnv: set<Token>, p: Places, found: seq<Problem>): Stripped
    requires granted != []
    decreases |argv| - i
  {
    if i >= |argv| then OrNoProgram(found)
    else if ProgramAt(argv, i, granted) then
      if ProgramOk(argv[i], granted[0], p) then Stripped(found, argv[i..]) else Stripped([OtherProgram(argv[i])], [])
    else
      var tool := ToolOf(Basename(argv[i]));
      if tool.None? then Stripped(found + [UnknownPrefix(argv[i])], [])
      else
        var s := WrapperAt(tool.value, argv, i, allowedEnv);
        Strip(argv, s.next, granted, allowedEnv, p, found + s.problems)
  }

  // ---- pytest arguments ----

  datatype Opt = Opt(key: Token, value: Option<Token>)

  const VALUE_OPTS: set<Token> := {
    "-n", "--numprocesses", "-k", "-m", "-p", "--timeout", "--deselect", "--ignore",
    "--ignore-glob", "-c", "--rootdir", "--junitxml", "--junit-xml", "-o", "--override-ini",
    "--maxfail", "--tb", "-W", "--basetemp", "--durations", "-r", "--dist", "--color",
    "--import-mode", "--confcutdir", "--log-level", "--timeout-method"}

  const OUTPUT_OPTS: set<Token> := {
    "-q", "-v", "-vv", "-vvv", "-s", "--tb", "-r", "--durations", "--junitxml",
    "--junit-xml", "--color", "--no-header", "--quiet", "--verbose", "-ra", "-rA",
    "-rs", "-rfE", "--basetemp", "-l", "--showlocals", "--log-level"}

  const FILTER_OPTS: set<Token> := {
    "-k", "-m", "--deselect", "--ignore", "--ignore-glob", "--lf", "--last-failed",
    "--ff", "-x", "--exitfirst", "--maxfail", "--sw", "--stepwise"}

  datatype Parts = Parts(opts: seq<Opt>, paths: seq<Token>)

  /** One token (or two) read as an option or a path. */
  function ReadToken(tokens: seq<Token>, i: nat): (Parts, nat)
    requires i < |tokens|
  {
    var t := tokens[i];
    if StartsWith(t, "--") && '=' in t then (Parts([Opt(BeforeEquals(t), Some(AfterEquals(t)))], []), i + 1)
    else if t in VALUE_OPTS && i + 1 < |tokens| then (Parts([Opt(t, Some(tokens[i + 1]))], []), i + 2)
    else if StartsWith(t, "-") && |t| > 2 && t[..2] in VALUE_OPTS && !StartsWith(t, "--") then
      (Parts([Opt(t[..2], Some(t[2..]))], []), i + 1)
    else if StartsWith(t, "-") then (Parts([Opt(t, None)], []), i + 1)
    else (Parts([], [t]), i + 1)
  }

  function SplitFrom(tokens: seq<Token>, i: nat): Parts
    requires i <= |tokens|
    decreases |tokens| - i
  {
    if i == |tokens| then Parts([], [])
    else
      var (head, next) := ReadToken(tokens, i);
      var rest := SplitFrom(tokens, next);
      Parts(head.opts + rest.opts, head.paths + rest.paths)
  }

  function Split(tokens: seq<Token>): Parts {
    SplitFrom(tokens, 0)
  }

  predicate IsWorkers(key: Token) {
    key == "-n" || key == "--numprocesses"
  }

  /** An option a run may add without a grant. */
  predicate Harmless(o: Opt) {
    if IsWorkers(o.key) then o.value.Some? && ParseInt(o.value.value).Some? && ParseInt(o.value.value).value <= 2
    else if o.key == "--timeout" || o.key == "--timeout-method" || o.key in OUTPUT_OPTS then true
    else o.key == "-p" && o.value.Some? && StartsWith(o.value.value, "no:cacheprovider")
  }

  /** A granted option a run may leave out or change. */
  predicate Adjustable(o: Opt) {
    o.key in OUTPUT_OPTS || IsWorkers(o.key) || o.key == "--timeout"
  }

  function AddedProblem(o: Opt): Problem {
    if IsWorkers(o.key) then TooManyWorkers
    else if o.key in FILTER_OPTS then NarrowsSelection(o)
    else NotInGrant(o)
  }

  function DroppedProblem(o: Opt, effective: seq<Opt>): Problem {
    if o.key in FILTER_OPTS && exists e :: e in effective && e.key == o.key then FilterChanged(o) else OptionDropped(o)
  }

  predicate Under(path: Token, granted: Token) {
    path == granted || StartsWith(path, StripSlashes(granted) + "/") || StartsWith(path, granted + "::")
  }

  predicate UnderAny(path: Token, granted: seq<Token>) {
    exists g :: g in granted && Under(path, g)
  }

  function AddedOptions(e: seq<Opt>, g: seq<Opt>): seq<Problem> {
    if e == [] then []
    else (if e[0] in g || Harmless(e[0]) then [] else [AddedProblem(e[0])]) + AddedOptions(e[1..], g)
  }

  function DroppedOptions(g: seq<Opt>, e: seq<Opt>): seq<Problem> {
    if g == [] then []
    else (if g[0] in e || Adjustable(g[0]) then [] else [DroppedProblem(g[0], e)]) + DroppedOptions(g[1..], e)
  }

  function RemovedPaths(g: seq<Token>, e: seq<Token>): seq<Problem> {
    if g == [] then [] else (if g[0] in e then [] else [PathRemoved(g[0])]) + RemovedPaths(g[1..], e)
  }

  function OutsidePaths(e: seq<Token>, g: seq<Token>): seq<Problem> {
    if e == [] then []
    else (if e[0] in g || UnderAny(e[0], g) then [] else [PathOutside(e[0])]) + OutsidePaths(e[1..], g)
  }

  function PytestProblems(granted: seq<Token>, effective: seq<Token>): seq<Problem> {
    var g, e := Split(granted), Split(effective);
    AddedOptions(e.opts, g.opts) + DroppedOptions(g.opts, e.opts) + RemovedPaths(g.paths, e.paths) + OutsidePaths(e.paths, g.paths)
  }

  function WithoutOutput(tokens: seq<Token>): seq<Token> {
    if tokens == [] then []
    else (if tokens[0] in OUTPUT_OPTS then [] else [tokens[0]]) + WithoutOutput(tokens[1..])
  }

  // ---- the check ----

  datatype Command = Command(argv: seq<Token>, env: set<Token>)

  /** The variables set outside the grant's list, whatever their order. */
  function EnvProblems(env: set<Token>, allowedEnv: set<Token>): set<Problem> {
    set k | k in env && k !in allowedEnv :: EnvNotAllowed(k)
  }

  function ArgumentProblems(pytest: bool, granted: seq<Token>, effective: seq<Token>): seq<Problem>
    requires granted != [] && |effective| >= ProgramLength(granted)
  {
    var k := ProgramLength(granted);
    if pytest then PytestProblems(granted[k..], effective[k..])
    else if WithoutOutput(granted[k..]) == WithoutOutput(effective[k..]) then [] else [ArgumentsDiffer]
  }

  /** Why a command needs a grantor's review: nothing when it is within the grant.
   *  A step without a granted argv is not checked. */
  function CommandProblems(pytest: bool, granted: seq<Token>, cmd: Option<Command>, allowedEnv: set<Token>, p: Places): set<Problem> {
    if granted == [] then {}
    else if cmd.None? || cmd.value.argv == [] then {NoCommand}
    else
      var s := Strip(cmd.value.argv, 0, granted, allowedEnv, p, []);
      StripShape(cmd.value.argv, 0, granted, allowedEnv, p, []);
      ToSet(s.problems)
      + (if s.effective == [] then {} else ToSet(ArgumentProblems(pytest, granted, s.effective)))
      + EnvProblems(cmd.value.env, allowedEnv)
  }

  /** What is left is the program and its arguments, or a problem. */
  lemma {:induction false} StripShape(argv: seq<Token>, i: nat, granted: seq<Token>, allowedEnv: set<Token>, p: Places, found: seq<Problem>)
    requires granted != []
    ensures var s := Strip(argv, i, granted, allowedEnv, p, found);
            if s.effective == [] then s.problems != [] else |s.effective| >= ProgramLength(granted)
    decreases |argv| - i
  {
    if i < |argv| && !ProgramAt(argv, i, granted) && ToolOf(Basename(argv[i])).Some? {
      var s := WrapperAt(ToolOf(Basename(argv[i])).value, argv, i, allowedEnv);
      StripShape(argv, s.next, granted, allowedEnv, p, found + s.problems);
    }
  }
}
