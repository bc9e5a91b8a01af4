/** The command check as it runs: an index moved along argv, and problems
 * collected on the way (dispatch/gate_rules.py).
 */
module CommandParser {
  import opened Prelude
  import opened Words
  import opened CommandCheck

  /** The options at `i`; `ended` when the wrapper ends with them. */
  method SkipOptions(tool: Tool, argv: seq<Token>, start: nat) returns (i: nat, problems: seq<Problem>, ended: bool)
    requires start <= |argv|
    ensures Scan(i, problems, ended) == ScanOptions(tool, argv, start)
  {
    hide FirstOption, OptValue, Fits, Flags, ValuedOptions;
    i, problems, ended := start, [], false;
    while i < |argv| && StartsWith(argv[i], "-")
      invariant start <= i <= |argv| && !ended
      invariant ScanOptions(tool, argv, start) == Before(problems, ScanOptions(tool, argv, i))
      decreases |argv| - i
    {
      if tool == SystemdRun && argv[i] == "--" {
        return i + 1, problems, true;
      }
      if argv[i] in Flags(tool) {
        i := i + 1;
        continue;
      }
      var option := FirstOption(ValuedOptions(tool), argv, i);
      if option.None? {
        return i + 1, problems + [NotAllowedForm(tool, argv[i])], true;
      }
      FirstReads(ValuedOptions(tool), argv, i);
      var read := OptValue(argv, i, option.value);
      ghost var rest := ScanOptions(tool, argv, read.next);
      if !Fits(read, option.value.form) {
        BeforeTwice(problems, [NotAllowedForm(tool, argv[i])], rest);
        problems := problems + [NotAllowedForm(tool, argv[i])];
      } else {
        BeforeTwice(problems, [], rest);
      }
      i := read.next;
    }
  }

  ghost function Before(problems: seq<Problem>, s: Scan): Scan {
    s.(problems := problems + s.problems)
  }

  lemma BeforeTwice(a: seq<Problem>, b: seq<Problem>, s: Scan)
    ensures Before(a, Before(b, s)) == Before(a + b, s) && a + [] == a
  {
    assert a + (b + s.problems) == a + b + s.problems;
  }

  lemma {:induction false} FirstReads(options: seq<Valued>, argv: seq<Token>, i: nat)
    requires i < |argv| && FirstOption(options, argv, i).Some?
    ensures OptValue(argv, i, FirstOption(options, argv, i).value).next > i
    decreases |options|
  {
    if OptValue(argv, i, options[0]).next == i {
      FirstReads(options[1..], argv, i);
    }
  }

  /** The assignments after `env`. */
  method SkipAssignments(argv: seq<Token>, start: nat, allowedEnv: set<Token>) returns (i: nat, problems: seq<Problem>)
    requires start <= |argv|
    ensures Scan(i, problems, false) == ScanAssignments(argv, start, allowedEnv)
  {
    hide AllowedAssignment;
    i, problems := start, [];
    while i < |argv| && '=' in argv[i] && !StartsWith(argv[i], "-")
      invariant start <= i <= |argv|
      invariant ScanAssignments(argv, start, allowedEnv) == Before(problems, ScanAssignments(argv, i, allowedEnv))
      decreases |argv| - i
    {
      ghost var rest := ScanAssignments(argv, i + 1, allowedEnv);
      if !AllowedAssignment(argv[i], allowedEnv) {
        BeforeTwice(problems, [EnvNotAllowed(BeforeEquals(argv[i]))], rest);
        problems := problems + [EnvNotAllowed(BeforeEquals(argv[i]))];
      } else {
        BeforeTwice(problems, [], rest);
      }
      i := i + 1;
    }
  }

  /** Parses one wrapper at `start`; the index after it and what is wrong. */
  method ParseWrapper(tool: Tool, argv: seq<Token>, start: nat, allowedEnv: set<Token>) returns (i: nat, problems: seq<Problem>)
    requires start < |argv|
    ensures i == WrapperAt(tool, argv, start, allowedEnv).next && problems == WrapperAt(tool, argv, start, allowedEnv).problems
  {
    hide ScanOptions, ScanAssignments, OptValue, HasForm;
    i, problems := start + 1, [];
    match tool {
      case Timeout =>
        var ended;
        i, problems, ended := SkipOptions(Timeout, argv, i);
        if !ended {
          if !(i < |argv| && HasForm(argv[i], Duration)) {
            problems := problems + [NotAllowedForm(Timeout, "")];
          }
          i := i + 1;
        }
      case Nice =>
        if i < |argv| {
          var read := OptValue(argv, i, ValuedOptions(Nice)[0]);
          if read.next != i {
            if !Fits(read, SmallInt) {
              problems := [NotAllowedForm(Nice, argv[i])];
            }
            i := read.next;
          } else if HasForm(argv[i], SmallInt) && StartsWith(argv[i], "-") {
            i := i + 1;
          }
        }
      case Taskset =>
        if i < |argv| && argv[i] == "-a" {
          i := i + 1;
        }
        var read := if i < |argv| then OptValue(argv, i, ValuedOptions(Taskset)[0]) else Read(None, i);
        if read.next != i {
          if !Fits(read, CpuList) {
            problems := [NotAllowedForm(Taskset, argv[i])];
          }
          i := read.next;
        } else {
          if !(i < |argv| && HasForm(argv[i], Mask)) {
            problems := [NotAllowedForm(Taskset, "")];
          }
          i := i + 1;
        }
      case Env =>
        i, problems := SkipAssignments(argv, i, allowedEnv);
        if i < |argv| && StartsWith(argv[i], "-") {
          problems, i := problems + [NotAllowedForm(Env, argv[i])], i + 1;
        }
      case Ionice =>
        var ended;
        i, problems, ended := SkipOptions(Ionice, argv, i);
      case Numactl =>
        var ended;
        i, problems, ended := SkipOptions(Numactl, argv, i);
      case SystemdRun =>
        var ended;
        i, problems, ended := SkipOptions(SystemdRun, argv, i);
    }
  }

  method StripWrappers(argv: seq<Token>, granted: seq<Token>, allowedEnv: set<Token>, p: Places)
    returns (problems: seq<Problem>, effective: seq<Token>)
    requires granted != []
    ensures Stripped(problems, effective) == Strip(argv, 0, granted, allowedEnv, p, [])
  {
    hide ProgramOk, WrapperAt, ProgramAt, ToolOf, Basename;
    problems, effective := [], [];
    var i := 0;
    while i < |argv|
      invariant Strip(argv, 0, granted, allowedEnv, p, []) == Strip(argv, i, granted, allowedEnv, p, problems)
      decreases |argv| - i
    {
      if ProgramAt(argv, i, granted) {
        if !ProgramOk(argv[i], granted[0], p) {
          return [OtherProgram(argv[i])], [];
        }
        return problems, argv[i..];
      }
      var tool := ToolOf(Basename(argv[i]));
      if tool.None? {
        return problems + [UnknownPrefix(argv[i])], [];
      }
      var more;
      i, more := ParseWrapper(tool.value, argv, i, allowedEnv);
      problems := problems + more;
    }
    if problems == [] {
      problems := [NoProgram];
    }
  }

  /** Options and paths, in order. */
  method SplitOpts(tokens: seq<Token>) returns (opts: seq<Opt>, paths: seq<Token>)
    ensures Parts(opts, paths) == Split(tokens)
  {
    hide ReadToken;
    opts, paths := [], [];
    var i := 0;
    while i < |tokens|
      invariant i <= |tokens|
      invariant Split(tokens) == Parts(opts + SplitFrom(tokens, i).opts, paths + SplitFrom(tokens, i).paths)
      decreases |tokens| - i
    {
      var (head, next) := ReadToken(tokens, i);
      ReadsOn(tokens, i);
      ghost var rest := SplitFrom(tokens, next);
      assert opts + (head.opts + rest.opts) == opts + head.opts + rest.opts;
      assert paths + (head.paths + rest.paths) == paths + head.paths + rest.paths;
      opts, paths, i := opts + head.opts, paths + head.paths, next;
    }
  }

  lemma ReadsOn(tokens: seq<Token>, i: nat)
    requires i < |tokens|
    ensures i < ReadToken(tokens, i).1 <= |tokens|
  {
  }

  method FindAdded(e: seq<Opt>, g: seq<Opt>) returns (problems: seq<Problem>)
    ensures problems == AddedOptions(e, g)
  {
    hide Harmless, AddedProblem;
    problems := [];
    for i := 0 to |e|
      invariant AddedOptions(e, g) == problems + AddedOptions(e[i..], g)
    {
      assert e[i..][0] == e[i] && e[i..][1..] == e[i + 1..];
      if e[i] !in g && !Harmless(e[i]) {
        problems := problems + [AddedProblem(e[i])];
      }
    }
  }

  method FindDropped(g: seq<Opt>, e: seq<Opt>) returns (problems: seq<Problem>)
    ensures problems == DroppedOptions(g, e)
  {
    hide Adjustable, DroppedProblem;
    problems := [];
    for i := 0 to |g|
      invariant DroppedOptions(g, e) == problems + DroppedOptions(g[i..], e)
    {
      assert g[i..][0] == g[i] && g[i..][1..] == g[i + 1..];
      if g[i] !in e && !Adjustable(g[i]) {
        problems := problems + [DroppedProblem(g[i], e)];
      }
    }
  }

  method FindRemoved(g: seq<Token>, e: seq<Token>) returns (problems: seq<Problem>)
    ensures problems == RemovedPaths(g, e)
  {
    problems := [];
    for i := 0 to |g|
      invariant RemovedPaths(g, e) == problems + RemovedPaths(g[i..], e)
    {
      assert g[i..][0] == g[i] && g[i..][1..] == g[i + 1..];
      if g[i] !in e {
        problems := problems + [PathRemoved(g[i])];
      }
    }
  }

  method FindOutside(e: seq<Token>, g: seq<Token>) returns (problems: seq<Problem>)
    ensures problems == OutsidePaths(e, g)
  {
    hide UnderAny;
    problems := [];
    for i := 0 to |e|
      invariant OutsidePaths(e, g) == problems + OutsidePaths(e[i..], g)
    {
      assert e[i..][0] == e[i] && e[i..][1..] == e[i + 1..];
      if e[i] !in g && !UnderAny(e[i], g) {
        problems := problems + [PathOutside(e[i])];
      }
    }
  }

  method PytestDiff(granted: seq<Token>, effective: seq<Token>) returns (problems: seq<Problem>)
    ensures problems == PytestProblems(granted, effective)
  {
    hide Split, AddedOptions, DroppedOptions, RemovedPaths, OutsidePaths;
    var gOpts, gPaths := SplitOpts(granted);
    var eOpts, ePaths := SplitOpts(effective);
    problems := FindAdded(eOpts, gOpts);
    var dropped := FindDropped(gOpts, eOpts);
    var removed := FindRemoved(gPaths, ePaths);
    var outside := FindOutside(ePaths, gPaths);
    problems := problems + dropped + removed + outside;
  }

  lemma OneMore(problems: seq<Problem>, more: Problem)
    ensures ToSet(problems + [more]) == ToSet(problems) + {more}
  {
  }

  lemma BothParts(a: seq<Problem>, b: seq<Problem>)
    ensures ToSet(a + b) == ToSet(a) + ToSet(b)
  {
  }

  method EnvDiff(env: set<Token>, allowedEnv: set<Token>, found: seq<Problem>) returns (problems: seq<Problem>)
    ensures ToSet(problems) == ToSet(found) + EnvProblems(env, allowedEnv)
  {
    problems := found;
    var left := env;
    ghost var done: set<Token> := {};
    assert EnvProblems({}, allowedEnv) == {};
    while left != {}
      invariant done + left == env && done !! left
      invariant ToSet(problems) == ToSet(found) + EnvProblems(done, allowedEnv)
      decreases left
    {
      var key :| key in left;
      assert EnvProblems(done + {key}, allowedEnv)
          == EnvProblems(done, allowedEnv) + if key in allowedEnv then {} else {EnvNotAllowed(key)};
      left, done := left - {key}, done + {key};
      if key !in allowedEnv {
        OneMore(problems, EnvNotAllowed(key));
        problems := problems + [EnvNotAllowed(key)];
      }
    }
    assert done == env;
  }

  /** Why the executed command needs a grantor's review. */
  method CommandDiff(pytest: bool, granted: seq<Token>, cmd: Option<Command>, allowedEnv: set<Token>, p: Places)
    returns (problems: seq<Problem>)
    ensures ToSet(problems) == CommandProblems(pytest, granted, cmd, allowedEnv, p)
  {
    hide Strip, PytestProblems, WithoutOutput;
    if granted == [] {
      return [];
    }
    if cmd.None? || cmd.value.argv == [] {
      return [NoCommand];
    }
    var effective;
    problems, effective := StripWrappers(cmd.value.argv, granted, allowedEnv, p);
    StripShape(cmd.value.argv, 0, granted, allowedEnv, p, []);
    if effective != [] {
      var k := ProgramLength(granted);
      var more: seq<Problem> := [];
      if pytest {
        more := PytestDiff(granted[k..], effective[k..]);
      } else if WithoutOutput(effective[k..]) != WithoutOutput(granted[k..]) {
        more := [ArgumentsDiffer];
      }
      BothParts(problems, more);
      problems := problems + more;
    }
    problems := EnvDiff(cmd.value.env, allowedEnv, problems);
  }
}
