/** What an accepted command is: bounded wrappers, the granted program, and
 * arguments within the grant.
 */
module CommandGrant {
  import opened Prelude
  import opened Words
  import opened CommandCheck

  // ---- arguments within the grant ----

  ghost predicate WithinGrant(g: Parts, e: Parts) {
    && (forall o :: o in e.opts ==> o in g.opts || Harmless(o))
    && (forall o :: o in g.opts ==> o in e.opts || Adjustable(o))
    && (forall p :: p in g.paths ==> p in e.paths)
    && (forall p :: p in e.paths ==> UnderAny(p, g.paths))
  }

  lemma {:induction false} AddedNothing(e: seq<Opt>, g: seq<Opt>)
    ensures AddedOptions(e, g) == [] <==> forall o :: o in e ==> o in g || Harmless(o)
  {
    if e != [] {
      AddedNothing(e[1..], g);
      assert forall o :: o in e <==> o == e[0] || o in e[1..];
    }
  }

  lemma {:induction false} DroppedNothing(g: seq<Opt>, e: seq<Opt>)
    ensures DroppedOptions(g, e) == [] <==> forall o :: o in g ==> o in e || Adjustable(o)
  {
    if g != [] {
      DroppedNothing(g[1..], e);
      assert forall o :: o in g <==> o == g[0] || o in g[1..];
    }
  }

  lemma {:induction false} RemovedNothing(g: seq<Token>, e: seq<Token>)
    ensures RemovedPaths(g, e) == [] <==> forall p :: p in g ==> p in e
  {
    if g != [] {
      RemovedNothing(g[1..], e);
      assert forall p :: p in g <==> p == g[0] || p in g[1..];
    }
  }

  lemma {:induction false} NothingOutside(e: seq<Token>, g: seq<Token>)
    ensures OutsidePaths(e, g) == [] <==> forall p :: p in e ==> UnderAny(p, g)
  {
    if e != [] {
      NothingOutside(e[1..], g);
      assert forall p :: p in e <==> p == e[0] || p in e[1..];
      assert e[0] in g ==> Under(e[0], e[0]);
    }
  }

  /** The argument check accepts exactly what is within the grant. */
  lemma PytestExact(granted: seq<Token>, effective: seq<Token>)
    ensures PytestProblems(granted, effective) == [] <==> WithinGrant(Split(granted), Split(effective))
  {
    hide Split, Harmless, Adjustable, UnderAny;
    var g, e := Split(granted), Split(effective);
    AddedNothing(e.opts, g.opts);
    DroppedNothing(g.opts, e.opts);
    RemovedNothing(g.paths, e.paths);
    NothingOutside(e.paths, g.paths);
  }

  ghost function Filters(opts: seq<Opt>): set<Opt> {
    set o | o in opts && o.key in FILTER_OPTS
  }

  /** In particular the filters are the grant's, as a set. */
  lemma SameFilters(g: Parts, e: Parts)
    requires WithinGrant(g, e)
    ensures Filters(e.opts) == Filters(g.opts)
  {
    hide Harmless, Adjustable;
    forall o: Opt | o.key in FILTER_OPTS ensures !Harmless(o) && !Adjustable(o) {
      FiltersStand(o);
    }
    FilterMembers(e.opts, g.opts);
    FilterMembers(g.opts, e.opts);
    hide Filters;
  }

  lemma FilterMembers(a: seq<Opt>, b: seq<Opt>)
    requires forall o :: o in a && o.key in FILTER_OPTS ==> o in b
    ensures Filters(a) <= Filters(b)
  {
  }

  /** A filter is neither free to add nor free to drop. */
  lemma FiltersStand(o: Opt)
    requires o.key in FILTER_OPTS
    ensures !Harmless(o) && !Adjustable(o)
  {
  }

  // ---- bounded wrappers ----

  /** One option of a wrapper, in one of its spellings. */
  ghost predicate ValuedForm(o: Valued, ts: seq<Token>) {
    exists v :: HasForm(v, o.form)
      && (ts == [o.long + "=" + v] || ts == [o.short, v] || ts == [o.long, v] || (v != "" && ts == [o.short + v]))
  }

  ghost predicate OptionForm(tool: Tool, ts: seq<Token>) {
    (|ts| == 1 && ts[0] in Flags(tool)) || exists o :: o in ValuedOptions(tool) && ValuedForm(o, ts)
  }

  ghost predicate Options(tool: Tool, ts: seq<Token>)
    decreases |ts|
  {
    ts == [] || exists k :: 0 < k <= |ts| && OptionForm(tool, ts[..k]) && Options(tool, ts[k..])
  }

  /** A wrapper with bounded arguments only. */
  ghost predicate Bounded(w: seq<Token>, allowedEnv: set<Token>) {
    w != [] &&
    match ToolOf(Basename(w[0]))
    case None => false
    case Some(Timeout) => |w| >= 2 && Options(Timeout, w[1..|w| - 1]) && HasForm(w[|w| - 1], Duration)
    case Some(Nice) => |w| == 1 || Options(Nice, w[1..]) || (|w| == 2 && HasForm(w[1], SmallInt))
    case Some(Taskset) =>
      var rest := if |w| > 1 && w[1] == "-a" then w[2..] else w[1..];
      Options(Taskset, rest) || (|rest| == 1 && HasForm(rest[0], Mask))
    case Some(Env) => forall i :: 1 <= i < |w| ==> '=' in w[i] && AllowedAssignment(w[i], allowedEnv)
    case Some(SystemdRun) => Options(SystemdRun, w[1..]) || (|w| >= 2 && w[|w| - 1] == "--" && Options(SystemdRun, w[1..|w| - 1]))
    case Some(tool) => Options(tool, w[1..])
  }

  ghost predicate WrapperChain(ts: seq<Token>, allowedEnv: set<Token>)
    decreases |ts|
  {
    ts == [] || exists k :: 0 < k <= |ts| && Bounded(ts[..k], allowedEnv) && WrapperChain(ts[k..], allowedEnv)
  }

  lemma {:induction false} FirstOptionStands(options: seq<Valued>, argv: seq<Token>, i: nat)
    requires i < |argv| && FirstOption(options, argv, i).Some?
    ensures FirstOption(options, argv, i).value in options && OptValue(argv, i, FirstOption(options, argv, i).value).next > i
    decreases |options|
  {
    if OptValue(argv, i, options[0]).next == i {
      FirstOptionStands(options[1..], argv, i);
    }
  }

  /** A value read where it fits is one of the option's spellings. */
  lemma ReadIsForm(argv: seq<Token>, i: nat, o: Valued)
    requires i < |argv| && OptValue(argv, i, o).next > i && Fits(OptValue(argv, i, o), o.form)
    ensures ValuedForm(o, argv[i..OptValue(argv, i, o).next])
  {
    hide HasForm;
    var read := OptValue(argv, i, o);
    var v := read.value.value;
    var t := argv[i];
    if StartsWith(t, o.long + "=") {
      assert t == o.long + "=" + v;
      assert argv[i..read.next] == [o.long + "=" + v];
    } else if t == o.short || t == o.long {
      assert argv[i..read.next] == [t, v];
    } else {
      assert t == o.short + v;
      assert argv[i..read.next] == [o.short + v];
    }
  }

  lemma OptionsCons(tool: Tool, argv: seq<Token>, i: nat, k: nat, j: nat)
    requires i < k <= j <= |argv| && OptionForm(tool, argv[i..k]) && Options(tool, argv[k..j])
    ensures Options(tool, argv[i..j])
  {
    hide OptionForm;
    var ts := argv[i..j];
    assert ts[..k - i] == argv[i..k] && ts[k - i..] == argv[k..j];
  }

  lemma FlagStands(tool: Tool, argv: seq<Token>, i: nat, end: nat)
    requires i + 1 <= end <= |argv| && argv[i] in Flags(tool) && Options(tool, argv[i + 1..end])
    ensures Options(tool, argv[i..end])
  {
    hide Options, Flags;
    assert argv[i..i + 1] == [argv[i]];
    assert OptionForm(tool, argv[i..i + 1]);
    OptionsCons(tool, argv, i, i + 1, end);
  }

  lemma ValueStands(tool: Tool, o: Valued, argv: seq<Token>, i: nat, end: nat)
    requires i < |argv| && o in ValuedOptions(tool)
    requires i < OptValue(argv, i, o).next <= end <= |argv| && Fits(OptValue(argv, i, o), o.form)
    requires Options(tool, argv[OptValue(argv, i, o).next..end])
    ensures Options(tool, argv[i..end])
  {
    hide Options, Flags, OptValue, ValuedOptions, Fits;
    var next := OptValue(argv, i, o).next;
    ReadIsForm(argv, i, o);
    hide ValuedForm;
    assert OptionForm(tool, argv[i..next]);
    OptionsCons(tool, argv, i, next, end);
  }

  /** Options scanned without a problem are bounded options. */
  lemma {:induction false} ScanSound(tool: Tool, argv: seq<Token>, i: nat)
    requires i <= |argv| && ScanOptions(tool, argv, i).problems == []
    ensures var s := ScanOptions(tool, argv, i);
            if s.ended then tool == SystemdRun && i < s.next && argv[s.next - 1] == "--" && Options(tool, argv[i..s.next - 1])
            else Options(tool, argv[i..s.next])
    decreases |argv| - i
  {
    hide HasForm, OptValue, StartsWith, FirstOption, Flags, ValuedOptions, Fits, OptionForm, Options;
    var s := ScanOptions(tool, argv, i);
    if i == |argv| || !StartsWith(argv[i], "-") {
      NoOptions(tool, argv, i);
    } else if tool == SystemdRun && argv[i] == "--" {
      NoOptions(tool, argv, i);
    } else if argv[i] in Flags(tool) {
      ScanSound(tool, argv, i + 1);
      FlagStands(tool, argv, i, if s.ended then s.next - 1 else s.next);
    } else {
      var o := FirstOption(ValuedOptions(tool), argv, i).value;
      FirstOptionStands(ValuedOptions(tool), argv, i);
      ScanSound(tool, argv, OptValue(argv, i, o).next);
      ValueStands(tool, o, argv, i, if s.ended then s.next - 1 else s.next);
    }
  }

  lemma NoOptions(tool: Tool, argv: seq<Token>, i: nat)
    requires i <= |argv|
    ensures Options(tool, argv[i..i])
  {
  }

  lemma {:induction false} AssignmentsSound(argv: seq<Token>, i: nat, allowedEnv: set<Token>)
    requires i <= |argv| && ScanAssignments(argv, i, allowedEnv).problems == []
    ensures var s := ScanAssignments(argv, i, allowedEnv);
            forall k :: i <= k < s.next ==> '=' in argv[k] && AllowedAssignment(argv[k], allowedEnv)
    decreases |argv| - i
  {
    hide AllowedAssignment;
    if !(i == |argv| || '=' !in argv[i] || StartsWith(argv[i], "-")) {
      AssignmentsSound(argv, i + 1, allowedEnv);
    }
  }

  /** A wrapper parsed without a problem is a bounded one. */
  lemma WrapperSound(tool: Tool, argv: seq<Token>, i: nat, allowedEnv: set<Token>)
    requires i < |argv| && ToolOf(Basename(argv[i])) == Some(tool) && WrapperAt(tool, argv, i, allowedEnv).problems == []
    ensures var next := WrapperAt(tool, argv, i, allowedEnv).next;
            i < next <= |argv| && Bounded(argv[i..next], allowedEnv)
  {
    hide HasForm, ToolOf, Options, AllowedAssignment, OptValue, Basename, ScanOptions, ScanAssignments, StartsWith, Fits;
    var next := WrapperAt(tool, argv, i, allowedEnv).next;
    var w, from := argv[i..next], i + 1;
    assert w[0] == argv[i];
    assert w[1..] == argv[from..next];
    if tool == Timeout || tool == Ionice || tool == Numactl || tool == SystemdRun {
      ScanSound(tool, argv, from);
      if next >= i + 2 {
        Inner(argv, i, next);
      }
    } else if tool == Env {
      AssignmentsSound(argv, from, allowedEnv);
    } else if tool == Nice {
      if next > from {
        NiceSound(argv, from, next);
      }
    } else {
      TasksetWrapper(argv, i, allowedEnv);
    }
  }

  lemma Inner(argv: seq<Token>, i: nat, next: nat)
    requires i + 2 <= next <= |argv|
    ensures argv[i..next][1..next - i - 1] == argv[i + 1..next - 1]
  {
    var a, b := argv[i..next][1..next - i - 1], argv[i + 1..next - 1];
    assert |a| == |b| && forall k :: 0 <= k < |a| ==> a[k] == b[k];
  }

  lemma TasksetWrapper(argv: seq<Token>, i: nat, allowedEnv: set<Token>)
    requires i < |argv| && ToolOf(Basename(argv[i])) == Some(Taskset) && WrapperAt(Taskset, argv, i, allowedEnv).problems == []
    ensures var next := WrapperAt(Taskset, argv, i, allowedEnv).next;
            i < next <= |argv| && Bounded(argv[i..next], allowedEnv)
  {
    hide HasForm, ToolOf, Options, OptValue, Basename, Fits;
    var next := WrapperAt(Taskset, argv, i, allowedEnv).next;
    var w, from := argv[i..next], i + 1;
    var at := if from < |argv| && argv[from] == "-a" then from + 1 else from;
    TasksetSound(argv, at, next);
    assert from < next ==> w[1] == argv[from];
    assert (if |w| > 1 && w[1] == "-a" then w[2..] else w[1..]) == argv[at..next];
  }

  lemma NiceSound(argv: seq<Token>, at: nat, next: nat)
    requires at < |argv| && at < next
    requires var read := OptValue(argv, at, ValuedOptions(Nice)[0]);
             if read.next != at then next == read.next && Fits(read, SmallInt) else next == at + 1 && HasForm(argv[at], SmallInt)
    ensures next <= |argv| && (Options(Nice, argv[at..next]) || (next == at + 1 && HasForm(argv[at], SmallInt)))
  {
    var o := ValuedOptions(Nice)[0];
    if OptValue(argv, at, o).next != at {
      OneOption(Nice, o, argv, at);
    }
  }

  lemma TasksetSound(argv: seq<Token>, at: nat, next: nat)
    requires at <= |argv| && at < next
    requires var read := if at < |argv| then OptValue(argv, at, ValuedOptions(Taskset)[0]) else Read(None, at);
             if read.next != at then next == read.next && Fits(read, CpuList)
             else next == at + 1 && at < |argv| && HasForm(argv[at], Mask)
    ensures next <= |argv| && (Options(Taskset, argv[at..next]) || (next == at + 1 && HasForm(argv[at], Mask)))
  {
    if at < |argv| {
      var o := ValuedOptions(Taskset)[0];
      if OptValue(argv, at, o).next != at {
        OneOption(Taskset, o, argv, at);
      }
    }
  }

  lemma OneOption(tool: Tool, o: Valued, argv: seq<Token>, at: nat)
    requires at < |argv| && o in ValuedOptions(tool) && OptValue(argv, at, o).next > at && Fits(OptValue(argv, at, o), o.form)
    ensures Options(tool, argv[at..OptValue(argv, at, o).next])
  {
    hide HasForm, OptValue;
    var next := OptValue(argv, at, o).next;
    ReadIsForm(argv, at, o);
    assert OptionForm(tool, argv[at..next]);
    assert argv[next..next] == [];
    OptionsCons(tool, argv, at, next, next);
  }

  // ---- accepted commands ----

  lemma ChainGrows(argv: seq<Token>, i: nat, next: nat, at: nat, allowedEnv: set<Token>)
    requires i < next <= at <= |argv| && Bounded(argv[i..next], allowedEnv) && WrapperChain(argv[next..at], allowedEnv)
    ensures WrapperChain(argv[i..at], allowedEnv)
  {
    hide Bounded;
    var ts := argv[i..at];
    assert ts[..next - i] == argv[i..next] && ts[next - i..] == argv[next..at];
  }

  /** What is stripped without a problem is a chain of bounded wrappers. */
  lemma {:induction false} StripSound(argv: seq<Token>, i: nat, granted: seq<Token>, allowedEnv: set<Token>, p: Places,
                                      found: seq<Problem>) returns (at: nat)
    requires granted != [] && Strip(argv, i, granted, allowedEnv, p, found).problems == []
    ensures found == [] && i <= at < |argv| && WrapperChain(argv[i..at], allowedEnv)
    ensures ProgramAt(argv, at, granted) && ProgramOk(argv[at], granted[0], p)
    ensures Strip(argv, i, granted, allowedEnv, p, found).effective == argv[at..]
    decreases |argv| - i
  {
    hide ProgramOk, ToolOf, Basename, WrapperAt, Bounded, ProgramAt;
    if ProgramAt(argv, i, granted) {
      at := i;
      assert argv[i..at] == [];
    } else {
      var tool := ToolOf(Basename(argv[i])).value;
      var s := WrapperAt(tool, argv, i, allowedEnv);
      at := StripSound(argv, s.next, granted, allowedEnv, p, found + s.problems);
      WrapperSound(tool, argv, i, allowedEnv);
      ChainGrows(argv, i, s.next, at, allowedEnv);
    }
  }

  /** A pytest command accepted without a problem splits into bounded wrappers
   *  setting allowed variables only, the granted program, and arguments within the
   *  grant; its filters are the grant's. */
  lemma CommandAccepted(granted: seq<Token>, cmd: Command, allowedEnv: set<Token>, p: Places) returns (at: nat)
    requires granted != [] && CommandProblems(true, granted, Some(cmd), allowedEnv, p) == {}
    ensures at < |cmd.argv| && WrapperChain(cmd.argv[..at], allowedEnv)
    ensures ProgramAt(cmd.argv, at, granted) && ProgramOk(cmd.argv[at], granted[0], p)
    ensures var k := ProgramLength(granted);
            && WithinGrant(Split(granted[k..]), Split(cmd.argv[at + k..]))
            && Filters(Split(cmd.argv[at + k..]).opts) == Filters(Split(granted[k..]).opts)
    ensures cmd.env <= allowedEnv
  {
    hide Strip, PytestProblems, ProgramOk, Split, WithinGrant, Filters, WrapperChain;
    var s := Strip(cmd.argv, 0, granted, allowedEnv, p, []);
    NoneFound(s.problems);
    at := StripSound(cmd.argv, 0, granted, allowedEnv, p, []);
    var k := ProgramLength(granted);
    StripShape(cmd.argv, 0, granted, allowedEnv, p, []);
    NoneFound(ArgumentProblems(true, granted, s.effective));
    assert s.effective[k..] == cmd.argv[at + k..] && cmd.argv[..at] == cmd.argv[0..at];
    PytestExact(granted[k..], cmd.argv[at + k..]);
    SameFilters(Split(granted[k..]), Split(cmd.argv[at + k..]));
    forall key | key in cmd.env ensures key in allowedEnv {
      assert key !in allowedEnv ==> EnvNotAllowed(key) in EnvProblems(cmd.env, allowedEnv);
    }
  }

  lemma NoneFound(problems: seq<Problem>)
    ensures ToSet(problems) == {} <==> problems == []
  {
    assert problems != [] ==> problems[0] in ToSet(problems);
  }

  lemma SelfWithin(g: Parts)
    ensures WithinGrant(g, g)
  {
    assert forall p :: p in g.paths ==> Under(p, p);
  }

  /** The exact granted command is accepted. */
  lemma GrantedAccepted(pytest: bool, granted: seq<Token>, env: set<Token>, allowedEnv: set<Token>, p: Places)
    requires granted != [] && env <= allowedEnv
    ensures CommandProblems(pytest, granted, Some(Command(granted, env)), allowedEnv, p) == {}
  {
    hide PytestProblems, ProgramOk, Split, WithinGrant;
    var k := ProgramLength(granted);
    assert ProgramOk(granted[0], granted[0], p) by {
      SameProgram(granted[0], p);
    }
    assert Strip(granted, 0, granted, allowedEnv, p, []) == Stripped([], granted[0..]) && granted[0..] == granted;
    PytestExact(granted[k..], granted[k..]);
    SelfWithin(Split(granted[k..]));
    assert EnvProblems(env, allowedEnv) == {};
  }

  lemma SameProgram(t: Token, p: Places)
    ensures ProgramOk(t, t, p)
  {
  }

  // ---- a canonical wrapper in front ----

  /** `timeout D`, `nice -n N`, `taskset -c CPUS` or `env K=V ...`. */
  ghost predicate Canonical(tool: Tool, w: seq<Token>, allowedEnv: set<Token>) {
    w != [] && ToolOf(Basename(w[0])) == Some(tool) &&
    match tool
    case Timeout => |w| == 2 && HasForm(w[1], Duration)
    case Nice => |w| == 3 && w[1] == "-n" && HasForm(w[2], SmallInt)
    case Taskset => |w| == 3 && w[1] == "-c" && HasForm(w[2], CpuList)
    case Env => forall i :: 1 <= i < |w| ==> '=' in w[i] && !StartsWith(w[i], "-") && AllowedAssignment(w[i], allowedEnv)
    case _ => false
  }

  lemma DurationStart(s: string)
    requires HasForm(s, Duration)
    ensures !StartsWith(s, "-")
  {
    if IsDecimal(s) {
      DecimalStart(s);
    } else {
      DecimalStart(s[..|s| - 1]);
    }
  }

  lemma DecimalStart(s: string)
    requires IsDecimal(s)
    ensures s != "" && IsDigit(s[0])
  {
    if !IsNumber(s) {
      var i :| 0 < i < |s| && s[i] == '.' && IsNumber(s[..i]) && IsNumber(s[i + 1..]);
      assert s[..i][0] == s[0];
    }
  }

  lemma {:induction false} AssignmentsRead(w: seq<Token>, rest: seq<Token>, i: nat, allowedEnv: set<Token>)
    requires 1 <= i <= |w| && Canonical(Env, w, allowedEnv)
    requires rest != [] && '=' !in rest[0]
    ensures ScanAssignments(w + rest, i, allowedEnv) == Scan(|w|, [], false)
    decreases |w| - i
  {
    hide AllowedAssignment, ToolOf, Basename;
    if i < |w| {
      AssignmentsRead(w, rest, i + 1, allowedEnv);
    }
  }

  /** `env` would read a first token with `=` as an assignment and one with a dash
   *  as an option of its own. */
  predicate StandsAfter(tool: Tool, rest: seq<Token>) {
    rest != [] && (tool == Env ==> '=' !in rest[0] && !StartsWith(rest[0], "-"))
  }

  lemma CanonicalRead(tool: Tool, w: seq<Token>, rest: seq<Token>, allowedEnv: set<Token>)
    requires Canonical(tool, w, allowedEnv) && StandsAfter(tool, rest)
    ensures var s := WrapperAt(tool, w + rest, 0, allowedEnv);
            s.next == |w| && s.problems == []
  {
    hide AllowedAssignment, ToolOf, Basename, HasForm;
    var argv := w + rest;
    match tool
    case Timeout =>
      DurationStart(w[1]);
      assert argv[1] == w[1];
    case Nice => assert argv[1] == "-n" && argv[2] == w[2];
    case Taskset => assert argv[1] == "-c" && argv[2] == w[2];
    case Env => AssignmentsRead(w, rest, 1, allowedEnv);
  }

  lemma OptValueShift(w: seq<Token>, argv: seq<Token>, i: nat, o: Valued)
    requires i < |argv|
    ensures OptValue(w + argv, |w| + i, o) == OptValue(argv, i, o).(next := |w| + OptValue(argv, i, o).next)
  {
    assert (w + argv)[|w| + i] == argv[i];
    assert i + 1 < |argv| ==> (w + argv)[|w| + i + 1] == argv[i + 1];
  }

  lemma {:induction false} FirstOptionShift(options: seq<Valued>, w: seq<Token>, argv: seq<Token>, i: nat)
    requires i < |argv|
    ensures FirstOption(options, w + argv, |w| + i) == FirstOption(options, argv, i)
    decreases |options|
  {
    hide OptValue;
    if options != [] {
      OptValueShift(w, argv, i, options[0]);
      FirstOptionShift(options[1..], w, argv, i);
    }
  }

  ghost function Shifted(s: Scan, by_: nat): Scan {
    s.(next := by_ + s.next)
  }

  lemma {:induction false} ScanShift(tool: Tool, w: seq<Token>, argv: seq<Token>, i: nat)
    requires i <= |argv|
    ensures ScanOptions(tool, w + argv, |w| + i) == Shifted(ScanOptions(tool, argv, i), |w|)
    decreases |argv| - i
  {
    hide OptValue, StartsWith, FirstOption, Flags, ValuedOptions, Fits;
    if i < |argv| {
      assert (w + argv)[|w| + i] == argv[i];
      if StartsWith(argv[i], "-") && !(tool == SystemdRun && argv[i] == "--") {
        if argv[i] in Flags(tool) {
          ScanShift(tool, w, argv, i + 1);
        } else {
          FirstOptionShift(ValuedOptions(tool), w, argv, i);
          var o := FirstOption(ValuedOptions(tool), argv, i);
          if o.Some? {
            OptValueShift(w, argv, i, o.value);
            if OptValue(argv, i, o.value).next != i {
              ScanShift(tool, w, argv, OptValue(argv, i, o.value).next);
              FitsShift(w, argv, i, o.value);
            }
          }
        }
      }
    }
  }

  lemma FitsShift(w: seq<Token>, argv: seq<Token>, i: nat, o: Valued)
    requires i < |argv|
    ensures Fits(OptValue(w + argv, |w| + i, o), o.form) <==> Fits(OptValue(argv, i, o), o.form)
  {
    OptValueShift(w, argv, i, o);
  }

  lemma {:induction false} AssignmentsShift(w: seq<Token>, argv: seq<Token>, i: nat, allowedEnv: set<Token>)
    requires i <= |argv|
    ensures ScanAssignments(w + argv, |w| + i, allowedEnv) == Shifted(ScanAssignments(argv, i, allowedEnv), |w|)
    decreases |argv| - i
  {
    hide AllowedAssignment, StartsWith;
    if i < |argv| {
      assert (w + argv)[|w| + i] == argv[i];
      AssignmentsShift(w, argv, i + 1, allowedEnv);
    }
  }

  lemma TimeoutShift(w: seq<Token>, argv: seq<Token>, i: nat, allowedEnv: set<Token>)
    requires i < |argv|
    ensures WrapperAt(Timeout, w + argv, |w| + i, allowedEnv) == Shifted(WrapperAt(Timeout, argv, i, allowedEnv), |w|)
  {
    hide HasForm, ScanOptions;
    ScanShift(Timeout, w, argv, i + 1);
  }

  lemma NiceShift(w: seq<Token>, argv: seq<Token>, i: nat, allowedEnv: set<Token>)
    requires i < |argv|
    ensures WrapperAt(Nice, w + argv, |w| + i, allowedEnv) == Shifted(WrapperAt(Nice, argv, i, allowedEnv), |w|)
  {
    hide HasForm, OptValue, StartsWith, Fits;
    if i + 1 < |argv| {
      assert (w + argv)[|w| + i + 1] == argv[i + 1];
      OptValueShift(w, argv, i + 1, ValuedOptions(Nice)[0]);
      FitsShift(w, argv, i + 1, ValuedOptions(Nice)[0]);
    }
  }

  lemma TasksetShift(w: seq<Token>, argv: seq<Token>, i: nat, allowedEnv: set<Token>)
    requires i < |argv|
    ensures WrapperAt(Taskset, w + argv, |w| + i, allowedEnv) == Shifted(WrapperAt(Taskset, argv, i, allowedEnv), |w|)
  {
    hide HasForm, OptValue, Fits;
    assert i + 1 < |argv| ==> (w + argv)[|w| + i + 1] == argv[i + 1];
    var at := if i + 1 < |argv| && argv[i + 1] == "-a" then i + 2 else i + 1;
    if at < |argv| {
      assert (w + argv)[|w| + at] == argv[at];
      OptValueShift(w, argv, at, ValuedOptions(Taskset)[0]);
      FitsShift(w, argv, at, ValuedOptions(Taskset)[0]);
    }
  }

  lemma EnvShift(w: seq<Token>, argv: seq<Token>, i: nat, allowedEnv: set<Token>)
    requires i < |argv|
    ensures WrapperAt(Env, w + argv, |w| + i, allowedEnv) == Shifted(WrapperAt(Env, argv, i, allowedEnv), |w|)
  {
    hide ScanAssignments, StartsWith;
    AssignmentsShift(w, argv, i + 1, allowedEnv);
  }

  lemma OptionsShift(tool: Tool, w: seq<Token>, argv: seq<Token>, i: nat, allowedEnv: set<Token>)
    requires i < |argv| && (tool == Ionice || tool == Numactl || tool == SystemdRun)
    ensures WrapperAt(tool, w + argv, |w| + i, allowedEnv) == Shifted(WrapperAt(tool, argv, i, allowedEnv), |w|)
  {
    hide ScanOptions;
    ScanShift(tool, w, argv, i + 1);
  }

  lemma WrapperShift(tool: Tool, w: seq<Token>, argv: seq<Token>, i: nat, allowedEnv: set<Token>)
    requires i < |argv|
    ensures WrapperAt(tool, w + argv, |w| + i, allowedEnv) == Shifted(WrapperAt(tool, argv, i, allowedEnv), |w|)
  {
    hide WrapperAt;
    match tool
    case Timeout => TimeoutShift(w, argv, i, allowedEnv);
    case Nice => NiceShift(w, argv, i, allowedEnv);
    case Taskset => TasksetShift(w, argv, i, allowedEnv);
    case Env => EnvShift(w, argv, i, allowedEnv);
    case _ => OptionsShift(tool, w, argv, i, allowedEnv);
  }

  lemma ProgramShift(w: seq<Token>, argv: seq<Token>, i: nat, granted: seq<Token>)
    requires i < |argv| && granted != []
    ensures ProgramAt(w + argv, |w| + i, granted) <==> ProgramAt(argv, i, granted)
  {
    var k := ProgramLength(granted);
    assert i + k <= |argv| ==> (w + argv)[|w| + i + 1..|w| + i + k] == argv[i + 1..i + k];
  }

  /** Stripping starts over behind a parsed wrapper. */
  lemma {:induction false} StripShift(w: seq<Token>, argv: seq<Token>, i: nat, granted: seq<Token>, allowedEnv: set<Token>,
                                      p: Places, found: seq<Problem>)
    requires granted != []
    ensures Strip(w + argv, |w| + i, granted, allowedEnv, p, found) == Strip(argv, i, granted, allowedEnv, p, found)
    decreases |argv| - i
  {
    hide ProgramOk, ToolOf, Basename, WrapperAt, ProgramAt;
    if i < |argv| {
      assert (w + argv)[|w| + i] == argv[i];
      ProgramShift(w, argv, i, granted);
      if ProgramAt(argv, i, granted) {
        assert (w + argv)[|w| + i..] == argv[i..];
      } else if ToolOf(Basename(argv[i])).Some? {
        var tool := ToolOf(Basename(argv[i])).value;
        WrapperShift(tool, w, argv, i, allowedEnv);
        var s := WrapperAt(tool, argv, i, allowedEnv);
        StripShift(w, argv, s.next, granted, allowedEnv, p, found + s.problems);
      }
    }
  }

  /** What `env` takes of a command behind it as further assignments is allowed,
   *  what follows is no option, and the rest is accepted too. */
  ghost predicate PassesEnv(pytest: bool, granted: seq<Token>, cmd: Command, allowedEnv: set<Token>, p: Places) {
    var s := ScanAssignments(cmd.argv, 0, allowedEnv);
    && s.problems == [] && s.next < |cmd.argv| && !StartsWith(cmd.argv[s.next], "-")
    && (s.next > 0 ==> CommandProblems(pytest, granted, Some(cmd.(argv := cmd.argv[s.next..])), allowedEnv, p) == {})
  }

  /** An accepted command behind a canonical wrapper, exactly. Behind a tool that is
   *  not the granted program it stays accepted, but for what `env` would take of it;
   *  behind the granted program itself it is read as that program's arguments. */
  lemma PrefixExact(pytest: bool, granted: seq<Token>, cmd: Command, tool: Tool, w: seq<Token>, allowedEnv: set<Token>, p: Places)
    requires granted != [] && CommandProblems(pytest, granted, Some(cmd), allowedEnv, p) == {}
    requires Canonical(tool, w, allowedEnv)
    ensures CommandProblems(pytest, granted, Some(cmd.(argv := w + cmd.argv)), allowedEnv, p) == {} <==>
              if ToolOf(Basename(granted[0])) == Some(tool) then
                pytest && ProgramOk(w[0], granted[0], p) && WithinGrant(Split(granted[1..]), Split(w[1..] + cmd.argv))
              else tool == Env ==> PassesEnv(pytest, granted, cmd, allowedEnv, p)
  {
    hide CommandProblems, Canonical, PassesEnv, WithinGrant, ProgramOk, Split, ToolOf, Basename;
    assert w != [] by {
      CanonicalTool(tool, w, allowedEnv);
    }
    if ToolOf(Basename(granted[0])) == Some(tool) {
      SameTool(pytest, granted, cmd, tool, w, allowedEnv, p);
    } else if tool == Env {
      BehindEnv(pytest, granted, cmd, w, allowedEnv, p);
    } else {
      AcceptedParts(pytest, granted, cmd, allowedEnv, p);
      BehindOther(pytest, granted, cmd, tool, w, allowedEnv, p);
    }
  }

  lemma CanonicalTool(tool: Tool, w: seq<Token>, allowedEnv: set<Token>)
    requires Canonical(tool, w, allowedEnv)
    ensures w != [] && ToolOf(Basename(w[0])) == Some(tool)
  {
  }

  /** Any accepted command stays accepted behind a canonical wrapper that is not the
   *  granted program, if `env` takes nothing of it. */
  lemma PrefixAccepted(pytest: bool, granted: seq<Token>, cmd: Command, tool: Tool, w: seq<Token>, allowedEnv: set<Token>, p: Places)
    requires granted != [] && CommandProblems(pytest, granted, Some(cmd), allowedEnv, p) == {}
    requires Canonical(tool, w, allowedEnv) && StandsAfter(tool, cmd.argv) && ToolOf(Basename(granted[0])) != Some(tool)
    ensures CommandProblems(pytest, granted, Some(cmd.(argv := w + cmd.argv)), allowedEnv, p) == {}
  {
    hide CommandProblems, Canonical, ToolOf, Basename, Split, ProgramOk, WithinGrant;
    PrefixExact(pytest, granted, cmd, tool, w, allowedEnv, p);
    assert tool == Env ==> ScanAssignments(cmd.argv, 0, allowedEnv) == Scan(0, [], false);
  }

  /** The problems of a command, through what is left of it. */
  lemma SameStripped(pytest: bool, granted: seq<Token>, a: Command, b: Command, allowedEnv: set<Token>, p: Places)
    requires granted != [] && a.argv != [] && b.argv != [] && a.env == b.env
    requires Strip(a.argv, 0, granted, allowedEnv, p, []) == Strip(b.argv, 0, granted, allowedEnv, p, [])
    ensures CommandProblems(pytest, granted, Some(a), allowedEnv, p) == CommandProblems(pytest, granted, Some(b), allowedEnv, p)
  {
    hide Strip, ArgumentProblems;
    StripShape(a.argv, 0, granted, allowedEnv, p, []);
    StripShape(b.argv, 0, granted, allowedEnv, p, []);
  }

  lemma AcceptedParts(pytest: bool, granted: seq<Token>, cmd: Command, allowedEnv: set<Token>, p: Places)
    requires granted != []
    ensures CommandProblems(pytest, granted, Some(cmd), allowedEnv, p) == {} <==>
              var s := Strip(cmd.argv, 0, granted, allowedEnv, p, []);
              && cmd.argv != [] && s.problems == [] && cmd.env <= allowedEnv
              && (s.effective != [] ==> |s.effective| >= ProgramLength(granted) && ArgumentProblems(pytest, granted, s.effective) == [])
  {
    hide Strip, ArgumentProblems, ProgramLength;
    StripShape(cmd.argv, 0, granted, allowedEnv, p, []);
    var s := Strip(cmd.argv, 0, granted, allowedEnv, p, []);
    NoneOf(s.problems);
    if s.effective != [] {
      NoneOf(ArgumentProblems(pytest, granted, s.effective));
    }
    NoEnvProblems(cmd.env, allowedEnv);
  }

  lemma NoneOf(s: seq<Problem>)
    ensures ToSet(s) == {} <==> s == []
  {
    if s != [] {
      assert s[0] in ToSet(s);
    }
  }

  lemma NoEnvProblems(env: set<Token>, allowedEnv: set<Token>)
    ensures EnvProblems(env, allowedEnv) == {} <==> env <= allowedEnv
  {
    if k :| k in env && k !in allowedEnv {
      assert EnvNotAllowed(k) in EnvProblems(env, allowedEnv);
    }
  }

  lemma BehindOther(pytest: bool, granted: seq<Token>, cmd: Command, tool: Tool, w: seq<Token>, allowedEnv: set<Token>, p: Places)
    requires granted != [] && cmd.argv != [] && tool != Env
    requires Canonical(tool, w, allowedEnv) && ToolOf(Basename(granted[0])) != Some(tool)
    ensures CommandProblems(pytest, granted, Some(cmd.(argv := w + cmd.argv)), allowedEnv, p)
            == CommandProblems(pytest, granted, Some(cmd), allowedEnv, p)
  {
    hide CommandProblems, ToolOf, Basename, WrapperAt, Strip;
    var argv := w + cmd.argv;
    assert argv[0] == w[0];
    CanonicalRead(tool, w, cmd.argv, allowedEnv);
    StripFirst(argv, tool, granted, allowedEnv, p);
    StripShift(w, cmd.argv, 0, granted, allowedEnv, p, []);
    SameStripped(pytest, granted, cmd.(argv := argv), cmd, allowedEnv, p);
  }

  // ---- `env` in front ----

  lemma {:induction false} AssignmentsThrough(w: seq<Token>, rest: seq<Token>, i: nat, allowedEnv: set<Token>)
    requires 1 <= i <= |w| && Canonical(Env, w, allowedEnv)
    ensures ScanAssignments(w + rest, i, allowedEnv) == Shifted(ScanAssignments(rest, 0, allowedEnv), |w|)
    decreases |w| - i
  {
    hide AllowedAssignment, ToolOf, Basename;
    if i < |w| {
      AssignmentsThrough(w, rest, i + 1, allowedEnv);
    } else {
      AssignmentsShift(w, rest, 0, allowedEnv);
    }
  }

  /** A problem found is never forgotten. */
  lemma FoundStays(argv: seq<Token>, i: nat, granted: seq<Token>, allowedEnv: set<Token>, p: Places, found: seq<Problem>)
    requires granted != [] && found != []
    ensures Strip(argv, i, granted, allowedEnv, p, found).problems != []
  {
    hide Strip;
    if Strip(argv, i, granted, allowedEnv, p, found).problems == [] {
      var at := StripSound(argv, i, granted, allowedEnv, p, found);
      assert false;
    }
  }

  lemma BehindEnv(pytest: bool, granted: seq<Token>, cmd: Command, w: seq<Token>, allowedEnv: set<Token>, p: Places)
    requires granted != [] && CommandProblems(pytest, granted, Some(cmd), allowedEnv, p) == {}
    requires Canonical(Env, w, allowedEnv) && ToolOf(Basename(granted[0])) != Some(Env)
    ensures CommandProblems(pytest, granted, Some(cmd.(argv := w + cmd.argv)), allowedEnv, p) == {}
            <==> PassesEnv(pytest, granted, cmd, allowedEnv, p)
  {
    hide CommandProblems, ScanAssignments, Strip;
    var argv, s := w + cmd.argv, ScanAssignments(cmd.argv, 0, allowedEnv);
    AcceptedParts(pytest, granted, cmd.(argv := argv), allowedEnv, p);
    AcceptedParts(pytest, granted, cmd, allowedEnv, p);
    EnvStripped(granted, cmd.argv, w, allowedEnv, p);
    if s.problems == [] && s.next < |cmd.argv| && !StartsWith(cmd.argv[s.next], "-") {
      var rest := cmd.(argv := cmd.argv[s.next..]);
      SameStripped(pytest, granted, cmd.(argv := argv), rest, allowedEnv, p);
      assert s.next == 0 ==> rest == cmd;
    }
  }

  /** `env` in front reads its own assignments and those at the start of the rest. */
  lemma EnvRead(granted: seq<Token>, argv: seq<Token>, w: seq<Token>, allowedEnv: set<Token>, p: Places) returns (read: Scan)
    requires granted != [] && Canonical(Env, w, allowedEnv) && ToolOf(Basename(granted[0])) != Some(Env)
    ensures Strip(w + argv, 0, granted, allowedEnv, p, []) == Strip(w + argv, read.next, granted, allowedEnv, p, read.problems)
    ensures var s := ScanAssignments(argv, 0, allowedEnv);
            if s.next < |argv| && StartsWith(argv[s.next], "-") then read.problems != []
            else read.next == |w| + s.next && read.problems == s.problems
  {
    hide ToolOf, Basename, ProgramOk, AllowedAssignment, ScanAssignments, StartsWith;
    var s, all := ScanAssignments(argv, 0, allowedEnv), w + argv;
    assert all[0] == w[0];
    AssignmentsThrough(w, argv, 1, allowedEnv);
    read := WrapperAt(Env, all, 0, allowedEnv);
    assert s.next < |argv| ==> all[|w| + s.next] == argv[s.next];
    var none: seq<Problem> := [];
    assert none + read.problems == read.problems;
    hide WrapperAt;
    assert !ProgramAt(all, 0, granted);
  }

  /** Stripping goes on behind the assignments, if it finds nothing wrong. */
  lemma EnvStripped(granted: seq<Token>, argv: seq<Token>, w: seq<Token>, allowedEnv: set<Token>, p: Places)
    requires granted != [] && Canonical(Env, w, allowedEnv) && ToolOf(Basename(granted[0])) != Some(Env)
    ensures var s, all := ScanAssignments(argv, 0, allowedEnv), Strip(w + argv, 0, granted, allowedEnv, p, []);
            if s.problems == [] && s.next < |argv| && !StartsWith(argv[s.next], "-")
            then all == Strip(argv[s.next..], 0, granted, allowedEnv, p, []) else all.problems != []
  {
    hide ScanAssignments, ToolOf, Basename, Strip, StartsWith, Canonical;
    var s, all := ScanAssignments(argv, 0, allowedEnv), w + argv;
    var read := EnvRead(granted, argv, w, allowedEnv, p);
    if read.problems != [] {
      FoundStays(all, read.next, granted, allowedEnv, p, read.problems);
    } else if s.next == |argv| {
      AtTheEnd(all, granted, allowedEnv, p);
    } else {
      StripShift(w, argv, s.next, granted, allowedEnv, p, []);
      assert argv[..s.next] + argv[s.next..] == argv;
      StripShift(argv[..s.next], argv[s.next..], 0, granted, allowedEnv, p, []);
    }
  }

  lemma AtTheEnd(argv: seq<Token>, granted: seq<Token>, allowedEnv: set<Token>, p: Places)
    requires granted != []
    ensures Strip(argv, |argv|, granted, allowedEnv, p, []).problems == [NoProgram]
  {
  }

  // ---- the granted program in front of itself ----

  lemma ToolNames(a: Token, b: Token)
    requires ToolOf(a).Some?
    ensures ToolOf(a) == ToolOf(b) ==> a == b
    ensures !StartsWith(a, "python") && a != "" && a[0] != '-'
  {
    OtherStart(a, "python");
  }

  lemma OtherStart(s: Token, prefix: Token)
    requires s != "" && prefix != ""
    ensures s[0] != prefix[0] ==> !StartsWith(s, prefix)
  {
    if StartsWith(s, prefix) {
      assert s[0] == s[..|prefix|][0];
    }
  }

  lemma SameTool(pytest: bool, granted: seq<Token>, cmd: Command, tool: Tool, w: seq<Token>, allowedEnv: set<Token>, p: Places)
    requires granted != [] && CommandProblems(pytest, granted, Some(cmd), allowedEnv, p) == {}
    requires Canonical(tool, w, allowedEnv) && ToolOf(Basename(granted[0])) == Some(tool)
    ensures CommandProblems(pytest, granted, Some(cmd.(argv := w + cmd.argv)), allowedEnv, p) == {} <==>
              pytest && ProgramOk(w[0], granted[0], p) && WithinGrant(Split(granted[1..]), Split(w[1..] + cmd.argv))
  {
    hide CommandProblems, Canonical, WithinGrant, ProgramOk, Split, ToolOf, Basename, Strip, ArgumentProblems;
    CanonicalTool(tool, w, allowedEnv);
    ToolNames(Basename(granted[0]), Basename(w[0]));
    var argv := w + cmd.argv;
    assert argv[0] == w[0] && argv[0..] == argv && argv[1..] == w[1..] + cmd.argv;
    AcceptedParts(pytest, granted, cmd.(argv := argv), allowedEnv, p);
    AcceptedParts(pytest, granted, cmd, allowedEnv, p);
    StripsNothing(argv, granted, allowedEnv, p);
    if pytest {
      ArgumentsWithin(granted, argv);
    } else if ArgumentProblems(false, granted, argv) == [] {
      LongerArguments(granted, cmd, w, allowedEnv, p);
    }
  }

  lemma StripsNothing(argv: seq<Token>, granted: seq<Token>, allowedEnv: set<Token>, p: Places)
    requires granted != [] && argv != [] && ProgramLength(granted) == 1 && Basename(argv[0]) == Basename(granted[0])
    ensures Strip(argv, 0, granted, allowedEnv, p, [])
            == if ProgramOk(argv[0], granted[0], p) then Stripped([], argv) else Stripped([OtherProgram(argv[0])], [])
  {
    hide ProgramOk, Basename;
    assert ProgramAt(argv, 0, granted);
    assert argv[0..] == argv;
  }

  lemma ArgumentsWithin(granted: seq<Token>, argv: seq<Token>)
    requires granted != [] && argv != [] && ProgramLength(granted) == 1
    ensures ArgumentProblems(true, granted, argv) == [] <==> WithinGrant(Split(granted[1..]), Split(argv[1..]))
  {
    hide PytestProblems, WithinGrant, Split;
    PytestExact(granted[1..], argv[1..]);
  }

  lemma {:induction false} WithoutOutputTwo(a: seq<Token>, b: seq<Token>)
    ensures WithoutOutput(a + b) == WithoutOutput(a) + WithoutOutput(b)
  {
    if a == [] {
      assert a + b == b;
    } else {
      WithoutOutputTwo(a[1..], b);
      assert (a + b)[1..] == a[1..] + b;
    }
  }

  lemma {:induction false} BasenamePlain(t: Token)
    requires '/' !in t
    ensures Basename(t) == t
  {
    if t != "" {
      BasenamePlain(t[..|t| - 1]);
      assert t[|t| - 1] in t;
    }
  }

  lemma OutputPlain(t: Token)
    requires t in OUTPUT_OPTS
    ensures t != "" && t[0] == '-' && '/' !in t
  {
    assert '/' !in "--tb" && '/' !in "--durations" && '/' !in "--junitxml" && '/' !in "--junit-xml";
    assert '/' !in "--color" && '/' !in "--no-header" && '/' !in "--quiet" && '/' !in "--verbose";
    assert '/' !in "--basetemp" && '/' !in "--showlocals" && '/' !in "--log-level";
  }

  lemma ToolIsNoOption(t: Token)
    requires ToolOf(Basename(t)).Some?
    ensures t !in OUTPUT_OPTS
  {
    hide ToolOf, Basename;
    if t in OUTPUT_OPTS {
      OutputPlain(t);
      BasenamePlain(t);
      ToolNames(t, t);
      assert false;
    }
  }

  /** The accepted arguments again, behind the program's own name: too many. */
  lemma LongerArguments(granted: seq<Token>, cmd: Command, w: seq<Token>, allowedEnv: set<Token>, p: Places)
    requires granted != [] && CommandProblems(false, granted, Some(cmd), allowedEnv, p) == {}
    requires w != [] && ToolOf(Basename(granted[0])).Some? && ProgramLength(granted) == 1
    ensures ArgumentProblems(false, granted, w + cmd.argv) != []
  {
    hide CommandProblems, ToolOf, Basename, Strip, ProgramOk, WithoutOutput;
    AcceptedParts(false, granted, cmd, allowedEnv, p);
    var at := StripSound(cmd.argv, 0, granted, allowedEnv, p, []);
    var argv := cmd.argv;
    ToolIsNoOption(argv[at]);
    assert argv[at..][1..] == argv[at + 1..];
    LongerRest(w, argv, at);
  }

  /** The program itself is an argument more. */
  lemma LongerRest(w: seq<Token>, argv: seq<Token>, at: nat)
    requires w != [] && at < |argv| && argv[at] !in OUTPUT_OPTS
    ensures |WithoutOutput((w + argv)[1..])| > |WithoutOutput(argv[at + 1..])|
  {
    hide WithoutOutput;
    var front, back := w[1..] + argv[..at], argv[at + 1..];
    assert (w + argv)[1..] == front + ([argv[at]] + back);
    WithoutOutputTwo(front, [argv[at]] + back);
    OutputKept(argv[at], back);
  }

  lemma OutputKept(t: Token, rest: seq<Token>)
    requires t !in OUTPUT_OPTS
    ensures WithoutOutput([t] + rest) == [t] + WithoutOutput(rest)
  {
    assert ([t] + rest)[1..] == rest;
  }

  // ---- such a program ----

  /** `timeout 5 x` is granted and accepted; behind another `timeout` it is not. */
  lemma PrefixRefusedExample(p: Places)
    ensures var granted, cmd := ["timeout", "5", "x"], Command(["timeout", "5", "x"], {});
            && Canonical(Timeout, ["timeout", "9"], {})
            && CommandProblems(false, granted, Some(cmd), {}, p) == {}
            && CommandProblems(false, granted, Some(cmd.(argv := ["timeout", "9"] + cmd.argv)), {}, p) != {}
  {
    var granted, cmd, w := ["timeout", "5", "x"], Command(["timeout", "5", "x"], {}), ["timeout", "9"];
    GrantedAccepted(false, granted, {}, {}, p);
    assert IsNumber("9");
    BasenamePlain("timeout");
    hide CommandProblems, Basename;
    PrefixExact(false, granted, cmd, Timeout, w, {}, p);
  }

  lemma StripFirst(argv: seq<Token>, tool: Tool, granted: seq<Token>, allowedEnv: set<Token>, p: Places)
    requires granted != [] && argv != [] && ToolOf(Basename(argv[0])) == Some(tool) && ToolOf(Basename(granted[0])) != Some(tool)
    requires WrapperAt(tool, argv, 0, allowedEnv).problems == []
    ensures Strip(argv, 0, granted, allowedEnv, p, [])
            == Strip(argv, WrapperAt(tool, argv, 0, allowedEnv).next, granted, allowedEnv, p, [])
  {
    hide ProgramOk, ToolOf, Basename, WrapperAt;
    var none: seq<Problem> := [];
    assert !ProgramAt(argv, 0, granted);
    assert none + WrapperAt(tool, argv, 0, allowedEnv).problems == none;
  }
}
