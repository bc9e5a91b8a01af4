/** The feed as a protocol: one client's snapshot and page statements, with
 * writers and retention in between (dispatch/db.py).
 *
 * `changed` is a history variable: the number of the last write of each task,
 * kept when its log row is pruned.
 */
module FeedProtocol {
  import opened Prelude
  import opened TaskFeed

  /** Where the client is between the statements of a call. */
  datatype Phase =
    | Unsynced
    | SnapshotMeta(pruned: nat)
    | SnapshotCursor(from: nat)
    | Idle
    | PageOpen
    | PageRead(log: seq<LogRow>)
    | Delivering(page: seq<LogRow>, changes: seq<Change>)

  datatype World = World(feed: Feed, changed: map<TaskId, nat>, cache: map<TaskId, Task>, cursor: nat, phase: Phase)

  datatype Step =
    | Write(task: TaskId, row: Option<Task>)
    | BurnNumber            // an aborted writer: the sequence moves, nothing is logged
    | Prune(dropped: set<nat>)
    | ReadMeta | ReadCursor | ReadTasks
    | OpenPage | ReadLog(limit: nat) | ReadRows | Deliver

  /** One atomic step; a step that does not apply in this phase does nothing. */
  function Next(w: World, s: Step, f: Filter): World {
    match s
    case Write(t, row) =>
      w.(feed := Written(w.feed, t, row), changed := w.changed[t := w.feed.lastSeq + 1])
    case BurnNumber => w.(feed := w.feed.(lastSeq := w.feed.lastSeq + 1))
    case Prune(dropped) => w.(feed := Pruned(w.feed, dropped))
    case ReadMeta =>
      if w.phase.Idle? || w.phase.Unsynced? then w.(phase := SnapshotMeta(w.feed.prunedThrough)) else w
    case ReadCursor =>
      if w.phase.SnapshotMeta? then
        var top := MaxSeq(w.feed.log);
        w.(phase := SnapshotCursor(if top < w.phase.pruned then w.phase.pruned else top))
      else w
    case ReadTasks =>
      if w.phase.SnapshotCursor? then
        w.(cache := Snapshot(w.feed.rows, f), cursor := w.phase.from, phase := Idle)
      else w
    case OpenPage =>
      if !w.phase.Idle? then w
      else if w.cursor < w.feed.prunedThrough || w.cursor > w.feed.lastSeq then w.(phase := Unsynced)
      else w.(phase := PageOpen)
    case ReadLog(limit) =>
      if w.phase.PageOpen? then
        var page := Page(w.feed.log, w.cursor, limit);
        w.(phase := if page == [] then Idle else PageRead(page))
      else w
    case ReadRows =>
      if w.phase.PageRead? then
        w.(phase := Delivering(w.phase.log, Changes(w.phase.log, w.feed.rows, f, |w.phase.log|)))
      else w
    case Deliver =>
      if w.phase.Delivering? && w.phase.page != [] then
        w.(cache := AppliedAll(w.cache, w.phase.changes),
           cursor := w.phase.page[|w.phase.page| - 1].seqno, phase := Idle)
      else w
  }

  function Run(w: World, steps: seq<Step>, f: Filter): World
    decreases |steps|
  {
    if steps == [] then w else Run(Next(w, steps[0], f), steps[1..], f)
  }

  /** The one interleaving the server leaves open: rows beyond the client's
   *  cursor pruned between a page's retention check and its log read. */
  ghost predicate PrunedUnderPage(w: World, s: Step) {
    s.Prune? && w.phase.PageOpen? && exists r :: r in w.feed.log && r.seqno in s.dropped && r.seqno > w.cursor
  }

  ghost predicate Orderly(w: World, steps: seq<Step>, f: Filter)
    decreases |steps|
  {
    steps == [] || (!PrunedUnderPage(w, steps[0]) && Orderly(Next(w, steps[0], f), steps[1..], f))
  }

  function Start(rows: map<TaskId, Task>): World {
    World(Feed(rows, [], 0, 0), map[], map[], 0, Unsynced)
  }

  function LastWrite(w: World, t: TaskId): nat {
    if t in w.changed then w.changed[t] else 0
  }

  ghost predicate FeedInv(w: World) {
    && Ascending(w.feed.log)
    && (forall r :: r in w.feed.log ==> r.seqno <= w.feed.lastSeq)
    && w.feed.prunedThrough <= w.feed.lastSeq
    && (forall t :: t in w.changed ==> w.changed[t] <= w.feed.lastSeq)
    && (forall t :: t in w.changed && w.changed[t] > w.feed.prunedThrough ==> LogRow(w.changed[t], t) in w.feed.log)
  }

  ghost predicate Named(log: seq<LogRow>, t: TaskId) {
    exists r :: r in log && r.task == t
  }

  /** The cache holds the current filtered row of `t`, or rightly lacks it. */
  ghost predicate Fresh(w: World, t: TaskId, f: Filter) {
    Lookup(w.cache, t) == Entry(w.feed.rows, t, f)
  }

  /** Every task without a write beyond `upTo`, save those in the page, is fresh. */
  ghost predicate FreshUpTo(w: World, upTo: nat, page: seq<LogRow>, f: Filter) {
    forall t :: LastWrite(w, t) <= upTo && !Named(page, t) ==> Fresh(w, t, f)
  }

  ghost predicate ClientInv(w: World, f: Filter) {
    match w.phase
    case Unsynced => true
    case SnapshotMeta(pruned) => pruned <= w.feed.lastSeq
    case SnapshotCursor(from) => from <= w.feed.lastSeq
    case Idle => w.cursor <= w.feed.lastSeq && FreshUpTo(w, w.cursor, [], f)
    case PageOpen =>
      w.feed.prunedThrough <= w.cursor <= w.feed.lastSeq && FreshUpTo(w, w.cursor, [], f)
    case PageRead(log) =>
      log != [] && log[|log| - 1].seqno <= w.feed.lastSeq && FreshUpTo(w, log[|log| - 1].seqno, log, f)
    case Delivering(log, changes) =>
      && log != [] && log[|log| - 1].seqno <= w.feed.lastSeq && FreshUpTo(w, log[|log| - 1].seqno, log, f)
      && (forall t :: LastWrite(w, t) <= log[|log| - 1].seqno && Named(log, t)
            ==> Lookup(AppliedAll(w.cache, changes), t) == Entry(w.feed.rows, t, f))
      && (forall t :: !Named(log, t) ==> Lookup(AppliedAll(w.cache, changes), t) == Lookup(w.cache, t))
  }

  ghost predicate Inv(w: World, f: Filter) {
    FeedInv(w) && ClientInv(w, f)
  }

  lemma WriteKeeps(w: World, s: Step, f: Filter)
    requires Inv(w, f) && s.Write?
    ensures Inv(Next(w, s, f), f)
  {
    WriteKeepsFeed(w, s, f);
    WriteKeepsClient(w, s, f);
  }

  lemma WriteKeepsFeed(w: World, s: Step, f: Filter)
    requires FeedInv(w) && s.Write?
    ensures FeedInv(Next(w, s, f))
  {
    assert forall r :: r in Next(w, s, f).feed.log <==> r in w.feed.log || r == LogRow(w.feed.lastSeq + 1, s.task);
    forall i | 0 <= i < |w.feed.log| ensures w.feed.log[i].seqno <= w.feed.lastSeq {
      assert w.feed.log[i] in w.feed.log;
    }
  }

  lemma WriteKeepsClient(w: World, s: Step, f: Filter)
    requires ClientInv(w, f) && s.Write?
    ensures ClientInv(Next(w, s, f), f)
  {
    var after := Next(w, s, f);
    assert forall t :: t != s.task ==> LastWrite(after, t) == LastWrite(w, t) && (Fresh(after, t, f) <==> Fresh(w, t, f));
  }

  /** No step loses a log row that retention has not recorded. */
  lemma FeedStepKeeps(w: World, s: Step, f: Filter)
    requires FeedInv(w)
    ensures FeedInv(Next(w, s, f)) && w.feed.prunedThrough <= Next(w, s, f).feed.prunedThrough
  {
    if s.Write? {
      WriteKeepsFeed(w, s, f);
    } else if s.Prune? {
      PrunedLog(w.feed.log, s.dropped);
      MaxSeqBounds(Dropping(w.feed.log, s.dropped));
    }
  }

  lemma PruneKeeps(w: World, s: Step, f: Filter)
    requires Inv(w, f) && s.Prune? && !PrunedUnderPage(w, s)
    ensures Inv(Next(w, s, f), f)
  {
    PrunedLog(w.feed.log, s.dropped);
    var gone := Dropping(w.feed.log, s.dropped);
    MaxSeqBounds(gone);
  }

  lemma SameFeed(w: World, w': World)
    requires FeedInv(w) && w'.feed == w.feed && w'.changed == w.changed
    ensures FeedInv(w')
  {
  }

  /** Freshness is about rows, writes and cache only. */
  lemma SameFresh(w: World, w': World, upTo: nat, page: seq<LogRow>, f: Filter)
    requires w'.feed.rows == w.feed.rows && w'.cache == w.cache && w'.changed == w.changed
    ensures FreshUpTo(w', upTo, page, f) <==> FreshUpTo(w, upTo, page, f)
  {
    forall t ensures Fresh(w', t, f) <==> Fresh(w, t, f) {
    }
    hide Fresh;
  }

  /** A page takes care of everything written up to its last row. */
  lemma PageCovers(w: World, limit: nat, f: Filter)
    requires FeedInv(w) && w.feed.prunedThrough <= w.cursor && FreshUpTo(w, w.cursor, [], f)
    requires Page(w.feed.log, w.cursor, limit) != []
    ensures var page := Page(w.feed.log, w.cursor, limit);
            page[|page| - 1].seqno <= w.feed.lastSeq && FreshUpTo(w, page[|page| - 1].seqno, page, f)
  {
    PageOfLog(w.feed.log, w.cursor, limit);
    var page := Page(w.feed.log, w.cursor, limit);
    hide Page, Fresh;
    var top := page[|page| - 1].seqno;
    assert page[|page| - 1] in page;
    forall t | t in w.changed && w.cursor < w.changed[t] <= top ensures Named(page, t) {
      assert LogRow(w.changed[t], t) in page;
    }
    forall t | LastWrite(w, t) <= top && !Named(page, t) ensures Fresh(w, t, f) {
      assert LastWrite(w, t) <= w.cursor && !Named([], t);
    }
  }

  lemma ReadLogKeeps(w: World, s: Step, f: Filter)
    requires Inv(w, f) && s.ReadLog?
    ensures Inv(Next(w, s, f), f)
  {
    SameFeed(w, Next(w, s, f));
    var page := Page(w.feed.log, w.cursor, s.limit);
    if w.phase.PageOpen? {
      if page != [] {
        PageCovers(w, s.limit, f);
        SameFresh(w, Next(w, s, f), page[|page| - 1].seqno, page, f);
      } else {
        SameFresh(w, Next(w, s, f), w.cursor, [], f);
      }
      hide FeedInv, FreshUpTo, Page;
    }
  }

  lemma ReadRowsKeeps(w: World, s: Step, f: Filter)
    requires Inv(w, f) && s.ReadRows?
    ensures Inv(Next(w, s, f), f)
  {
    if w.phase.PageRead? {
      forall t ensures Lookup(AppliedAll(w.cache, Next(w, s, f).phase.changes), t)
                       == if Named(w.phase.log, t) then Entry(w.feed.rows, t, f) else Lookup(w.cache, t)
      {
        AppliedPage(w.cache, w.phase.log, w.feed.rows, f, t);
      }
    }
  }

  lemma StepKeeps(w: World, s: Step, f: Filter)
    requires Inv(w, f) && f.project != Some("") && !PrunedUnderPage(w, s)
    ensures Inv(Next(w, s, f), f)
  {
    hide Inv, Next, PrunedUnderPage;
    match s
    case Write(_, _) => WriteKeeps(w, s, f);
    case Prune(_) => PruneKeeps(w, s, f);
    case ReadLog(_) => ReadLogKeeps(w, s, f);
    case ReadRows => ReadRowsKeeps(w, s, f);
    case ReadTasks => SnapshotKeeps(w, s, f);
    case Deliver => DeliverKeeps(w, s, f);
    case BurnNumber => BurnKeeps(w, s, f);
    case _ => PhaseKeeps(w, s, f);
  }

  /** Steps that touch neither rows nor cache. */
  lemma PhaseKeeps(w: World, s: Step, f: Filter)
    requires Inv(w, f) && (s.ReadMeta? || s.ReadCursor? || s.OpenPage?)
    ensures Inv(Next(w, s, f), f)
  {
    var w' := Next(w, s, f);
    MaxSeqBounds(w.feed.log);
    SameFeed(w, w');
    SameFresh(w, w', w.cursor, [], f);
    hide MaxSeq, FreshUpTo, AppliedAll;
  }

  /** A number nobody uses. */
  lemma BurnKeeps(w: World, s: Step, f: Filter)
    requires Inv(w, f) && s.BurnNumber?
    ensures Inv(Next(w, s, f), f)
  {
    var w' := Next(w, s, f);
    assert FeedInv(w') && w'.phase == w.phase;
    SameFresh(w, w', w.cursor, [], f);
    if w.phase.PageRead? {
      SameFresh(w, w', w.phase.log[|w.phase.log| - 1].seqno, w.phase.log, f);
    } else if w.phase.Delivering? {
      SameFresh(w, w', w.phase.page[|w.phase.page| - 1].seqno, w.phase.page, f);
    }
    hide FreshUpTo, AppliedAll, FeedInv;
  }

  lemma SnapshotKeeps(w: World, s: Step, f: Filter)
    requires Inv(w, f) && f.project != Some("") && s.ReadTasks?
    ensures Inv(Next(w, s, f), f)
  {
    hide AppliedAll;
    SameFeed(w, Next(w, s, f));
    hide FeedInv;
  }

  lemma DeliverKeeps(w: World, s: Step, f: Filter)
    requires Inv(w, f) && s.Deliver?
    ensures Inv(Next(w, s, f), f)
  {
    hide AppliedAll;
    SameFeed(w, Next(w, s, f));
    hide FeedInv;
  }

  lemma {:induction false} RunKeeps(w: World, steps: seq<Step>, f: Filter)
    requires Inv(w, f) && f.project != Some("") && Orderly(w, steps, f)
    ensures Inv(Run(w, steps, f), f)
    decreases |steps|
  {
    if steps != [] {
      StepKeeps(w, steps[0], f);
      RunKeeps(Next(w, steps[0], f), steps[1..], f);
    }
  }

  ghost predicate LoggedBeyond(feed: Feed, t: TaskId, cursor: nat) {
    exists r :: r in feed.log && r.task == t && r.seqno > cursor
  }

  lemma IdleFresh(w: World, f: Filter)
    requires Inv(w, f) && w.phase.Idle? && w.feed.prunedThrough <= w.cursor
    ensures forall t :: !LoggedBeyond(w.feed, t, w.cursor) ==> Fresh(w, t, f)
  {
    forall t | !LoggedBeyond(w.feed, t, w.cursor) ensures Fresh(w, t, f) {
      assert LastWrite(w, t) <= w.cursor && !Named([], t);
    }
  }

  lemma IdleCaughtUp(w: World, f: Filter)
    requires Inv(w, f) && w.phase.Idle? && w.feed.prunedThrough <= w.cursor && f.project != Some("")
    requires forall r :: r in w.feed.log ==> r.seqno <= w.cursor
    ensures w.cache == Snapshot(w.feed.rows, f)
  {
    IdleFresh(w, f);
    var snapshot := Snapshot(w.feed.rows, f);
    forall t ensures Lookup(w.cache, t) == Lookup(snapshot, t) {
      assert !LoggedBeyond(w.feed, t, w.cursor);
      assert Fresh(w, t, f);
    }
    SameLookups(w.cache, snapshot);
  }

  lemma SameLookups(a: map<TaskId, Task>, b: map<TaskId, Task>)
    requires forall t :: Lookup(a, t) == Lookup(b, t)
    ensures a == b
  {
    assert forall t :: (t in a <==> Lookup(a, t).Some?) && (t in b <==> Lookup(b, t).Some?);
    assert a.Keys == b.Keys;
    assert forall t :: t in a ==> Lookup(a, t) == Lookup(b, t);
  }

  /** Convergence: whatever writers, retention and aborted writers do between the
   *  client's statements, an idle client that has not expired holds, for every
   *  task with no log row beyond its cursor, exactly the current filtered row;
   *  with no row at all beyond its cursor its cache is the snapshot. */
  lemma Converges(rows: map<TaskId, Task>, steps: seq<Step>, f: Filter)
    requires f.project != Some("") && Orderly(Start(rows), steps, f)
    ensures var w := Run(Start(rows), steps, f);
            w.phase.Idle? && w.feed.prunedThrough <= w.cursor ==>
              && (forall t :: !LoggedBeyond(w.feed, t, w.cursor) ==> Lookup(w.cache, t) == Entry(w.feed.rows, t, f))
              && ((forall r :: r in w.feed.log ==> r.seqno <= w.cursor) ==> w.cache == Snapshot(w.feed.rows, f))
  {
    RunKeeps(Start(rows), steps, f);
    var w := Run(Start(rows), steps, f);
    if w.phase.Idle? && w.feed.prunedThrough <= w.cursor {
      IdleFresh(w, f);
      assert forall t :: Fresh(w, t, f) ==> Lookup(w.cache, t) == Entry(w.feed.rows, t, f);
      if forall r :: r in w.feed.log ==> r.seqno <= w.cursor {
        IdleCaughtUp(w, f);
      }
    }
  }

  /** Once rows beyond an idle client's cursor are pruned, every page it asks for
   *  is refused as expired and its cache and cursor stand still until it takes a
   *  new snapshot. */
  lemma {:induction false} ExpiredUntilSnapshot(w: World, steps: seq<Step>, f: Filter)
    requires FeedInv(w) && w.cursor < w.feed.prunedThrough && (w.phase.Idle? || w.phase.Unsynced?)
    requires forall s :: s in steps ==> !s.ReadMeta?
    ensures var end := Run(w, steps, f);
            && end.cache == w.cache && end.cursor == w.cursor
            && (end.phase.Idle? || end.phase.Unsynced?) && !Next(end, OpenPage, f).phase.PageOpen?
    decreases |steps|
  {
    hide FeedInv;
    if steps != [] {
      FeedStepKeeps(w, steps[0], f);
      ExpiredUntilSnapshot(Next(w, steps[0], f), steps[1..], f);
    }
  }

  /** A page read covers a change set when it names every task written in it. */
  ghost predicate Covers(w: World, limit: nat) {
    var page := Page(w.feed.log, w.cursor, limit);
    page != [] ==> forall t :: w.cursor < LastWrite(w, t) <= page[|page| - 1].seqno ==> Named(page, t)
  }

  /** The server's gap, exactly: a page read with this cursor misses no write of
   *  any feed in this state of retention if and only if retention has not passed
   *  the cursor when the LOG is read (the server checks it one statement
   *  earlier). */
  lemma PageSafeExactlyWhenRetained(cursor: nat, pruned: nat)
    ensures (forall w: World, limit: nat :: FeedInv(w) && w.cursor == cursor && w.feed.prunedThrough == pruned
               ==> Covers(w, limit))
            <==> pruned <= cursor
  {
    hide Page, FeedInv, Covers;
    if pruned <= cursor {
      forall w: World, limit: nat | FeedInv(w) && w.cursor == cursor && w.feed.prunedThrough == pruned
        ensures Covers(w, limit)
      {
        RetainedPageCovers(w, limit);
      }
    } else {
      var w := PageWithGap(cursor, pruned);
    }
  }

  lemma RetainedPageCovers(w: World, limit: nat)
    requires FeedInv(w) && w.feed.prunedThrough <= w.cursor
    ensures Covers(w, limit)
  {
    hide Page;
    PageOfLog(w.feed.log, w.cursor, limit);
    var page := Page(w.feed.log, w.cursor, limit);
    if page != [] {
      forall t | w.cursor < LastWrite(w, t) <= page[|page| - 1].seqno ensures Named(page, t) {
        assert LogRow(w.changed[t], t) in page;
      }
    }
  }

  lemma PageWithGap(cursor: nat, pruned: nat) returns (w: World)
    requires cursor < pruned
    ensures FeedInv(w) && w.cursor == cursor && w.feed.prunedThrough == pruned && !Covers(w, 1)
  {
    var a, b := TaskId(0), TaskId(1);
    var log := [LogRow(pruned + 1, b)];
    w := World(Feed(map[], log, pruned, pruned + 1), map[a := pruned, b := pruned + 1], map[], cursor, PageOpen);
    assert Page(log, cursor, 1) == log;
    assert !Named(log, a) && LastWrite(w, a) == pruned;
  }

  /** A client of an empty server takes a snapshot and opens a page; two tasks are
   *  written and the first one's log row is pruned; the client reads on. */
  function GapRun(a: TaskId, b: TaskId): seq<Step> {
    var x := Some(Task(None, false, 1));
    [ReadMeta, ReadCursor, ReadTasks, OpenPage, Write(a, x), Write(b, x), Prune({1}), ReadLog(10), ReadRows, Deliver]
  }

  /** ... and a concrete run that meets the gap, between the retention check and the
   *  log read. The client ends up idle, caught up and not expired, without the
   *  first task. */
  lemma PruneUnderPageLosesATask(f: Filter, a: TaskId, b: TaskId)
    requires f == Filter(None, false) && a != b
    ensures var w := Run(Start(map[]), GapRun(a, b), f);
            && w.phase == Idle && w.cursor == 2 && w.feed.prunedThrough == 1
            && (forall r :: r in w.feed.log ==> r.seqno <= w.cursor)
            && a in Snapshot(w.feed.rows, f) && a !in w.cache
  {
    hide Next, Run;
    var steps := GapRun(a, b);
    var w := Trace(Start(map[]), steps, f);
    assert w[1] == Next(w[0], steps[0], f) && w[2] == Next(w[1], steps[1], f) && w[3] == Next(w[2], steps[2], f);
    assert w[4] == Next(w[3], steps[3], f);
    GapOpened(f);
    assert w[5] == Next(w[4], steps[4], f) && w[6] == Next(w[5], steps[5], f) && w[7] == Next(w[6], steps[6], f);
    assert w[8] == Next(w[7], steps[7], f) && w[9] == Next(w[8], steps[8], f) && w[10] == Next(w[9], steps[9], f);
    var last := GapRead(f, a, b);
  }

  /** The worlds a run goes through. */
  lemma {:induction false} Trace(w: World, steps: seq<Step>, f: Filter) returns (worlds: seq<World>)
    ensures |worlds| == |steps| + 1 && worlds[0] == w && worlds[|steps|] == Run(w, steps, f)
    ensures forall i {:trigger steps[i]} :: 0 <= i < |steps| ==> worlds[i + 1] == Next(worlds[i], steps[i], f)
    decreases |steps|
  {
    hide Next;
    if steps == [] {
      worlds := [w];
    } else {
      var rest := Trace(Next(w, steps[0], f), steps[1..], f);
      worlds := [w] + rest;
      forall i | 0 <= i < |steps| ensures worlds[i + 1] == Next(worlds[i], steps[i], f) {
        assert i > 0 ==> steps[i] == steps[1..][i - 1];
      }
    }
  }

  /** The first four steps open a page at cursor 0. */
  lemma GapOpened(f: Filter)
    ensures Next(Next(Next(Next(Start(map[]), ReadMeta, f), ReadCursor, f), ReadTasks, f), OpenPage, f)
            == World(Feed(map[], [], 0, 0), map[], map[], 0, PageOpen)
  {
    hide Pruned, Written, Page, Changes, AppliedAll;
    assert Snapshot(map[], f) == map[];
  }

  lemma GapRead(f: Filter, a: TaskId, b: TaskId) returns (w: World)
    requires f == Filter(None, false) && a != b
    ensures var x := Some(Task(None, false, 1));
            var w0 := World(Feed(map[], [], 0, 0), map[], map[], 0, PageOpen);
            var w1 := Next(Next(Next(w0, Write(a, x), f), Write(b, x), f), Prune({1}), f);
            w == Next(Next(Next(w1, ReadLog(10), f), ReadRows, f), Deliver, f)
    ensures w.phase == Idle && w.cursor == 2 && w.feed.prunedThrough == 1
    ensures forall r :: r in w.feed.log ==> r.seqno <= w.cursor
    ensures a in Snapshot(w.feed.rows, f) && a !in w.cache
  {
    var t := Task(None, false, 1);
    var w0 := World(Feed(map[], [], 0, 0), map[], map[], 0, PageOpen);
    var w2 := Next(Next(Next(w0, Write(a, Some(t)), f), Write(b, Some(t)), f), Prune({1}), f);
    var rows := map[a := t, b := t];
    FirstPruned(w0, f, a, b, t);
    SecondRead(w2, f, b, rows);
    hide Next;
    w := Next(Next(Next(w2, ReadLog(10), f), ReadRows, f), Deliver, f);
  }

  lemma FirstPruned(w0: World, f: Filter, a: TaskId, b: TaskId, t: Task)
    requires a != b && w0 == World(Feed(map[], [], 0, 0), map[], map[], 0, PageOpen)
    ensures Next(Next(Next(w0, Write(a, Some(t)), f), Write(b, Some(t)), f), Prune({1}), f)
            == World(Feed(map[a := t, b := t], [LogRow(2, b)], 1, 2), map[a := 1, b := 2], map[], 0, PageOpen)
  {
    hide Without, Dropping;
    var w1 := Next(Next(w0, Write(a, Some(t)), f), Write(b, Some(t)), f);
    assert w1.feed == Feed(map[a := t, b := t], [LogRow(1, a), LogRow(2, b)], 0, 2);
    PrunedFirst(w1.feed.log, [LogRow(2, b)]);
  }

  lemma SecondRead(w: World, f: Filter, b: TaskId, rows: map<TaskId, Task>)
    requires w.feed == Feed(rows, [LogRow(2, b)], 1, 2) && w.cache == map[] && w.cursor == 0 && w.phase == PageOpen
    requires b in rows && Matches(rows[b], f)
    ensures Next(Next(Next(w, ReadLog(10), f), ReadRows, f), Deliver, f) == w.(cache := map[b := rows[b]], cursor := 2, phase := Idle)
  {
    hide Changes, AppliedAll;
    var rest := [LogRow(2, b)];
    assert Page(rest, 0, 10) == rest;
    SingleChange(rest, rows, f, b);
  }

  lemma PrunedFirst(log: seq<LogRow>, rest: seq<LogRow>)
    requires |log| == 2 && log[0].seqno == 1 && log[1].seqno == 2 && rest == log[1..]
    ensures Without(log, {1}) == rest && MaxSeq(Dropping(log, {1})) == 1 && Dropping(log, {1}) != []
  {
    assert rest[1..] == [] && Without(rest, {1}) == rest && Dropping(rest, {1}) == [];
    assert Dropping(log, {1}) == [log[0]];
  }

  lemma SingleChange(log: seq<LogRow>, rows: map<TaskId, Task>, f: Filter, t: TaskId)
    requires log == [LogRow(2, t)] && t in rows && Matches(rows[t], f)
    ensures AppliedAll(map[], Changes(log, rows, f, |log|)) == map[t := rows[t]]
  {
    hide Changes, AppliedAll;
    var applied := AppliedAll(map[], Changes(log, rows, f, |log|));
    forall x ensures Lookup(applied, x) == Lookup(map[t := rows[t]], x) {
      AppliedPage(map[], log, rows, f, x);
      assert LogRow(2, t) in log;
    }
    SameLookups(applied, map[t := rows[t]]);
  }

  /** One page taken without interleaving. */
  function Poll(w: World, limit: nat, f: Filter): World {
    Next(Next(Next(Next(w, OpenPage, f), ReadLog(limit), f), ReadRows, f), Deliver, f)
  }

  function Polls(w: World, limit: nat, f: Filter, times: nat): World
    decreases times
  {
    if times == 0 then w else Polls(Poll(w, limit, f), limit, f, times - 1)
  }

  /** The log rows a client has yet to read. */
  function Backlog(log: seq<LogRow>, cursor: nat): nat {
    if log == [] then 0 else (if log[0].seqno > cursor then 1 else 0) + Backlog(log[1..], cursor)
  }

  lemma {:induction false} BacklogAfterPage(log: seq<LogRow>, cursor: nat, limit: nat)
    requires Ascending(log)
    ensures var page := Page(log, cursor, limit);
            && CursorAfter(page, cursor) >= cursor
            && Backlog(log, CursorAfter(page, cursor)) + |page| == Backlog(log, cursor)
            && |page| == if Backlog(log, cursor) < limit then Backlog(log, cursor) else limit
    decreases |log|, 1
  {
    hide Ascending;
    if log != [] && limit > 0 {
      AscendingTail(log);
      if log[0].seqno <= cursor {
        BacklogAfterPage(log[1..], cursor, limit);
      } else {
        BacklogHead(log, cursor, limit);
      }
    }
  }

  lemma {:induction false} BacklogHead(log: seq<LogRow>, cursor: nat, limit: nat)
    requires Ascending(log) && log != [] && limit > 0 && log[0].seqno > cursor
    ensures var page := Page(log, cursor, limit);
            && CursorAfter(page, cursor) >= cursor
            && Backlog(log, CursorAfter(page, cursor)) + |page| == Backlog(log, cursor)
            && |page| == if Backlog(log, cursor) < limit then Backlog(log, cursor) else limit
    decreases |log|, 0
  {
    hide Ascending;
    AscendingTail(log);
    var rest := Page(log[1..], cursor, limit - 1);
    var page := [log[0]] + rest;
    assert Page(log, cursor, limit) == page;
    BacklogAhead(log[1..], cursor, log[0].seqno);
    BacklogAfterPage(log[1..], cursor, limit - 1);
    if rest != [] {
      assert CursorAfter(page, cursor) == CursorAfter(rest, cursor);
      PageOfLog(log[1..], cursor, limit - 1);
    }
  }

  /** Rows all beyond two cursors count the same for both. */
  lemma {:induction false} BacklogAhead(log: seq<LogRow>, low: nat, high: nat)
    requires forall r :: r in log ==> r.seqno > low && r.seqno > high
    ensures Backlog(log, low) == Backlog(log, high)
  {
    if log != [] {
      assert forall r :: r in log[1..] ==> r in log;
      BacklogAhead(log[1..], low, high);
    }
  }

  lemma {:induction false} NoBacklog(log: seq<LogRow>, cursor: nat)
    requires Backlog(log, cursor) == 0
    ensures forall r :: r in log ==> r.seqno <= cursor
  {
    if log != [] {
      NoBacklog(log[1..], cursor);
      assert log == [log[0]] + log[1..];
    }
  }

  lemma PollKeeps(w: World, limit: nat, f: Filter)
    requires Inv(w, f) && f.project != Some("") && w.phase.Idle? && w.feed.prunedThrough <= w.cursor && limit > 0
    ensures var after := Poll(w, limit, f);
            && Inv(after, f) && after.feed == w.feed && after.phase.Idle? && w.cursor <= after.cursor
            && Backlog(w.feed.log, after.cursor)
               == if Backlog(w.feed.log, w.cursor) > limit then Backlog(w.feed.log, w.cursor) - limit else 0
  {
    hide FeedInv, ClientInv;
    var w1 := Next(w, OpenPage, f);
    var w2 := Next(w1, ReadLog(limit), f);
    var w3 := Next(w2, ReadRows, f);
    StepKeeps(w, OpenPage, f);
    StepKeeps(w1, ReadLog(limit), f);
    StepKeeps(w2, ReadRows, f);
    StepKeeps(w3, Deliver, f);
    IdleBounds(w, f);
    BacklogAfterPage(w.feed.log, w.cursor, limit);
    assert Poll(w, limit, f).cursor == CursorAfter(Page(w.feed.log, w.cursor, limit), w.cursor);
  }

  lemma IdleBounds(w: World, f: Filter)
    requires Inv(w, f) && w.phase.Idle?
    ensures w.cursor <= w.feed.lastSeq && Ascending(w.feed.log)
  {
  }

  /** Progress: with the writers quiet, a client with `limit` rows a page is caught
   *  up after backlog / limit pages (rounded up), its cache being the snapshot. */
  lemma {:induction false} CatchesUp(w: World, limit: nat, f: Filter, times: nat)
    requires Inv(w, f) && f.project != Some("") && w.phase.Idle? && w.feed.prunedThrough <= w.cursor && limit > 0
    requires limit * times >= Backlog(w.feed.log, w.cursor)
    ensures Polls(w, limit, f, times).cache == Snapshot(w.feed.rows, f)
    decreases times
  {
    if times == 0 {
      NoBacklog(w.feed.log, w.cursor);
      IdleCaughtUp(w, f);
    } else {
      PollKeeps(w, limit, f);
      assert limit * times == limit * (times - 1) + limit;
      CatchesUp(Poll(w, limit, f), limit, f, times - 1);
    }
  }
}
