/** The incremental task feed (dispatch/db.py): a change log, snapshots, pages
 * and retention, read by clients whose statements interleave with writers.
 *
 * Every write of a task commits its row and one log row together, and log
 * numbers follow commit order (the writers' advisory lock).
 */
module TaskFeed {
  import opened Prelude

  datatype TaskId = TaskId(number: nat)
  type Project = string

  /** A task row; `revision` stands for every column the filter ignores. */
  datatype Task = Task(project: Option<Project>, archived: bool, revision: nat)

  datatype Filter = Filter(project: Option<Project>, includeArchived: bool)

  /** The row filter of the change pages. */
  predicate Matches(t: Task, f: Filter) {
    (f.project.None? || t.project == f.project) && (f.includeArchived || !t.archived)
  }

  /** The row filter of the snapshot: an empty project name does not filter. */
  predicate SnapshotMatches(t: Task, f: Filter) {
    (f.project.None? || f.project.value == "" || t.project == f.project) && (f.includeArchived || !t.archived)
  }

  /** The two filters agree on every task exactly when the project asked for is
   *  not the empty name. */
  lemma FiltersAgree(f: Filter)
    ensures (forall t :: Matches(t, f) <==> SnapshotMatches(t, f)) <==> f.project != Some("")
  {
    if f.project == Some("") {
      var other := Task(None, false, 0);
      assert SnapshotMatches(other, f) && !Matches(other, f);
    }
  }

  datatype LogRow = LogRow(seqno: nat, task: TaskId)

  datatype Feed = Feed(rows: map<TaskId, Task>, log: seq<LogRow>, prunedThrough: nat, lastSeq: nat)

  function Snapshot(rows: map<TaskId, Task>, f: Filter): map<TaskId, Task> {
    map t | t in rows && SnapshotMatches(rows[t], f) :: rows[t]
  }

  function MaxSeq(log: seq<LogRow>): nat {
    if log == [] then 0
    else if log[0].seqno > MaxSeq(log[1..]) then log[0].seqno else MaxSeq(log[1..])
  }

  /** At most `limit` log rows beyond `since`, in log order. */
  function Page(log: seq<LogRow>, since: nat, limit: nat): seq<LogRow> {
    if log == [] || limit == 0 then []
    else if log[0].seqno > since then [log[0]] + Page(log[1..], since, limit - 1)
    else Page(log[1..], since, limit)
  }

  /** The last log row of each task in a page. */
  function Collapsed(log: seq<LogRow>): map<TaskId, nat> {
    if log == [] then map[]
    else Collapsed(log[..|log| - 1])[log[|log| - 1].task := log[|log| - 1].seqno]
  }

  /** What a page says about a task: its current row, or that it is gone (deleted,
   *  or no longer matching). */
  function Entry(rows: map<TaskId, Task>, t: TaskId, f: Filter): Option<Task> {
    if t in rows && Matches(rows[t], f) then Some(rows[t]) else None
  }

  datatype Change = Change(seqno: nat, task: TaskId, row: Option<Task>)

  /** A client applies one page entry. */
  function Applied(cache: map<TaskId, Task>, t: TaskId, row: Option<Task>): map<TaskId, Task> {
    if row.Some? then cache[t := row.value] else cache - {t}
  }

  function AppliedAll(cache: map<TaskId, Task>, changes: seq<Change>): map<TaskId, Task> {
    if changes == [] then cache
    else Applied(AppliedAll(cache, changes[..|changes| - 1]),
                 changes[|changes| - 1].task, changes[|changes| - 1].row)
  }

  /** The loop that keeps the last log row per task. */
  method Collapse(log: seq<LogRow>) returns (last: map<TaskId, nat>)
    ensures last == Collapsed(log)
  {
    last := map[];
    for i := 0 to |log|
      invariant last == Collapsed(log[..i])
    {
      last := last[log[i].task := log[i].seqno];
      assert log[..i + 1][..i] == log[..i];
    }
    assert log[..|log|] == log;
  }

  /** The entries of the first `n` rows of a page: only the last row of a task
   *  makes one, and it carries the task's current row. */
  function Changes(log: seq<LogRow>, rows: map<TaskId, Task>, f: Filter, n: nat): seq<Change>
    requires n <= |log|
  {
    if n == 0 then []
    else
      var r := log[n - 1];
      var before := Changes(log, rows, f, n - 1);
      if r.task in Collapsed(log) && Collapsed(log)[r.task] == r.seqno
      then before + [Change(r.seqno, r.task, Entry(rows, r.task, f))]
      else before
  }

  method BuildChanges(log: seq<LogRow>, last: map<TaskId, nat>, rows: map<TaskId, Task>, f: Filter)
    returns (changes: seq<Change>)
    requires last == Collapsed(log)
    ensures changes == Changes(log, rows, f, |log|)
  {
    changes := [];
    for i := 0 to |log|
      invariant changes == Changes(log, rows, f, i)
    {
      CollapsedKeys(log);
      if last[log[i].task] == log[i].seqno {
        changes := changes + [Change(log[i].seqno, log[i].task, Entry(rows, log[i].task, f))];
      }
    }
  }

  ghost predicate Ascending(log: seq<LogRow>) {
    forall i, j :: 0 <= i < j < |log| ==> log[i].seqno < log[j].seqno
  }

  lemma {:induction false} CollapsedKeys(log: seq<LogRow>)
    ensures forall r :: r in log ==> r.task in Collapsed(log)
    ensures forall t :: t in Collapsed(log) ==> LogRow(Collapsed(log)[t], t) in log
  {
    if log != [] {
      CollapsedKeys(log[..|log| - 1]);
      assert log == log[..|log| - 1] + [log[|log| - 1]];
    }
  }

  function Lookup(m: map<TaskId, Task>, t: TaskId): Option<Task> {
    if t in m then Some(m[t]) else None
  }

  /** Applying a page's entries in order sets every task the page names to its
   *  current filtered row and touches no other. */
  lemma AppliedPage(cache: map<TaskId, Task>, log: seq<LogRow>, rows: map<TaskId, Task>, f: Filter, t: TaskId)
    ensures Lookup(AppliedAll(cache, Changes(log, rows, f, |log|)), t)
            == if exists r :: r in log && r.task == t then Entry(rows, t, f) else Lookup(cache, t)
  {
    CollapsedKeys(log);
    AppliedPrefix(cache, log, rows, f, t, |log|);
    if r :| r in log && r.task == t {
      assert LogRow(Collapsed(log)[t], t) in log[..|log|];
    }
  }

  lemma {:induction false} AppliedPrefix(cache: map<TaskId, Task>, log: seq<LogRow>, rows: map<TaskId, Task>,
                                         f: Filter, t: TaskId, n: nat)
    requires n <= |log|
    ensures Lookup(AppliedAll(cache, Changes(log, rows, f, n)), t)
            == if t in Collapsed(log) && LogRow(Collapsed(log)[t], t) in log[..n]
               then Entry(rows, t, f) else Lookup(cache, t)
  {
    if n > 0 {
      AppliedPrefix(cache, log, rows, f, t, n - 1);
      var changes, before := Changes(log, rows, f, n), Changes(log, rows, f, n - 1);
      assert log[..n] == log[..n - 1] + [log[n - 1]];
      if changes != before {
        assert changes[..|changes| - 1] == before;
      }
    }
  }

  lemma AscendingTail(log: seq<LogRow>)
    requires Ascending(log) && log != []
    ensures Ascending(log[1..])
    ensures forall r :: r in log[1..] ==> r.seqno > log[0].seqno
    ensures forall r :: r in log <==> r == log[0] || r in log[1..]
  {
    assert log == [log[0]] + log[1..];
    forall r | r in log[1..] ensures r.seqno > log[0].seqno {
      var i :| 0 <= i < |log[1..]| && log[1..][i] == r;
      assert log[i + 1] == r;
    }
  }

  /** The cursor a page leaves behind. */
  function CursorAfter(page: seq<LogRow>, cursor: nat): nat {
    if page == [] then cursor else page[|page| - 1].seqno
  }

  /** What a page of an ascending log covers, row by row: only rows beyond the
   *  cursor, and every one of them up to where the page ends. */
  lemma {:induction false} PageRow(log: seq<LogRow>, since: nat, limit: nat, r: LogRow)
    requires Ascending(log)
    ensures var page := Page(log, since, limit);
            && |page| <= limit && since <= CursorAfter(page, since)
            && (page != [] ==> page[|page| - 1] in log)
            && (r in page ==> r in log && since < r.seqno <= CursorAfter(page, since))
            && (r in log && since < r.seqno && (|page| < limit || r.seqno <= CursorAfter(page, since)) ==> r in page)
    decreases |log|
  {
    hide Ascending;
    if log != [] && limit > 0 {
      AscendingTail(log);
      if log[0].seqno > since {
        PageRow(log[1..], since, limit - 1, r);
        var rest := Page(log[1..], since, limit - 1);
        assert Page(log, since, limit) == [log[0]] + rest;
        assert rest != [] ==> rest[|rest| - 1] in log[1..];
      } else {
        PageRow(log[1..], since, limit, r);
      }
    }
  }

  lemma PageOfLog(log: seq<LogRow>, since: nat, limit: nat)
    requires Ascending(log)
    ensures var page := Page(log, since, limit);
            && |page| <= limit && since <= CursorAfter(page, since)
            && (page != [] ==> page[|page| - 1] in log && page[|page| - 1].seqno > since)
            && (forall r :: r in log && since < r.seqno <= CursorAfter(page, since) ==> r in page)
            && (|page| < limit ==> forall r :: r in log && r.seqno > since ==> r in page)
  {
    hide Ascending;
    var page := Page(log, since, limit);
    PageRow(log, since, limit, if page == [] then LogRow(0, TaskId(0)) else page[|page| - 1]);
    forall r ensures r in log && since < r.seqno && (|page| < limit || r.seqno <= CursorAfter(page, since)) ==> r in page {
      PageRow(log, since, limit, r);
    }
  }

  /** Log rows with a number in `dropped` removed. */
  function Without(log: seq<LogRow>, dropped: set<nat>): seq<LogRow> {
    if log == [] then []
    else (if log[0].seqno in dropped then [] else [log[0]]) + Without(log[1..], dropped)
  }

  function Dropping(log: seq<LogRow>, dropped: set<nat>): seq<LogRow> {
    if log == [] then []
    else (if log[0].seqno in dropped then [log[0]] else []) + Dropping(log[1..], dropped)
  }

  /** Retention: some rows go, and the highest number that went is recorded. */
  function Pruned(feed: Feed, dropped: set<nat>): Feed {
    var gone := Dropping(feed.log, dropped);
    if gone == [] then feed
    else feed.(log := Without(feed.log, dropped),
               prunedThrough := if MaxSeq(gone) > feed.prunedThrough then MaxSeq(gone) else feed.prunedThrough)
  }

  lemma PrunedLog(log: seq<LogRow>, dropped: set<nat>)
    ensures forall r :: r in Without(log, dropped) <==> r in log && r.seqno !in dropped
    ensures forall r :: r in Dropping(log, dropped) <==> r in log && r.seqno in dropped
    ensures Ascending(log) ==> Ascending(Without(log, dropped))
  {
    PrunedMembers(log, dropped);
    if Ascending(log) {
      PrunedAscending(log, dropped);
    }
  }

  lemma {:induction false} PrunedMembers(log: seq<LogRow>, dropped: set<nat>)
    ensures forall r :: r in Without(log, dropped) <==> r in log && r.seqno !in dropped
    ensures forall r :: r in Dropping(log, dropped) <==> r in log && r.seqno in dropped
  {
    if log != [] {
      PrunedMembers(log[1..], dropped);
      assert forall r :: r in log <==> r == log[0] || r in log[1..];
    }
  }

  lemma {:induction false} PrunedAscending(log: seq<LogRow>, dropped: set<nat>)
    requires Ascending(log)
    ensures Ascending(Without(log, dropped))
  {
    if log != [] {
      AscendingTail(log);
      PrunedAscending(log[1..], dropped);
      PrunedMembers(log[1..], dropped);
      var rest := Without(log[1..], dropped);
      assert forall i :: 0 <= i < |rest| ==> rest[i] in rest;
    }
  }

  lemma {:induction false} MaxSeqBounds(log: seq<LogRow>)
    ensures forall r :: r in log ==> r.seqno <= MaxSeq(log)
    ensures log != [] ==> exists r :: r in log && r.seqno == MaxSeq(log)
  {
    if log != [] {
      MaxSeqBounds(log[1..]);
      assert forall r :: r in log <==> r == log[0] || r in log[1..];
    }
  }

  /** The table side of the feed: what one call returns when nothing interleaves. */
  class FeedServer {
    var feed: Feed

    constructor (rows: map<TaskId, Task>)
      ensures feed == Feed(rows, [], 0, 0)
    {
      feed := Feed(rows, [], 0, 0);
    }

    /** A task write: its row (None deletes it) and its log row. */
    method WriteTask(t: TaskId, row: Option<Task>)
      modifies this
      ensures feed == Written(old(feed), t, row)
    {
      feed := Written(feed, t, row);
    }

    method TaskSnapshot(f: Filter) returns (cursor: nat, tasks: map<TaskId, Task>)
      ensures tasks == Snapshot(feed.rows, f)
      ensures cursor >= feed.prunedThrough && forall r :: r in feed.log ==> r.seqno <= cursor
    {
      cursor := MaxSeq(feed.log);
      MaxSeqBounds(feed.log);
      if cursor < feed.prunedThrough {
        cursor := feed.prunedThrough;
      }
      tasks := Snapshot(feed.rows, f);
    }

    method ListTaskChanges(since: nat, limit: nat, f: Filter)
      returns (cursor: nat, changes: seq<Change>, more: bool, expired: bool)
      ensures expired == (since < feed.prunedThrough || since > feed.lastSeq)
      ensures expired ==> cursor == since && changes == [] && !more
      ensures var page := Page(feed.log, since, limit);
              !expired ==>
                && changes == Changes(page, feed.rows, f, |page|)
                && cursor == (if page == [] then since else page[|page| - 1].seqno)
                && more == (|Page(feed.log, since, limit + 1)| > limit)
    {
      cursor, changes, more, expired := since, [], false, false;
      if since < feed.prunedThrough || since > feed.lastSeq {
        expired := true;
        return;
      }
      var log := Page(feed.log, since, limit + 1);
      PagePrefix(feed.log, since, limit);
      more := |log| > limit;
      if more {
        log := log[..limit];
      }
      if log != [] {
        cursor := log[|log| - 1].seqno;
        var last := Collapse(log);
        changes := BuildChanges(log, last, feed.rows, f);
      }
    }

    /** Deletes the log rows numbered in `dropped`, and records the highest. */
    method PruneTaskChanges(dropped: set<nat>) returns (deleted: nat)
      modifies this
      ensures feed == Pruned(old(feed), dropped) && deleted == |Dropping(old(feed).log, dropped)|
      ensures feed.rows == old(feed).rows && feed.lastSeq == old(feed).lastSeq
      ensures forall r :: r in feed.log <==> r in old(feed).log && r.seqno !in dropped
      ensures forall r :: r in old(feed).log && r.seqno in dropped ==> r.seqno <= feed.prunedThrough
      ensures feed.prunedThrough == old(feed).prunedThrough
              || exists r :: r in old(feed).log && r.seqno in dropped && r.seqno == feed.prunedThrough
    {
      ghost var was := feed;
      hide Pruning, Dropping, Without, MaxSeq;
      ghost var gone := Dropping(was.log, dropped);
      var log, kept := feed.log, [];
      var highest: nat := 0;
      deleted := 0;
      PruningStart(log, dropped);
      for i := 0 to |log|
        invariant feed == was && Pruning(log, i, dropped, kept, deleted, highest)
      {
        if log[i].seqno in dropped {
          PruningDropped(log, i, dropped, kept, deleted, highest);
          deleted, highest := deleted + 1, if log[i].seqno > highest then log[i].seqno else highest;
        } else {
          PruningKept(log, i, dropped, kept, deleted, highest);
          kept := kept + [log[i]];
        }
      }
      PruningEnd(log, dropped, kept, deleted, highest);
      PrunedMembers(was.log, dropped);
      MaxSeqBounds(gone);
      NothingDropped(was.log, dropped);
      assert gone == [] <==> deleted == 0;
      if deleted > 0 {
        feed := feed.(log := kept, prunedThrough := if highest > feed.prunedThrough then highest else feed.prunedThrough);
      }
    }
  }

  /** One pass over the log, up to row `i`: what is kept, how many went, and the
   *  highest number among them. */
  ghost predicate Pruning(log: seq<LogRow>, i: nat, dropped: set<nat>, kept: seq<LogRow>, deleted: nat, highest: nat)
    requires i <= |log|
  {
    var rest := Dropping(log[i..], dropped);
    && kept + Without(log[i..], dropped) == Without(log, dropped)
    && deleted + |rest| == |Dropping(log, dropped)|
    && (if highest > MaxSeq(rest) then highest else MaxSeq(rest)) == MaxSeq(Dropping(log, dropped))
  }

  lemma PruningStart(log: seq<LogRow>, dropped: set<nat>)
    ensures Pruning(log, 0, dropped, [], 0, 0)
  {
    assert log[0..] == log;
  }

  lemma PruningEnd(log: seq<LogRow>, dropped: set<nat>, kept: seq<LogRow>, deleted: nat, highest: nat)
    requires Pruning(log, |log|, dropped, kept, deleted, highest)
    ensures kept == Without(log, dropped) && deleted == |Dropping(log, dropped)| && highest == MaxSeq(Dropping(log, dropped))
  {
  }

  lemma PruningKept(log: seq<LogRow>, i: nat, dropped: set<nat>, kept: seq<LogRow>, deleted: nat, highest: nat)
    requires i < |log| && Pruning(log, i, dropped, kept, deleted, highest) && log[i].seqno !in dropped
    ensures Pruning(log, i + 1, dropped, kept + [log[i]], deleted, highest)
  {
    assert log[i..][0] == log[i] && log[i..][1..] == log[i + 1..];
    var rest := Without(log[i + 1..], dropped);
    assert kept + ([log[i]] + rest) == kept + [log[i]] + rest;
    assert Dropping(log[i..], dropped) == Dropping(log[i + 1..], dropped);
  }

  lemma PruningDropped(log: seq<LogRow>, i: nat, dropped: set<nat>, kept: seq<LogRow>, deleted: nat, highest: nat)
    requires i < |log| && Pruning(log, i, dropped, kept, deleted, highest) && log[i].seqno in dropped
    ensures Pruning(log, i + 1, dropped, kept, deleted + 1, if log[i].seqno > highest then log[i].seqno else highest)
  {
    assert log[i..][0] == log[i] && log[i..][1..] == log[i + 1..];
    var rest := Dropping(log[i + 1..], dropped);
    assert ([log[i]] + rest)[1..] == rest;
  }

  lemma {:induction false} NothingDropped(log: seq<LogRow>, dropped: set<nat>)
    ensures Dropping(log, dropped) == [] ==> Without(log, dropped) == log
  {
    if log != [] {
      NothingDropped(log[1..], dropped);
    }
  }

  function Written(feed: Feed, t: TaskId, row: Option<Task>): Feed {
    feed.(rows := Applied(feed.rows, t, row),
          log := feed.log + [LogRow(feed.lastSeq + 1, t)],
          lastSeq := feed.lastSeq + 1)
  }

  lemma {:induction false} PagePrefix(log: seq<LogRow>, since: nat, limit: nat)
    ensures var longer := Page(log, since, limit + 1);
            Page(log, since, limit) == if |longer| > limit then longer[..limit] else longer
    decreases |log|
  {
    if log != [] {
      if log[0].seqno > since {
        if limit > 0 {
          PagePrefix(log[1..], since, limit - 1);
        }
      } else {
        PagePrefix(log[1..], since, limit);
      }
    }
  }
}
