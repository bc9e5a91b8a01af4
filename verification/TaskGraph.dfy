/** The roster's task-graph check (dispatch/session_roster.py).
 *
 * Tasks are linked by two kinds of edge, parent and filer. Both are followed
 * together; a scope whose edges form a cycle is refused as a whole.
 */
module TaskGraph {
  import opened Prelude
  import opened Graphs

  /** Task ids are only ever compared. */
  datatype TaskId = TaskId(number: nat)

  /** One row of the scoped task query. */
  datatype Row = Row(id: TaskId, parent: Option<TaskId>, filer: Option<TaskId>)

  datatype Verdict = Admitted | ScopeTooLarge | ScopeCycle

  const MAX_TASK_SCOPE: nat := 10000

  function Ids(rows: seq<Row>): set<TaskId> {
    set r | r in rows :: r.id
  }

  function Feeders(r: Row): set<TaskId> {
    (if r.parent.Some? then {r.parent.value} else {}) + (if r.filer.Some? then {r.filer.value} else {})
  }

  /** Some row of task `c` names `x` as its parent or its filer. */
  predicate Feeds(rows: seq<Row>, x: TaskId, c: TaskId) {
    exists r :: r in rows && r.id == c && x in Feeders(r)
  }

  /** The edges inside the scope: a task named by a row but absent from the
   *  scope contributes none. */
  function EdgeGraph(nodes: set<TaskId>, rows: seq<Row>): (g: Graph<TaskId>)
    ensures g.Keys == nodes
  {
    map x | x in nodes :: set c | c in nodes && Feeds(rows, x, c)
  }

  /** The tasks outside `done` with an edge to `n`. */
  function Sources(children: Graph<TaskId>, n: TaskId, done: set<TaskId>): set<TaskId> {
    set m | m in children && m !in done && n in children[m]
  }

  /** `indegree` counts, for every task, its distinct sources outside `done`. */
  ghost predicate Counts(children: Graph<TaskId>, indegree: map<TaskId, nat>, done: set<TaskId>) {
    && indegree.Keys == children.Keys
    && forall n :: n in children ==> indegree[n] == |Sources(children, n, done)|
  }

  lemma EdgeAdded(children: Graph<TaskId>, parent: TaskId, child: TaskId, n: TaskId)
    requires parent in children && child !in children[parent]
    ensures Sources(children[parent := children[parent] + {child}], n, {})
            == Sources(children, n, {}) + (if n == child then {parent} else {})
    ensures n == child ==> parent !in Sources(children, n, {})
  {
  }

  method AddEdge(children: Graph<TaskId>, indegree: map<TaskId, nat>, parent: TaskId, child: TaskId)
    returns (children': Graph<TaskId>, indegree': map<TaskId, nat>)
    requires parent in children && child in children && Counts(children, indegree, {})
    ensures children' == children[parent := children[parent] + {child}]
    ensures Counts(children', indegree', {})
  {
    if child !in children[parent] {
      children' := children[parent := children[parent] + {child}];
      indegree' := indegree[child := indegree[child] + 1];
      assert children'.Keys == children.Keys && indegree'.Keys == indegree.Keys;
      forall n | n in children' ensures indegree'[n] == |Sources(children', n, {})| {
        EdgeAdded(children, parent, child, n);
      }
    } else {
      children', indegree' := children, indegree;
      assert children[parent] + {child} == children[parent];
    }
  }

  /** `after` is `before` with an edge to row's task from each of `from`. */
  ghost predicate RowAdded(before: Graph<TaskId>, after: Graph<TaskId>, id: TaskId, from: set<TaskId>) {
    && after.Keys == before.Keys
    && forall x :: x in before ==> after[x] == if x in from then before[x] + {id} else before[x]
  }

  lemma EdgesSnoc(nodes: set<TaskId>, rows: seq<Row>, i: nat)
    requires i < |rows| && rows[i].id in nodes
    ensures RowAdded(EdgeGraph(nodes, rows[..i]), EdgeGraph(nodes, rows[..i + 1]), rows[i].id, Feeders(rows[i]))
  {
    assert rows[..i + 1] == rows[..i] + [rows[i]];
    forall x, c
      ensures Feeds(rows[..i + 1], x, c) <==> Feeds(rows[..i], x, c) || (c == rows[i].id && x in Feeders(rows[i]))
    {
    }
  }

  /** One row's edges, from each of its feeders in the scope. */
  method AddRow(children: Graph<TaskId>, indegree: map<TaskId, nat>, row: Row)
    returns (children': Graph<TaskId>, indegree': map<TaskId, nat>)
    requires row.id in children && Counts(children, indegree, {})
    ensures Counts(children', indegree', {})
    ensures RowAdded(children, children', row.id, Feeders(row))
  {
    hide Counts, RowAdded;
    children', indegree' := children, indegree;
    var todo := Feeders(row) * children.Keys;
    NothingAdded(children, row.id, Feeders(row) - todo);
    while todo != {}
      invariant todo <= Feeders(row) * children.Keys
      invariant Counts(children', indegree', {})
      invariant RowAdded(children, children', row.id, Feeders(row) - todo)
      decreases todo
    {
      var parent :| parent in todo;
      SameTasks(children, children', row.id, Feeders(row) - todo);
      OneMoreEdge(children, children', row.id, Feeders(row) - todo, parent);
      children', indegree' := AddEdge(children', indegree', parent, row.id);
      assert Feeders(row) - (todo - {parent}) == Feeders(row) - todo + {parent};
      todo := todo - {parent};
    }
    assert Feeders(row) - todo == Feeders(row);
  }

  lemma NothingAdded(children: Graph<TaskId>, id: TaskId, from: set<TaskId>)
    requires from !! children.Keys
    ensures RowAdded(children, children, id, from)
  {
  }

  lemma SameTasks(before: Graph<TaskId>, after: Graph<TaskId>, id: TaskId, from: set<TaskId>)
    requires RowAdded(before, after, id, from)
    ensures after.Keys == before.Keys
  {
  }

  lemma OneMoreEdge(before: Graph<TaskId>, after: Graph<TaskId>, id: TaskId, from: set<TaskId>, parent: TaskId)
    requires RowAdded(before, after, id, from) && parent in after
    ensures RowAdded(before, after[parent := after[parent] + {id}], id, from + {parent})
  {
  }

  method BuildGraph(rows: seq<Row>) returns (children: Graph<TaskId>, indegree: map<TaskId, nat>)
    ensures children == EdgeGraph(Ids(rows), rows)
    ensures Counts(children, indegree, {})
  {
    hide Counts, EdgeGraph, RowAdded;
    var nodes := Ids(rows);
    children, indegree := map n | n in nodes :: {}, map n | n in nodes :: 0;
    NoRows(nodes, rows);
    for i := 0 to |rows|
      invariant children == EdgeGraph(nodes, rows[..i])
      invariant Counts(children, indegree, {})
    {
      var before := children;
      children, indegree := AddRow(children, indegree, rows[i]);
      assert rows[i].id in nodes;
      EdgesSnoc(nodes, rows, i);
      SameAddition(before, children, EdgeGraph(nodes, rows[..i + 1]), rows[i].id, Feeders(rows[i]));
    }
    assert rows[..|rows|] == rows;
  }

  lemma NoRows(nodes: set<TaskId>, rows: seq<Row>)
    ensures EdgeGraph(nodes, rows[..0]) == map n | n in nodes :: {}
    ensures Counts(map n | n in nodes :: {}, map n | n in nodes :: 0, {})
  {
    assert forall x :: x in nodes ==> EdgeGraph(nodes, rows[..0])[x] == {};
    var none: Graph<TaskId> := map n | n in nodes :: {};
    assert forall n :: n in none ==> Sources(none, n, {}) == {};
  }

  lemma SameAddition(before: Graph<TaskId>, a: Graph<TaskId>, b: Graph<TaskId>, id: TaskId, from: set<TaskId>)
    requires RowAdded(before, a, id, from) && RowAdded(before, b, id, from)
    ensures a == b
  {
  }

  /** `indegree` counts the sources not yet taken, plus the edges of the task
   *  just taken that are still `owed`. */
  ghost predicate Owing(children: Graph<TaskId>, indegree: map<TaskId, nat>, done: set<TaskId>, owed: set<TaskId>) {
    && indegree.Keys == children.Keys
    && forall n :: n in children ==> indegree[n] == |Sources(children, n, done)| + (if n in owed then 1 else 0)
  }

  /** The queue holds exactly the tasks with no source left, each once. */
  ghost predicate Queued(children: Graph<TaskId>, indegree: map<TaskId, nat>, ready: seq<TaskId>, done: set<TaskId>) {
    && Distinct(ready)
    && (forall n :: n in ready ==> n in children && n !in done)
    && (forall n :: n in children && n in indegree && n !in done ==> (n in ready <==> indegree[n] == 0))
  }

  /** Tasks were taken in an order (`rank`) that respects every edge. */
  ghost predicate Ordered(children: Graph<TaskId>, done: set<TaskId>, rank: map<TaskId, nat>) {
    && done <= children.Keys && rank.Keys == done
    && (forall n :: n in done ==> rank[n] < |done|)
    && (forall n, m :: n in done && m in children && n in children[m] ==> m in done && rank[m] < rank[n])
  }

  lemma TakenCounts(children: Graph<TaskId>, indegree: map<TaskId, nat>, done: set<TaskId>, node: TaskId)
    requires Owing(children, indegree, done, {}) && node in children && node !in done
    ensures Owing(children, indegree, done + {node}, children[node])
  {
    forall n | n in children
      ensures |Sources(children, n, done)|
              == |Sources(children, n, done + {node})| + (if n in children[node] then 1 else 0)
    {
      assert Sources(children, n, done)
          == Sources(children, n, done + {node}) + (if n in children[node] then {node} else {});
    }
  }

  lemma TakenOrder(children: Graph<TaskId>, done: set<TaskId>, rank: map<TaskId, nat>, node: TaskId)
    requires Ordered(children, done, rank) && node in children && node !in done
    requires Sources(children, node, done) == {}
    ensures Ordered(children, done + {node}, rank[node := |done|])
    ensures children[node] !! done + {node}
  {
    forall m | m in children && node in children[m] ensures m in done {
      assert m !in Sources(children, node, done);
    }
    assert node !in children[node];
  }

  lemma TakenQueue(children: Graph<TaskId>, indegree: map<TaskId, nat>, ready: seq<TaskId>, done: set<TaskId>)
    requires Queued(children, indegree, ready, done) && ready != [] && indegree.Keys == children.Keys
    ensures ready[0] in children && ready[0] !in done && indegree[ready[0]] == 0
    ensures Queued(children, indegree, ready[1..], done + {ready[0]})
  {
    assert ready[0] in ready;
    forall n ensures n in ready <==> n == ready[0] || n in ready[1..] {
      assert ready == [ready[0]] + ready[1..];
    }
    assert ready[0] !in ready[1..];
  }

  method PayOff(children: Graph<TaskId>, indegree: map<TaskId, nat>, ready: seq<TaskId>,
                ghost done: set<TaskId>, ghost owed: set<TaskId>, child: TaskId)
    returns (indegree': map<TaskId, nat>, ready': seq<TaskId>)
    requires Owing(children, indegree, done, owed) && Queued(children, indegree, ready, done)
    requires child in owed && child in children && child !in done
    ensures Owing(children, indegree', done, owed - {child}) && Queued(children, indegree', ready', done)
  {
    assert child !in ready;
    indegree' := indegree[child := indegree[child] - 1];
    assert indegree'.Keys == indegree.Keys;
    ready' := if indegree'[child] == 0 then ready + [child] else ready;
  }

  /** The tasks nothing feeds, in any order. */
  method Roots(indegree: map<TaskId, nat>) returns (ready: seq<TaskId>)
    ensures Distinct(ready)
    ensures forall n :: n in ready <==> n in indegree && indegree[n] == 0
  {
    ready := [];
    var unseen := indegree.Keys;
    while unseen != {}
      invariant unseen <= indegree.Keys && Distinct(ready)
      invariant forall n :: n in ready <==> n in indegree && n !in unseen && indegree[n] == 0
      decreases unseen
    {
      var n :| n in unseen;
      unseen := unseen - {n};
      if indegree[n] == 0 {
        ready := ready + [n];
      }
    }
  }

  /** Takes ready tasks until none is left; returns how many were taken: all of
   *  them exactly when no edges form a cycle. */
  method Search(children: Graph<TaskId>, indegree: map<TaskId, nat>, ready0: seq<TaskId>) returns (visited: nat)
    requires forall x :: x in children ==> children[x] <= children.Keys
    requires Owing(children, indegree, {}, {}) && Queued(children, indegree, ready0, {})
    ensures visited <= |children.Keys|
    ensures visited != |children.Keys| <==> exists p :: ClosedWalk(children, p)
  {
    var left, ready := indegree, ready0;
    ghost var done, rank: map<TaskId, nat> := {}, map[];
    visited := 0;
    while ready != []
      invariant Owing(children, left, done, {}) && Queued(children, left, ready, done)
      invariant Ordered(children, done, rank)
      invariant visited == |done|
      decreases children.Keys - done
    {
      var node := ready[0];
      TakenQueue(children, left, ready, done);
      assert Sources(children, node, done) == {};
      TakenCounts(children, left, done, node);
      TakenOrder(children, done, rank, node);
      ready, visited := ready[1..], visited + 1;
      rank, done := rank[node := |done|], done + {node};
      left, ready := PayAll(children, left, ready, done, node);
    }
    SubsetCardinality(done, children.Keys);
    SearchDecides(children, left, done, rank);
  }

  method PayAll(children: Graph<TaskId>, indegree0: map<TaskId, nat>, ready0: seq<TaskId>,
                ghost done: set<TaskId>, node: TaskId)
    returns (indegree: map<TaskId, nat>, ready: seq<TaskId>)
    requires node in children && children[node] <= children.Keys && children[node] !! done
    requires Owing(children, indegree0, done, children[node]) && Queued(children, indegree0, ready0, done)
    ensures Owing(children, indegree, done, {}) && Queued(children, indegree, ready, done)
  {
    indegree, ready := indegree0, ready0;
    var owed := children[node];
    while owed != {}
      invariant owed <= children[node]
      invariant Owing(children, indegree, done, owed) && Queued(children, indegree, ready, done)
      decreases owed
    {
      var child :| child in owed;
      indegree, ready := PayOff(children, indegree, ready, done, owed, child);
      owed := owed - {child};
    }
  }

  method CheckTaskGraph(scope: seq<Row>) returns (verdict: Verdict)
    ensures verdict == ScopeTooLarge <==> |scope| > MAX_TASK_SCOPE
    ensures |scope| <= MAX_TASK_SCOPE ==>
              (verdict == ScopeCycle <==> exists p :: ClosedWalk(EdgeGraph(Ids(scope), scope), p))
  {
    hide Owing, Queued, Ordered;
    var rows := if |scope| > MAX_TASK_SCOPE + 1 then scope[..MAX_TASK_SCOPE + 1] else scope;
    if |rows| > MAX_TASK_SCOPE {
      return ScopeTooLarge;
    }
    var children, indegree := BuildGraph(rows);
    var ready := Roots(indegree);
    var visited := Search(children, indegree, ready);
    verdict := if visited != |children.Keys| then ScopeCycle else Admitted;
  }

  /** The search took every task exactly when the edges are acyclic. */
  lemma SearchDecides(children: Graph<TaskId>, indegree: map<TaskId, nat>, done: set<TaskId>, rank: map<TaskId, nat>)
    requires forall x :: x in children ==> children[x] <= children.Keys
    requires Ordered(children, done, rank)
    requires Owing(children, indegree, done, {}) && Queued(children, indegree, [], done)
    ensures |done| != |children.Keys| <==> exists p :: ClosedWalk(children, p)
  {
    hide Owing, Queued;
    SubsetCardinality(done, children.Keys);
    if done == children.Keys {
      assert Ranked(children, rank);
      RankedAcyclic(children, rank);
    } else {
      Stuck(children, indegree, done);
    }
  }

  /** With nothing ready, every remaining task has a remaining source. */
  lemma Stuck(children: Graph<TaskId>, indegree: map<TaskId, nat>, done: set<TaskId>)
    requires Owing(children, indegree, done, {}) && Queued(children, indegree, [], done)
    requires done < children.Keys
    ensures exists p :: ClosedWalk(children, p)
  {
    hide Owing, Queued;
    var left := children.Keys - done;
    var x :| x in children.Keys && x !in done;
    assert x in left;
    forall n | n in left ensures Sources(children, n, done) != {} {
      StuckAt(children, indegree, done, n);
    }
    var pred := map n | n in left :: var m :| m in Sources(children, n, done); m;
    var p := PredecessorsCycle(children, left, pred);
  }

  lemma StuckAt(children: Graph<TaskId>, indegree: map<TaskId, nat>, done: set<TaskId>, n: TaskId)
    requires Owing(children, indegree, done, {}) && Queued(children, indegree, [], done)
    requires n in children && n !in done
    ensures Sources(children, n, done) != {}
  {
    assert n !in [];
    assert indegree[n] == |Sources(children, n, done)|;
  }
}
