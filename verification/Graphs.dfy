/** Finite directed graphs given by successor sets, and walks in them.
 *
 * Three components rest on this: the blocker graph of a board, the task graph
 * of a roster scope, and the "consumed the artifact of" graph of receipts.
 */
module Graphs {
  import opened Prelude

  type Graph<T> = map<T, set<T>>

  ghost function Succ<T(!new)>(g: Graph<T>, x: T): set<T> {
    if x in g then g[x] else {}
  }

  ghost predicate Walk<T(!new)>(g: Graph<T>, p: seq<T>) {
    p != [] && forall i {:trigger Succ(g, p[i])} :: 0 <= i < |p| - 1 ==> p[i + 1] in Succ(g, p[i])
  }

  ghost predicate WalkFromTo<T(!new)>(g: Graph<T>, p: seq<T>, a: T, b: T) {
    Walk(g, p) && p[0] == a && p[|p| - 1] == b
  }

  ghost predicate Reaches<T(!new)>(g: Graph<T>, a: T, b: T) {
    exists p :: WalkFromTo(g, p, a, b)
  }

  /** A walk along at least one edge back to where it began. */
  ghost predicate ClosedWalk<T(!new)>(g: Graph<T>, p: seq<T>) {
    |p| >= 2 && Walk(g, p) && p[0] == p[|p| - 1]
  }

  ghost predicate Acyclic<T(!new)>(g: Graph<T>) {
    forall p :: !ClosedWalk(g, p)
  }

  ghost predicate Subgraph<T(!new)>(g: Graph<T>, h: Graph<T>) {
    forall x :: Succ(g, x) <= Succ(h, x)
  }

  ghost predicate ClosedUnder<T(!new)>(g: Graph<T>, c: set<T>) {
    forall x :: x in c ==> Succ(g, x) <= c
  }

  lemma ClosedWalkLifts<T(!new)>(g: Graph<T>, h: Graph<T>, p: seq<T>)
    requires ClosedWalk(g, p)
    requires forall i :: 0 <= i < |p| - 1 ==> Succ(g, p[i]) <= Succ(h, p[i])
    ensures ClosedWalk(h, p)
  {
    forall i | 0 <= i < |p| - 1 ensures p[i + 1] in Succ(h, p[i]) {
      assert p[i + 1] in Succ(g, p[i]);
    }
  }

  lemma SubgraphAcyclic<T(!new)>(g: Graph<T>, h: Graph<T>)
    requires Subgraph(g, h) && Acyclic(h)
    ensures Acyclic(g)
  {
    if p :| ClosedWalk(g, p) {
      ClosedWalkLifts(g, h, p);
      assert false;
    }
  }

  /** A walk that starts in a closed set stays in it. */
  lemma {:induction false} ClosedKeepsWalks<T(!new)>(g: Graph<T>, c: set<T>, p: seq<T>)
    requires ClosedUnder(g, c) && Walk(g, p) && p[0] in c
    ensures forall i :: 0 <= i < |p| ==> p[i] in c
    decreases |p|
  {
    if |p| > 1 {
      ClosedKeepsWalks(g, c, p[..|p| - 1]);
      assert p[|p| - 2] == p[..|p| - 1][|p| - 2];
    }
  }

  lemma ReachesStep<T(!new)>(g: Graph<T>, a: T, b: T, c: T)
    requires Reaches(g, a, b) && c in Succ(g, b)
    ensures Reaches(g, a, c)
  {
    var p :| WalkFromTo(g, p, a, b);
    assert WalkFromTo(g, p + [c], a, c);
  }

  lemma ReachesSelf<T(!new)>(g: Graph<T>, a: T)
    ensures Reaches(g, a, a)
  {
    assert WalkFromTo(g, [a], a, a);
  }

  /** Changing only the out-edges of `n` closes a cycle exactly when one of the
   *  new successors leads back to `n`. */
  lemma RepointedAcyclic<T(!new)>(g: Graph<T>, h: Graph<T>, n: T)
    requires Acyclic(g)
    requires forall x :: x != n ==> Succ(h, x) == Succ(g, x)
    ensures Acyclic(h) <==> forall b :: b in Succ(h, n) ==> !Reaches(h, b, n)
  {
    if b :| b in Succ(h, n) && Reaches(h, b, n) {
      var p :| WalkFromTo(h, p, b, n);
      assert ClosedWalk(h, [n] + p);
    }
    if p :| ClosedWalk(h, p) {
      if i :| 0 <= i < |p| - 1 && p[i] == n {
        RotatedWalk(h, p, i);
      } else {
        ClosedWalkLifts(h, g, p);
        assert false;
      }
    }
  }

  lemma PartOfWalk<T(!new)>(g: Graph<T>, w: seq<T>, i: nat, j: nat)
    requires Walk(g, w) && i <= j < |w|
    ensures WalkFromTo(g, w[i..j + 1], w[i], w[j])
  {
    hide Succ;
    var p := w[i..j + 1];
    forall k | 0 <= k < |p| - 1 ensures p[k + 1] in Succ(g, p[k]) {
      assert p[k] == w[i + k] && p[k + 1] == w[i + k + 1];
    }
  }

  lemma JoinedWalk<T(!new)>(g: Graph<T>, v: seq<T>, w: seq<T>)
    requires Walk(g, v) && Walk(g, w) && w[0] in Succ(g, v[|v| - 1])
    ensures WalkFromTo(g, v + w, v[0], w[|w| - 1])
  {
    hide Succ;
    var p := v + w;
    forall k | 0 <= k < |p| - 1 ensures p[k + 1] in Succ(g, p[k]) {
      if k < |v| - 1 {
        assert p[k] == v[k] && p[k + 1] == v[k + 1];
      } else if k >= |v| {
        assert p[k] == w[k - |v|] && p[k + 1] == w[k - |v| + 1];
      }
    }
  }

  /** A closed walk through p[i], read from the step after p[i] around to it. */
  lemma RotatedWalk<T(!new)>(h: Graph<T>, p: seq<T>, i: nat)
    requires ClosedWalk(h, p) && i < |p| - 1
    ensures p[i + 1] in Succ(h, p[i]) && Reaches(h, p[i + 1], p[i])
  {
    var v := p[i + 1..];
    assert v == p[i + 1..|p| - 1 + 1];
    PartOfWalk(h, p, i + 1, |p| - 1);
    if i == 0 {
      assert WalkFromTo(h, v, p[1], p[0]);
    } else {
      assert p[1] in Succ(h, p[0]) by {
        assert p[0 + 1] in Succ(h, p[0]);
      }
      PartOfWalk(h, p, 1, i);
      JoinedWalk(h, v, p[1..i + 1]);
    }
  }

  ghost predicate Ranked<T(!new)>(g: Graph<T>, rank: map<T, nat>) {
    forall x, y :: y in Succ(g, x) ==> x in rank && y in rank && rank[x] < rank[y]
  }

  /** Ranks that grow along every edge rule out cycles. */
  lemma RankedAcyclic<T(!new)>(g: Graph<T>, rank: map<T, nat>)
    requires Ranked(g, rank)
    ensures Acyclic(g)
  {
    if p :| ClosedWalk(g, p) {
      RankGrows(g, rank, p, |p| - 1);
      assert false;
    }
  }

  lemma {:induction false} RankGrows<T(!new)>(g: Graph<T>, rank: map<T, nat>, p: seq<T>, k: nat)
    requires Ranked(g, rank) && Walk(g, p) && 1 <= k < |p|
    ensures p[0] in rank && p[k] in rank && rank[p[0]] < rank[p[k]]
  {
    assert p[k] in Succ(g, p[k - 1]) by {
      assert p[k - 1 + 1] in Succ(g, p[k - 1]);
    }
    assert rank[p[k - 1]] < rank[p[k]];
    if k > 1 {
      RankGrows(g, rank, p, k - 1);
    }
  }

  /** `pred` names, for every member of `u`, a predecessor inside `u`. */
  ghost predicate Predecessors<T(!new)>(g: Graph<T>, u: set<T>, pred: map<T, T>) {
    u <= pred.Keys && forall y {:trigger pred[y]} :: y in u ==> pred[y] in u && y in Succ(g, pred[y])
  }

  /** A non-empty finite set in which every member has a predecessor in the
   *  set contains a closed walk. */
  lemma PredecessorsCycle<T(!new)>(g: Graph<T>, u: set<T>, pred: map<T, T>) returns (p: seq<T>)
    requires u != {} && Predecessors(g, u, pred)
    ensures ClosedWalk(g, p) && forall x :: x in p ==> x in u
  {
    var w := LongWalk(g, u, pred, |u| + 1);
    var i, j := Repeats(w, u);
    p := w[i..j + 1];
    PartOfWalk(g, w, i, j);
    assert forall x :: x in p ==> x in w;
  }

  lemma {:induction false} LongWalk<T(!new)>(g: Graph<T>, u: set<T>, pred: map<T, T>, len: nat) returns (w: seq<T>)
    requires u != {} && len > 0 && Predecessors(g, u, pred)
    ensures |w| == len && Walk(g, w) && forall x :: x in w ==> x in u
  {
    if len == 1 {
      var x :| x in u;
      w := [x];
    } else {
      var rest := LongWalk(g, u, pred, len - 1);
      assert rest[0] in u;
      JoinedWalk(g, [pred[rest[0]]], rest);
      hide Walk, Succ;
      w := [pred[rest[0]]] + rest;
    }
  }
}
