/** Small stock definitions shared by every component. */
module Prelude {

  datatype Option<+T> = None | Some(value: T)

  /** A refused write carries an error; the caller keeps the old state. */
  datatype Result<+T, +E> = Ok(value: T) | Err(error: E) {
    predicate IsFailure() {
      Err?
    }

    function PropagateFailure<U>(): Result<U, E>
      requires Err?
    {
      Err(error)
    }

    function Extract(): T
      requires Ok?
    {
      value
    }
  }

  function ToSet<T>(s: seq<T>): set<T> {
    set x | x in s
  }

  ghost predicate Distinct<T(!new)>(s: seq<T>) {
    forall i, j :: 0 <= i < j < |s| ==> s[i] != s[j]
  }

  lemma {:induction false} SubsetCardinality<T>(a: set<T>, b: set<T>)
    requires a <= b
    ensures |a| <= |b|
    ensures |a| == |b| ==> a == b
    decreases b
  {
    if x :| x in b {
      if x in a {
        SubsetCardinality(a - {x}, b - {x});
        assert a == a - {x} + {x} && b == b - {x} + {x};
      } else {
        SubsetCardinality(a, b - {x});
      }
    }
  }

  /** A repetition-free sequence is no longer than the set it draws from. */
  lemma {:induction false} DistinctFits<T(!new)>(s: seq<T>, within: set<T>)
    requires Distinct(s)
    requires forall x :: x in s ==> x in within
    ensures |s| <= |within|
  {
    if s != [] {
      var last := s[|s| - 1];
      var rest := s[..|s| - 1];
      assert forall x :: x in rest ==> x in within - {last};
      DistinctFits(rest, within - {last});
    }
  }

  /** Pigeonhole: a sequence longer than the set it draws from repeats. */
  lemma Repeats<T(!new)>(s: seq<T>, within: set<T>) returns (i: nat, j: nat)
    requires forall x :: x in s ==> x in within
    requires |s| > |within|
    ensures i < j < |s| && s[i] == s[j]
  {
    if Distinct(s) {
      DistinctFits(s, within);
      assert false;
    }
    i, j :| 0 <= i < j < |s| && s[i] == s[j];
  }

  lemma UnionsGroup<T>(a: set<T>, b: set<T>, c: set<T>)
    ensures a + b + c == a + (b + c)
  {
  }

  lemma UpdatedTwice<K, V>(m: map<K, V>, k: K, v: V, w: V)
    ensures m[k := v][k := w] == m[k := w]
  {
  }

  lemma UpdatedLast<K, V>(m: map<K, V>, l: map<K, V>, k: K, v: V)
    ensures m + l[k := v] == (m + l)[k := v]
  {
  }
}
