/** Sequences without repetition, and regrouping. */
module Sequences {

  predicate Distinct<T(==)>(q: seq<T>) {
    forall i, j | 0 <= i < j < |q| :: q[i] != q[j]
  }

  lemma RemovedAt<T>(q: seq<T>, i: nat)
    requires i < |q| && Distinct(q)
    ensures Distinct(q[..i] + q[i + 1..]) && q[i] !in q[..i] + q[i + 1..]
  {
  }

  /** Concatenation is associative. */
  lemma Regroup<T>(a: seq<T>, b: seq<T>, c: seq<T>)
    ensures (a + b) + c == a + (b + c)
  {
  }
}
