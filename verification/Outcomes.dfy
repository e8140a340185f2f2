/** Small result types shared by the modules of the model. */
module Outcomes {
  datatype Option<+T> = None | Some(value: T)

  function Min(a: int, b: int): int { if a <= b then a else b }

  function Max(a: int, b: int): int { if a <= b then b else a }

  lemma Regroup<T>(a: seq<T>, b: seq<T>, c: seq<T>)
    ensures (a + b) + c == a + (b + c)
  {
  }

  /** Places in a sequence, in order and without repetition. */
  predicate Rising(at: seq<nat>) { forall a, b :: 0 <= a < b < |at| ==> at[a] < at[b] }

  lemma RisingAppend(at: seq<nat>, n: nat)
    requires Rising(at) && forall i :: i in at ==> i < n
    ensures Rising(at + [n]) && forall i :: i in at + [n] <==> i in at || i == n
  {
    assert forall a :: 0 <= a < |at| ==> at[a] in at;
  }
}
