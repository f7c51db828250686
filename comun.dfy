/** Small shared vocabulary: optional values, results with an error, and sums. */
module Comun {

  /** A value that may be absent (Python's `None`). */
  datatype Option<+T> = None | Some(value: T)

  /** The result of an operation that either yields a value or raises an error. */
  datatype Result<+T, +E> = Ok(value: T) | Err(error: E)

  /** Sum of a sequence of integers, taken from the front. */
  function Suma(s: seq<int>): int
  {
    if s == [] then 0 else s[0] + Suma(s[1..])
  }

  /** Appending one element adds it to the sum. */
  lemma {:induction false} SumaConcatUno(s: seq<int>, x: int)
    ensures Suma(s + [x]) == Suma(s) + x
  {
    if s == [] {
      assert [] + [x] == [x];
    } else {
      assert (s + [x])[1..] == s[1..] + [x];
      SumaConcatUno(s[1..], x);
    }
  }

  /** A non-empty sequence of positive integers has a positive sum. */
  lemma {:induction false} SumaPositiva(s: seq<int>)
    requires forall i :: 0 <= i < |s| ==> s[i] > 0
    ensures s == [] <==> Suma(s) == 0
    ensures Suma(s) >= 0
  {
    if s != [] {
      SumaPositiva(s[1..]);
    }
  }
}
