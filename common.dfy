/**
 * Small generic building blocks shared by the session and the engine: an
 * option type for nullable slots and optional outcomes, the larger of two
 * numbers, and the total of a list of point values.
 */
module Common {

  datatype Option<T> = None | Some(value: T)

  /** The larger of two numbers. */
  function Max(a: int, b: int): (m: int)
    ensures m >= a && m >= b
    ensures m == a || m == b
  {
    if a >= b then a else b
  }

  /** The total of a list of point values. */
  function Sum(ps: seq<int>): int {
    if ps == [] then 0 else ps[0] + Sum(ps[1..])
  }

  lemma {:induction false} SumAppend(a: seq<int>, b: seq<int>)
    ensures Sum(a + b) == Sum(a) + Sum(b)
    decreases |a|
  {
    if a == [] {
      assert a + b == b;
    } else {
      assert (a + b)[1..] == a[1..] + b;
      SumAppend(a[1..], b);
    }
  }
}
