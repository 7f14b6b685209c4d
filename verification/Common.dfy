/** Value types and small arithmetic shared by every module of the model. */
module Common {

  /** Security codes; only equality and order are ever used. */
  type Symbol = int

  /** Calendar days, as ordered ordinals. */
  type Date = int

  /** Points in time, normalised to UTC. */
  type Timestamp = int

  type Industry = string

  datatype Option<+T> = None | Some(value: T)

  datatype Result<+T, +E> = Ok(value: T) | Err(error: E)

  datatype Side = Buy | Sell

  function Max(a: real, b: real): real {
    if a >= b then a else b
  }

  function Min(a: real, b: real): real {
    if a <= b then a else b
  }

  function Sum(xs: seq<real>): real {
    if xs == [] then 0.0 else xs[0] + Sum(xs[1..])
  }

  ghost predicate AllPositive(xs: seq<real>) {
    forall i | 0 <= i < |xs| :: xs[i] > 0.0
  }

  lemma {:induction false} SumConcat(xs: seq<real>, ys: seq<real>)
    ensures Sum(xs + ys) == Sum(xs) + Sum(ys)
  {
    if xs == [] {
      assert xs + ys == ys;
    } else {
      SumConcat(xs[1..], ys);
      assert (xs + ys)[1..] == xs[1..] + ys;
    }
  }

  /** A product of a non-negative and a larger factor grows with the factor. */
  lemma MulMonotone(a: real, b: real, c: real)
    requires a <= b && c >= 0.0
    ensures a * c <= b * c
  {
    assert b * c - a * c == (b - a) * c;
  }
}
