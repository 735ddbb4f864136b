/** The SQL value semantics the prediction query relies on: NULL as `None`,
    AVG over a bag of ratings, null-strict division that fails on a zero
    divisor, and COALESCE. Ratings are exact reals, not floating point. */
module SqlValues {
  import opened Wrappers

  /** The one failure the prediction query can raise by itself: PostgreSQL
      rejects a division whose divisor is zero, and COALESCE does not catch
      an error, only a NULL. */
  datatype SqlError = DivisionByZero

  function Sum(xs: seq<real>): real
  {
    if xs == [] then 0.0 else xs[0] + Sum(xs[1..])
  }

  lemma {:induction false} SumAppend(xs: seq<real>, ys: seq<real>)
    ensures Sum(xs + ys) == Sum(xs) + Sum(ys)
  {
    if xs == [] {
      assert xs + ys == ys;
    } else {
      assert (xs + ys)[1..] == xs[1..] + ys;
      SumAppend(xs[1..], ys);
    }
  }

  /** The mean of a non-empty bag. */
  function Mean(xs: seq<real>): real
    requires xs != []
  {
    Sum(xs) / |xs| as real
  }

  /** `AVG(x)`: NULL over an empty bag, otherwise the mean of the bag. */
  function Avg(xs: seq<real>): (r: Option<real>)
    ensures r.None? <==> xs == []
    ensures r.Some? ==> r.value * |xs| as real == Sum(xs)
  {
    if xs == [] then None else Some(Mean(xs))
  }

  predicate AllWithin(xs: seq<real>, lo: real, hi: real)
  {
    forall i :: 0 <= i < |xs| ==> lo <= xs[i] <= hi
  }

  lemma {:induction false} SumWithin(xs: seq<real>, lo: real, hi: real)
    requires AllWithin(xs, lo, hi)
    ensures |xs| as real * lo <= Sum(xs) <= |xs| as real * hi
  {
    if xs != [] {
      var n := |xs| as real;
      assert AllWithin(xs[1..], lo, hi) by {
        forall i | 0 <= i < |xs| - 1
          ensures lo <= xs[1..][i] <= hi
        {
          assert xs[1..][i] == xs[i + 1];
        }
      }
      SumWithin(xs[1..], lo, hi);
      assert n * lo == lo + (n - 1.0) * lo;
      assert n * hi == hi + (n - 1.0) * hi;
    }
  }

  /** AVG of a non-empty bag of values within a scale stays within that scale. */
  lemma MeanWithin(xs: seq<real>, lo: real, hi: real)
    requires xs != []
    requires AllWithin(xs, lo, hi)
    ensures lo <= Mean(xs) <= hi
  {
    var n := |xs| as real;
    SumWithin(xs, lo, hi);
    assert Mean(xs) * n == Sum(xs);
  }

  /** `a / b` on nullable operands. The operator is strict: a NULL operand
      gives NULL without dividing, so only a non-NULL numerator over a zero
      divisor fails. */
  function Divide(a: Option<real>, b: Option<real>): (r: Result<Option<real>, SqlError>)
    ensures r.Err? <==> a.Some? && b == Some(0.0)
    ensures r.Ok? ==> (r.value.None? <==> a.None? || b.None?)
    ensures r.Ok? && r.value.Some? ==> r.value.value * b.value == a.value
  {
    if a.None? || b.None? then Ok(None)
    else if b.value == 0.0 then Err(DivisionByZero)
    else Ok(Some(a.value / b.value))
  }

  /** `COALESCE(x, fallback)` with a non-NULL fallback. */
  function Coalesce(x: Option<real>, fallback: real): real
  {
    x.GetOr(fallback)
  }
}
