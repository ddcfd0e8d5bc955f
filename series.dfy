/**
 * Shared vocabulary of the analysis pipeline: optional values for the
 * positions where a pandas column holds NaN (or an infinity), results that
 * carry the pipeline's errors, and sums over a series of reals.
 */
module Series {

  /** A column entry: `None` stands for a NaN (warm-up gap or undefined value). */
  datatype Option<+T> = None | Some(value: T)

  /** An outcome that is either a value or one of the pipeline's errors. */
  datatype Result<+T, +E> = Success(value: T) | Failure(error: E)

  /** The ways the forecasting pipeline can refuse a symbol. */
  datatype PipelineError =
    | UnknownSymbol      // no price history was collected for the symbol
    | NoData             // the price history is empty
    | DegenerateRange    // every close is the same, so min-max scaling is undefined
    | InsufficientData   // too short to cut even one training window
    | NoFutureDays       // no future day asked for: mapping an empty prediction array back to prices fails

  /** Sum of a series, accumulated from the front as `sum()` does. */
  function Sum(s: seq<real>): real
    decreases |s|
  {
    if |s| == 0 then 0.0 else Sum(s[..|s| - 1]) + s[|s| - 1]
  }

  /** Sum of the squared pointwise differences of two series of equal length. */
  function SumSquaredError(a: seq<real>, b: seq<real>): real
    requires |a| == |b|
    decreases |a|
  {
    if |a| == 0 then 0.0
    else SumSquaredError(a[..|a| - 1], b[..|b| - 1])
         + (a[|a| - 1] - b[|b| - 1]) * (a[|a| - 1] - b[|b| - 1])
  }

  predicate AllEqual(s: seq<real>, v: real)
  {
    forall i :: 0 <= i < |s| ==> s[i] == v
  }

  predicate AllWithin(s: seq<real>, lo: real, hi: real)
  {
    forall i :: 0 <= i < |s| ==> lo <= s[i] <= hi
  }

  /** A sum of values in `[lo, hi]` lies between `|s| * lo` and `|s| * hi`. */
  lemma {:induction false} SumBounds(s: seq<real>, lo: real, hi: real)
    requires AllWithin(s, lo, hi)
    ensures |s| as real * lo <= Sum(s) <= |s| as real * hi
    decreases |s|
  {
    if |s| > 0 {
      var init, last := s[..|s| - 1], s[|s| - 1];
      assert AllWithin(init, lo, hi) && lo <= last <= hi;
      SumBounds(init, lo, hi);
      assert Sum(s) == Sum(init) + last;
      AddWithinBounds(|init| as real, Sum(init), last, lo, hi);
    }
  }

  /** Adding one more value in `[lo, hi]` to a total of `n` such values. */
  lemma AddWithinBounds(n: real, t: real, x: real, lo: real, hi: real)
    requires n * lo <= t <= n * hi && lo <= x <= hi
    ensures (n + 1.0) * lo <= t + x <= (n + 1.0) * hi
  {
  }

  /** A sum of non-negative values is zero exactly when every value is zero. */
  lemma {:induction false} SumNonNegativeZero(s: seq<real>)
    requires forall i :: 0 <= i < |s| ==> s[i] >= 0.0
    ensures Sum(s) >= 0.0
    ensures Sum(s) == 0.0 <==> AllEqual(s, 0.0)
    decreases |s|
  {
    if |s| > 0 {
      SumNonNegativeZero(s[..|s| - 1]);
      var init := s[..|s| - 1];
      if Sum(s) == 0.0 {
        forall i | 0 <= i < |s| ensures s[i] == 0.0 {
          if i < |s| - 1 { assert s[i] == init[i]; }
        }
      }
    }
  }

  /** The squared error is never negative, and it is zero when the two series agree. */
  lemma {:induction false} SumSquaredErrorNonNegative(a: seq<real>, b: seq<real>)
    requires |a| == |b|
    ensures SumSquaredError(a, b) >= 0.0
    ensures a == b ==> SumSquaredError(a, b) == 0.0
    decreases |a|
  {
    if |a| > 0 {
      var n := |a| - 1;
      SumSquaredErrorNonNegative(a[..n], b[..n]);
    }
  }
}
