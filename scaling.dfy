/**
 * Min-max scaling of the closing prices into `[0, 1]` (feature range
 * `(0, 1)`), fitted once per symbol on its whole close column, and the
 * inverse mapping that turns scaled predictions back into prices.
 */
module Scaling {
  import opened Series

  /** The fitted range of one symbol's closes. */
  datatype Scaler = Scaler(dataMin: real, dataMax: real)

  function Min(s: seq<real>): (m: real)
    requires |s| > 0
    ensures forall i :: 0 <= i < |s| ==> m <= s[i]
    ensures exists i :: 0 <= i < |s| && m == s[i]
    decreases |s|
  {
    if |s| == 1 then s[0]
    else
      var m := Min(s[..|s| - 1]);
      assert forall i :: 0 <= i < |s| - 1 ==> s[..|s| - 1][i] == s[i];
      if s[|s| - 1] < m then s[|s| - 1] else m
  }

  function Max(s: seq<real>): (m: real)
    requires |s| > 0
    ensures forall i :: 0 <= i < |s| ==> s[i] <= m
    ensures exists i :: 0 <= i < |s| && m == s[i]
    decreases |s|
  {
    if |s| == 1 then s[0]
    else
      var m := Max(s[..|s| - 1]);
      assert forall i :: 0 <= i < |s| - 1 ==> s[..|s| - 1][i] == s[i];
      if s[|s| - 1] > m then s[|s| - 1] else m
  }

  /** A scaler that maps its range onto `[0, 1]` without dividing by zero. */
  predicate Valid(sc: Scaler)
  {
    sc.dataMin < sc.dataMax
  }

  /**
   * Fits the scaler to the closes: their minimum and maximum. An empty
   * column cannot be fitted, and a constant one has no range to scale by.
   */
  function Fit(values: seq<real>): (r: Result<Scaler, PipelineError>)
    ensures |values| == 0 ==> r == Failure(NoData)
    ensures |values| > 0 && AllEqual(values, values[0]) ==> r == Failure(DegenerateRange)
    ensures r.Success? <==> |values| > 0 && !AllEqual(values, values[0])
    ensures r.Success? ==> Valid(r.value) && AllWithin(values, r.value.dataMin, r.value.dataMax)
    ensures r.Success? ==> exists i, j :: 0 <= i < |values| && 0 <= j < |values|
                             && values[i] == r.value.dataMin && values[j] == r.value.dataMax
  {
    if |values| == 0 then Failure(NoData)
    else
      var lo, hi := Min(values), Max(values);
      if lo == hi then
        assert AllEqual(values, values[0]);
        Failure(DegenerateRange)
      else Success(Scaler(lo, hi))
  }

  /** `transform`: `(x - min) / (max - min)`. */
  function Transform(sc: Scaler, x: real): (y: real)
    requires Valid(sc)
    ensures y == 0.0 <==> x == sc.dataMin
    ensures y == 1.0 <==> x == sc.dataMax
  {
    DivByRange(x - sc.dataMin, sc.dataMax - sc.dataMin);
    (x - sc.dataMin) / (sc.dataMax - sc.dataMin)
  }

  /** `inverse_transform`: `y * (max - min) + min`. */
  function Inverse(sc: Scaler, y: real): (x: real)
    requires Valid(sc)
    ensures x == sc.dataMin <==> y == 0.0
    ensures x == sc.dataMax <==> y == 1.0
  {
    InverseEnds(y, sc.dataMin, sc.dataMax);
    y * (sc.dataMax - sc.dataMin) + sc.dataMin
  }

  /** A share of a positive range is 0 for nothing and 1 for the whole range. */
  lemma DivByRange(a: real, d: real)
    requires d > 0.0
    ensures a / d == 0.0 <==> a == 0.0
    ensures a / d == 1.0 <==> a == d
  {
    assert (a / d) * d == a;
  }

  /** Mapping `y` back onto `[lo, hi]` lands on `lo` exactly for 0 and on `hi` exactly for 1. */
  lemma InverseEnds(y: real, lo: real, hi: real)
    requires lo < hi
    ensures y * (hi - lo) + lo == lo <==> y == 0.0
    ensures y * (hi - lo) + lo == hi <==> y == 1.0
  {
    var d := hi - lo;
    ProductZero(y, d);
    ProductZero(y - 1.0, d);
    assert (y - 1.0) * d == y * d - d;
  }

  lemma ProductZero(a: real, d: real)
    requires d > 0.0
    ensures a * d == 0.0 <==> a == 0.0
  {
    if a > 0.0 {
      assert a * d > 0.0;
    } else if a < 0.0 {
      assert -a * d > 0.0;
    }
  }

  /** Scaling back a scaled value gives the original value. */
  lemma InverseOfTransform(sc: Scaler, x: real)
    requires Valid(sc)
    ensures Inverse(sc, Transform(sc, x)) == x
  {
  }

  /** Scaling a value that was scaled back gives the scaled value. */
  lemma TransformOfInverse(sc: Scaler, y: real)
    requires Valid(sc)
    ensures Transform(sc, Inverse(sc, y)) == y
  {
  }

  /** Values inside the fitted range land in `[0, 1]`, with the ends on 0 and 1. */
  lemma TransformInUnitInterval(sc: Scaler, x: real)
    requires Valid(sc)
    requires sc.dataMin <= x <= sc.dataMax
    ensures 0.0 <= Transform(sc, x) <= 1.0
    ensures Transform(sc, sc.dataMin) == 0.0 && Transform(sc, sc.dataMax) == 1.0
  {
    var d := sc.dataMax - sc.dataMin;
    DivWithin(x - sc.dataMin, d);
  }

  lemma DivWithin(a: real, d: real)
    requires d > 0.0 && 0.0 <= a <= d
    ensures 0.0 <= a / d <= 1.0
  {
  }

  /** Scaling keeps the order of prices strictly. */
  lemma TransformMonotone(sc: Scaler, x: real, y: real)
    requires Valid(sc)
    requires x < y
    ensures Transform(sc, x) < Transform(sc, y)
  {
    var d := sc.dataMax - sc.dataMin;
    DivMonotone(x - sc.dataMin, y - sc.dataMin, d);
  }

  lemma DivMonotone(a: real, b: real, d: real)
    requires d > 0.0 && a < b
    ensures a / d < b / d
  {
  }

  /** `fit_transform` / `inverse_transform` on a whole column. */
  function TransformAll(sc: Scaler, xs: seq<real>): (ys: seq<real>)
    requires Valid(sc)
    ensures |ys| == |xs|
    ensures forall i :: 0 <= i < |xs| ==> ys[i] == Transform(sc, xs[i])
  {
    seq(|xs|, i requires 0 <= i < |xs| => Transform(sc, xs[i]))
  }

  function InverseAll(sc: Scaler, ys: seq<real>): (xs: seq<real>)
    requires Valid(sc)
    ensures |xs| == |ys|
    ensures forall i :: 0 <= i < |ys| ==> xs[i] == Inverse(sc, ys[i])
  {
    seq(|ys|, i requires 0 <= i < |ys| => Inverse(sc, ys[i]))
  }

  /** Scaling a column and scaling it back returns the column. */
  lemma ColumnRoundTrip(sc: Scaler, xs: seq<real>)
    requires Valid(sc)
    ensures InverseAll(sc, TransformAll(sc, xs)) == xs
  {
    forall i | 0 <= i < |xs| ensures InverseAll(sc, TransformAll(sc, xs))[i] == xs[i] {
      InverseOfTransform(sc, xs[i]);
    }
  }

  /** A column that holds `lo` and `hi` and lies between them is fitted to exactly that range. */
  lemma FitOfBounds(values: seq<real>, i: nat, j: nat, lo: real, hi: real)
    requires i < |values| && j < |values| && values[i] == lo && values[j] == hi && lo < hi
    requires AllWithin(values, lo, hi)
    ensures Fit(values) == Success(Scaler(lo, hi))
  {
    assert values[j] != values[0] || values[i] != values[0];
    var sc := Fit(values).value;
    var p, q :| 0 <= p < |values| && 0 <= q < |values| && values[p] == sc.dataMin && values[q] == sc.dataMax;
    assert lo <= values[p] && values[q] <= hi;
  }

  /** The column the scaler was fitted on is mapped into `[0, 1]`. */
  lemma FittedColumnInUnitInterval(values: seq<real>)
    requires Fit(values).Success?
    ensures AllWithin(TransformAll(Fit(values).value, values), 0.0, 1.0)
  {
    var sc := Fit(values).value;
    forall i | 0 <= i < |values| ensures 0.0 <= TransformAll(sc, values)[i] <= 1.0 {
      TransformInUnitInterval(sc, values[i]);
    }
  }
}
