/**
 * The technical-indicator columns derived from the closing prices of one
 * symbol: simple and exponential moving averages, MACD, RSI, Bollinger
 * bands and momentum. Every column has one entry per bar; `None` marks the
 * positions that hold NaN (the warm-up gap of a rolling window, or a value
 * that is undefined because of a division by zero).
 */
module Indicators {
  import opened Series

  // ---------------------------------------------------------------------
  // Simple moving average (`rolling(window=w).mean()`)
  // ---------------------------------------------------------------------

  /** The `w` values of `x` that end at index `i`. */
  function TrailingWindow(x: seq<real>, w: nat, i: nat): (win: seq<real>)
    requires 1 <= w && w - 1 <= i < |x|
    ensures |win| == w
    ensures forall k :: 0 <= k < w ==> win[k] == x[i + 1 - w + k]
  {
    x[i + 1 - w .. i + 1]
  }

  /** The rolling mean over a window of `w` bars; undefined until `w` bars exist. */
  function RollingMean(x: seq<real>, w: nat): (r: seq<Option<real>>)
    requires w >= 1
    ensures |r| == |x|
    ensures forall i :: 0 <= i < |x| ==> (r[i].Some? <==> i >= w - 1)
  {
    seq(|x|, i requires 0 <= i < |x| =>
      if i < w - 1 then None else Some(Sum(TrailingWindow(x, w, i)) / (w as real)))
  }

  /** Where defined, the rolling mean lies between the bounds of its window. */
  lemma RollingMeanWithinWindow(x: seq<real>, w: nat, i: nat, lo: real, hi: real)
    requires w >= 1 && w - 1 <= i < |x|
    requires AllWithin(TrailingWindow(x, w, i), lo, hi)
    ensures RollingMean(x, w)[i].Some?
    ensures lo <= RollingMean(x, w)[i].value <= hi
  {
    var win := TrailingWindow(x, w, i);
    SumBounds(win, lo, hi);
    MeanBetween(Sum(win), w as real, lo, hi);
  }

  /** Dividing a sum of `n` values in `[lo, hi]` by `n` lands in `[lo, hi]`. */
  lemma MeanBetween(total: real, n: real, lo: real, hi: real)
    requires n > 0.0
    requires n * lo <= total <= n * hi
    ensures lo <= total / n <= hi
  {
  }

  /** The rolling mean of a constant series is that constant wherever it is defined. */
  lemma RollingMeanOfConstant(x: seq<real>, w: nat, v: real)
    requires w >= 1
    requires AllEqual(x, v)
    ensures forall i :: w - 1 <= i < |x| ==> RollingMean(x, w)[i] == Some(v)
  {
    forall i | w - 1 <= i < |x|
      ensures RollingMean(x, w)[i] == Some(v)
    {
      RollingMeanWithinWindow(x, w, i, v, v);
    }
  }

  // ---------------------------------------------------------------------
  // Exponential moving average (`ewm(span=s, adjust=False).mean()`)
  // ---------------------------------------------------------------------

  /** The smoothing factor `2 / (span + 1)` of an exponential average. */
  function Smoothing(span: nat): (alpha: real)
    requires span >= 1
    ensures 0.0 < alpha <= 1.0
  {
    2.0 / (span as real + 1.0)
  }

  /**
   * The exponential moving average without bias adjustment: seeded with the
   * first value, then each entry moves from the previous one towards the
   * new value by the fraction `alpha`.
   */
  function Ema(x: seq<real>, alpha: real): (r: seq<real>)
    ensures |r| == |x|
    decreases |x|
  {
    if |x| == 0 then []
    else if |x| == 1 then [x[0]]
    else
      var prev := Ema(x[..|x| - 1], alpha);
      prev + [alpha * x[|x| - 1] + (1.0 - alpha) * prev[|x| - 2]]
  }

  /** The average of a prefix is the prefix of the average: no entry looks ahead. */
  lemma {:induction false} EmaPrefix(x: seq<real>, alpha: real, m: nat)
    requires m <= |x|
    ensures Ema(x[..m], alpha) == Ema(x, alpha)[..m]
    decreases |x|
  {
    if m < |x| {
      var init := x[..|x| - 1];
      EmaPrefix(init, alpha, m);
      assert init[..m] == x[..m];
    } else {
      assert x[..m] == x;
    }
  }

  /** The recurrence the exponential average satisfies at every index. */
  lemma EmaRecurrence(x: seq<real>, alpha: real, i: nat)
    requires i < |x|
    ensures Ema(x, alpha)[0] == x[0]
    ensures i >= 1 ==> Ema(x, alpha)[i] == alpha * x[i] + (1.0 - alpha) * Ema(x, alpha)[i - 1]
  {
    EmaPrefix(x, alpha, 1);
    assert x[..1] == [x[0]];
    if i >= 1 {
      EmaAt(x, alpha, i);
    }
  }

  /** One step of the recurrence at index `i`, by induction on the length of the series. */
  lemma {:induction false} EmaAt(x: seq<real>, alpha: real, i: nat)
    requires 1 <= i < |x|
    ensures Ema(x, alpha)[i] == alpha * x[i] + (1.0 - alpha) * Ema(x, alpha)[i - 1]
    decreases |x|
  {
    var n := |x| - 1;
    var init := x[..n];
    EmaStep(x, alpha);
    var e, before := Ema(x, alpha), Ema(init, alpha);
    assert e[i - 1] == before[i - 1];
    if i == n {
      LinearStep(e[i], alpha, x[n], before[n - 1], x[i], e[i - 1]);
    } else {
      EmaAt(init, alpha, i);
      assert e[i] == before[i];
      LinearStep(before[i], alpha, init[i], before[i - 1], x[i], e[i - 1]);
    }
  }

  /** Replacing both inputs of an averaging step by equal values keeps the result. */
  lemma LinearStep(c: real, alpha: real, a: real, b: real, a': real, b': real)
    requires c == alpha * a + (1.0 - alpha) * b
    requires a == a' && b == b'
    ensures c == alpha * a' + (1.0 - alpha) * b'
  {
  }

  /** A constant series has a constant exponential average. */
  lemma {:induction false} EmaOfConstant(x: seq<real>, alpha: real, v: real)
    requires AllEqual(x, v)
    ensures AllEqual(Ema(x, alpha), v)
    decreases |x|
  {
    if |x| > 1 {
      var init := x[..|x| - 1];
      EmaOfConstant(init, alpha, v);
      EmaPrefix(x, alpha, |x| - 1);
      EmaLastOfConstant(x, alpha, v);
      forall i | 0 <= i < |x| ensures Ema(x, alpha)[i] == v {
        if i < |x| - 1 { assert Ema(x, alpha)[i] == Ema(init, alpha)[i]; }
      }
    }
  }

  /** The last step of the average keeps a constant value. */
  lemma EmaLastOfConstant(x: seq<real>, alpha: real, v: real)
    requires |x| >= 2 && x[|x| - 1] == v
    requires Ema(x[..|x| - 1], alpha)[|x| - 2] == v
    ensures Ema(x, alpha)[|x| - 1] == v
  {
    EmaStep(x, alpha);
    assert alpha * v + (1.0 - alpha) * v == v;
  }

  /** With `0 <= alpha <= 1` the exponential average stays within the bounds of its input. */
  lemma {:induction false} EmaWithinRange(x: seq<real>, alpha: real, lo: real, hi: real)
    requires 0.0 <= alpha <= 1.0
    requires AllWithin(x, lo, hi)
    ensures AllWithin(Ema(x, alpha), lo, hi)
    decreases |x|
  {
    if |x| > 1 {
      var init := x[..|x| - 1];
      EmaWithinRange(init, alpha, lo, hi);
      EmaPrefix(x, alpha, |x| - 1);
      EmaLastWithin(x, alpha, lo, hi);
      forall i | 0 <= i < |x| ensures lo <= Ema(x, alpha)[i] <= hi {
        if i < |x| - 1 { assert Ema(x, alpha)[i] == Ema(init, alpha)[i]; }
      }
    }
  }

  /** The last step of the average moves between two values inside `[lo, hi]`. */
  lemma EmaLastWithin(x: seq<real>, alpha: real, lo: real, hi: real)
    requires |x| >= 2 && 0.0 <= alpha <= 1.0
    requires lo <= x[|x| - 1] <= hi
    requires lo <= Ema(x[..|x| - 1], alpha)[|x| - 2] <= hi
    ensures lo <= Ema(x, alpha)[|x| - 1] <= hi
  {
    var a, b := x[|x| - 1], Ema(x[..|x| - 1], alpha)[|x| - 2];
    EmaStep(x, alpha);
    ConvexBetween(a, b, alpha, lo, hi, Ema(x, alpha)[|x| - 1]);
  }

  /** A convex combination of two values in `[lo, hi]` is in `[lo, hi]`. */
  lemma ConvexBetween(a: real, b: real, alpha: real, lo: real, hi: real, c: real)
    requires 0.0 <= alpha <= 1.0
    requires lo <= a <= hi && lo <= b <= hi
    requires c == alpha * a + (1.0 - alpha) * b
    ensures lo <= c <= hi
  {
    MulNonNegative(alpha, a - lo);
    MulNonNegative(1.0 - alpha, b - lo);
    MulNonNegative(alpha, hi - a);
    MulNonNegative(1.0 - alpha, hi - b);
    assert alpha * a + (1.0 - alpha) * b - lo == alpha * (a - lo) + (1.0 - alpha) * (b - lo);
    assert hi - (alpha * a + (1.0 - alpha) * b) == alpha * (hi - a) + (1.0 - alpha) * (hi - b);
  }

  lemma MulNonNegative(p: real, q: real)
    requires p >= 0.0 && q >= 0.0
    ensures p * q >= 0.0
  {
  }

  /** Unfolds one step of the exponential average at its last index. */
  lemma EmaStep(x: seq<real>, alpha: real)
    requires |x| >= 2
    ensures Ema(x, alpha)[..|x| - 1] == Ema(x[..|x| - 1], alpha)
    ensures Ema(x, alpha)[|x| - 1]
            == alpha * x[|x| - 1] + (1.0 - alpha) * Ema(x[..|x| - 1], alpha)[|x| - 2]
  {
  }

  // ---------------------------------------------------------------------
  // MACD
  // ---------------------------------------------------------------------

  /** `MACD`: the 12-span exponential average minus the 26-span one. */
  function Macd(close: seq<real>): (r: seq<real>)
    ensures |r| == |close|
  {
    var fast := Ema(close, Smoothing(12));
    var slow := Ema(close, Smoothing(26));
    seq(|close|, i requires 0 <= i < |close| => fast[i] - slow[i])
  }

  /** `MACD_Signal`: the 9-span exponential average of the MACD line. */
  function MacdSignal(close: seq<real>): (r: seq<real>)
    ensures |r| == |close|
  {
    Ema(Macd(close), Smoothing(9))
  }

  /** `MACD_Hist`: how far the MACD line is above its signal line. */
  function MacdHistogram(close: seq<real>): (r: seq<real>)
    ensures |r| == |close|
  {
    var macd := Macd(close);
    var signal := MacdSignal(close);
    seq(|close|, i requires 0 <= i < |close| => macd[i] - signal[i])
  }

  /** A flat price series has a flat zero MACD, signal line and histogram. */
  lemma MacdOfConstant(close: seq<real>, v: real)
    requires AllEqual(close, v)
    ensures AllEqual(Macd(close), 0.0)
    ensures AllEqual(MacdSignal(close), 0.0)
    ensures AllEqual(MacdHistogram(close), 0.0)
  {
    EmaOfConstant(close, Smoothing(12), v);
    EmaOfConstant(close, Smoothing(26), v);
    EmaOfConstant(Macd(close), Smoothing(9), 0.0);
  }

  /** The MACD columns of a prefix are the prefixes of the MACD columns: none looks ahead. */
  lemma MacdPrefix(close: seq<real>, m: nat)
    requires m <= |close|
    ensures Macd(close[..m]) == Macd(close)[..m]
    ensures MacdSignal(close[..m]) == MacdSignal(close)[..m]
    ensures MacdHistogram(close[..m]) == MacdHistogram(close)[..m]
  {
    EmaPrefix(close, Smoothing(12), m);
    EmaPrefix(close, Smoothing(26), m);
    assert Macd(close[..m]) == Macd(close)[..m];
    EmaPrefix(Macd(close), Smoothing(9), m);
  }

  // ---------------------------------------------------------------------
  // RSI
  // ---------------------------------------------------------------------

  /**
   * The upward move into each bar (`delta.where(delta > 0, 0)`). The first
   * bar's delta is NaN, which fails the test and so is replaced by 0.
   */
  function Gain(close: seq<real>): (r: seq<real>)
    ensures |r| == |close|
    ensures forall i :: 0 <= i < |r| ==> r[i] >= 0.0
  {
    seq(|close|, i requires 0 <= i < |close| =>
      if i > 0 && close[i] - close[i - 1] > 0.0 then close[i] - close[i - 1] else 0.0)
  }

  /** The downward move into each bar (`-delta.where(delta < 0, 0)`), 0 at the first bar. */
  function Loss(close: seq<real>): (r: seq<real>)
    ensures |r| == |close|
    ensures forall i :: 0 <= i < |r| ==> r[i] >= 0.0
  {
    seq(|close|, i requires 0 <= i < |close| =>
      if i > 0 && close[i] - close[i - 1] < 0.0 then -(close[i] - close[i - 1]) else 0.0)
  }

  /** Gain and loss split each price move into its up and down part; at most one is nonzero. */
  lemma GainLossSplit(close: seq<real>, i: nat)
    requires 1 <= i < |close|
    ensures Gain(close)[i] - Loss(close)[i] == close[i] - close[i - 1]
    ensures Gain(close)[i] == 0.0 || Loss(close)[i] == 0.0
    ensures Gain(close)[i] == 0.0 && Loss(close)[i] == 0.0 <==> close[i] == close[i - 1]
  {
  }

  /** The RSI window length. */
  const RsiWindow: nat := 14

  /**
   * `100 - 100 / (1 + rs)` with `rs = avgGain / avgLoss`, evaluated as
   * IEEE-754 floats do: a zero average loss makes `rs` infinite and the
   * value 100 when there was any gain, and NaN when there was none.
   */
  function RsiValue(avgGain: real, avgLoss: real): (r: Option<real>)
    ensures avgGain >= 0.0 && avgLoss >= 0.0 ==> (r.Some? <==> avgGain + avgLoss > 0.0)
    ensures avgLoss == 0.0 < avgGain ==> r == Some(100.0)
  {
    if avgLoss == 0.0 then
      (if avgGain == 0.0 then None else Some(100.0))
    else
      var rs := avgGain / avgLoss;
      if 1.0 + rs == 0.0 then None else Some(100.0 - 100.0 / (1.0 + rs))
  }

  /**
   * For non-negative averages, the RSI is defined unless both averages are
   * zero, and then it equals the share of gain in the total movement,
   * `100 * avgGain / (avgGain + avgLoss)`: 100 with no loss, below 100 otherwise.
   */
  lemma RsiShareOfGain(avgGain: real, avgLoss: real)
    requires avgGain >= 0.0 && avgLoss >= 0.0
    ensures RsiValue(avgGain, avgLoss).Some? <==> avgGain + avgLoss > 0.0
    ensures RsiValue(avgGain, avgLoss).Some? ==>
              RsiValue(avgGain, avgLoss).value == 100.0 * avgGain / (avgGain + avgLoss)
    ensures avgLoss > 0.0 ==> 0.0 <= RsiValue(avgGain, avgLoss).value < 100.0
    ensures avgLoss == 0.0 < avgGain ==> RsiValue(avgGain, avgLoss).value == 100.0
  {
    if avgLoss > 0.0 {
      var rs := avgGain / avgLoss;
      RatioNonNegative(avgGain, avgLoss);
      RsiFormula(avgGain, avgLoss);
    }
  }

  lemma RatioNonNegative(a: real, b: real)
    requires a >= 0.0 && b > 0.0
    ensures a / b >= 0.0
  {
  }

  lemma DivDifference(a: real, b: real, t: real)
    requires t != 0.0
    ensures a / t - b / t == (a - b) / t
  {
  }

  lemma DivBelow(a: real, b: real, t: real)
    requires t > 0.0 && a < b
    ensures a / t < b / t
  {
  }

  /** `100 - 100 / (1 + g/l)` rewritten as `100 g / (g + l)`, and its range. */
  lemma RsiFormula(g: real, l: real)
    requires g >= 0.0 && l > 0.0
    ensures 100.0 - 100.0 / (1.0 + g / l) == 100.0 * g / (g + l)
    ensures 0.0 <= 100.0 - 100.0 / (1.0 + g / l) < 100.0
  {
    var t := g + l;
    DivDifference(t, l, l);
    assert l / l == 1.0;
    assert 1.0 + g / l == t / l;
    assert 100.0 / (t / l) == 100.0 * l / t;
    assert 100.0 == 100.0 * t / t;
    DivDifference(100.0 * t, 100.0 * l, t);
    assert 100.0 * t - 100.0 * l == 100.0 * g;
    RatioNonNegative(100.0 * g, t);
    DivBelow(100.0 * g, 100.0 * t, t);
  }

  /** `RSI`: from the 14-bar rolling means of gain and loss. */
  function Rsi(close: seq<real>): (r: seq<Option<real>>)
    ensures |r| == |close|
    ensures forall i :: 0 <= i < |close| && i < RsiWindow - 1 ==> r[i].None?
  {
    var avgGain := RollingMean(Gain(close), RsiWindow);
    var avgLoss := RollingMean(Loss(close), RsiWindow);
    seq(|close|, i requires 0 <= i < |close| =>
      if avgGain[i].Some? && avgLoss[i].Some? then RsiValue(avgGain[i].value, avgLoss[i].value)
      else None)
  }

  /** Every RSI value that is defined lies in `[0, 100]`. */
  lemma RsiInRange(close: seq<real>, i: nat)
    requires i < |close|
    requires Rsi(close)[i].Some?
    ensures 0.0 <= Rsi(close)[i].value <= 100.0
  {
    var gain, loss := Gain(close), Loss(close);
    RollingMeanNonNegative(gain, RsiWindow, i);
    RollingMeanNonNegative(loss, RsiWindow, i);
    var g, l := RollingMean(gain, RsiWindow)[i].value, RollingMean(loss, RsiWindow)[i].value;
    RsiShareOfGain(g, l);
  }

  /**
   * The RSI is undefined exactly during its warm-up and where the price did
   * not move over the whole 14-bar window.
   */
  lemma RsiUndefinedWhenFlat(close: seq<real>, i: nat)
    requires RsiWindow - 1 <= i < |close|
    ensures Rsi(close)[i].None? <==> FlatOver(close, i + 1 - RsiWindow, i)
  {
    var gain, loss := Gain(close), Loss(close);
    var gw, lw := TrailingWindow(gain, RsiWindow, i), TrailingWindow(loss, RsiWindow, i);
    MeanZeroIffAllZero(gain, i);
    MeanZeroIffAllZero(loss, i);
    RollingMeanNonNegative(gain, RsiWindow, i);
    RollingMeanNonNegative(loss, RsiWindow, i);
    var g, l := RollingMean(gain, RsiWindow)[i].value, RollingMean(loss, RsiWindow)[i].value;
    RsiShareOfGain(g, l);
    assert Rsi(close)[i] == RsiValue(g, l);
    NoMovementIffFlat(close, i);
  }

  /** The closes do not move anywhere in bars `from..to` (a move into bar 0 does not exist). */
  predicate FlatOver(close: seq<real>, from: nat, to: nat)
    requires to < |close|
  {
    forall j :: from <= j <= to && j >= 1 ==> close[j] == close[j - 1]
  }

  /** Gains and losses over a window are all zero exactly when the price is flat over it. */
  lemma NoMovementIffFlat(close: seq<real>, i: nat)
    requires RsiWindow - 1 <= i < |close|
    ensures AllEqual(TrailingWindow(Gain(close), RsiWindow, i), 0.0)
            && AllEqual(TrailingWindow(Loss(close), RsiWindow, i), 0.0)
            <==> FlatOver(close, i + 1 - RsiWindow, i)
  {
    if FlatOver(close, i + 1 - RsiWindow, i) {
      FlatGivesNoMovement(close, i);
    }
    if AllEqual(TrailingWindow(Gain(close), RsiWindow, i), 0.0)
       && AllEqual(TrailingWindow(Loss(close), RsiWindow, i), 0.0) {
      NoMovementGivesFlat(close, i);
    }
  }

  lemma FlatGivesNoMovement(close: seq<real>, i: nat)
    requires RsiWindow - 1 <= i < |close|
    requires FlatOver(close, i + 1 - RsiWindow, i)
    ensures AllEqual(TrailingWindow(Gain(close), RsiWindow, i), 0.0)
    ensures AllEqual(TrailingWindow(Loss(close), RsiWindow, i), 0.0)
  {
    var gw, lw := TrailingWindow(Gain(close), RsiWindow, i), TrailingWindow(Loss(close), RsiWindow, i);
    var from := i + 1 - RsiWindow;
    forall k | 0 <= k < RsiWindow ensures gw[k] == 0.0 && lw[k] == 0.0 {
      assert gw[k] == Gain(close)[from + k] && lw[k] == Loss(close)[from + k];
      if from + k >= 1 { GainLossSplit(close, from + k); }
    }
  }

  lemma NoMovementGivesFlat(close: seq<real>, i: nat)
    requires RsiWindow - 1 <= i < |close|
    requires AllEqual(TrailingWindow(Gain(close), RsiWindow, i), 0.0)
    requires AllEqual(TrailingWindow(Loss(close), RsiWindow, i), 0.0)
    ensures FlatOver(close, i + 1 - RsiWindow, i)
  {
    var gw, lw := TrailingWindow(Gain(close), RsiWindow, i), TrailingWindow(Loss(close), RsiWindow, i);
    var from := i + 1 - RsiWindow;
    forall j | from <= j <= i && j >= 1 ensures close[j] == close[j - 1] {
      assert gw[j - from] == Gain(close)[j] && lw[j - from] == Loss(close)[j];
      GainLossSplit(close, j);
    }
  }

  /** A 14-bar mean of non-negative values is zero exactly when the whole window is zero. */
  lemma MeanZeroIffAllZero(x: seq<real>, i: nat)
    requires RsiWindow - 1 <= i < |x|
    requires forall j :: 0 <= j < |x| ==> x[j] >= 0.0
    ensures RollingMean(x, RsiWindow)[i].Some?
    ensures RollingMean(x, RsiWindow)[i].value == 0.0 <==> AllEqual(TrailingWindow(x, RsiWindow, i), 0.0)
  {
    var win := TrailingWindow(x, RsiWindow, i);
    SumNonNegativeZero(win);
    assert RollingMean(x, RsiWindow)[i].value == Sum(win) / 14.0;
  }

  /** A rolling mean of non-negative values is non-negative where defined. */
  lemma RollingMeanNonNegative(x: seq<real>, w: nat, i: nat)
    requires w >= 1 && i < |x|
    requires forall j :: 0 <= j < |x| ==> x[j] >= 0.0
    ensures RollingMean(x, w)[i].Some? ==> RollingMean(x, w)[i].value >= 0.0
  {
    if i >= w - 1 {
      var win := TrailingWindow(x, w, i);
      SumNonNegativeZero(win);
      RatioNonNegative(Sum(win), w as real);
    }
  }

  // ---------------------------------------------------------------------
  // Bollinger bands
  // ---------------------------------------------------------------------

  /** The Bollinger columns: middle band, upper and lower band, and band width. */
  datatype Bands = Bands(
    middle: seq<Option<real>>,
    upper: seq<Option<real>>,
    lower: seq<Option<real>>,
    width: seq<Option<real>>)

  /** The rolling standard deviation at `i`, as supplied by the caller; missing entries are NaN. */
  function StdAt(std: seq<Option<real>>, i: nat): Option<real>
  {
    if i < |std| then std[i] else None
  }

  /**
   * Bollinger bands around the 20-bar mean, two rolling standard deviations
   * wide on each side. The width `(upper - lower) / middle` is undefined
   * where the middle band is zero.
   */
  function Bollinger(close: seq<real>, std: seq<Option<real>>): (b: Bands)
    ensures |b.middle| == |b.upper| == |b.lower| == |b.width| == |close|
    ensures forall i :: 0 <= i < |close| ==>
              (b.upper[i].Some? <==> b.middle[i].Some? && StdAt(std, i).Some?) &&
              (b.lower[i].Some? <==> b.upper[i].Some?)
  {
    var mid := RollingMean(close, 20);
    var upper := seq(|close|, i requires 0 <= i < |close| =>
      if mid[i].Some? && StdAt(std, i).Some? then Some(mid[i].value + 2.0 * StdAt(std, i).value) else None);
    var lower := seq(|close|, i requires 0 <= i < |close| =>
      if mid[i].Some? && StdAt(std, i).Some? then Some(mid[i].value - 2.0 * StdAt(std, i).value) else None);
    var width := seq(|close|, i requires 0 <= i < |close| =>
      if upper[i].Some? && mid[i].value != 0.0 then Some((upper[i].value - lower[i].value) / mid[i].value)
      else None);
    Bands(mid, upper, lower, width)
  }

  /**
   * Where the bands are defined and the deviation is non-negative, the
   * middle band lies between them, at equal distance `2 * std` from each,
   * and the width is `4 * std / middle`.
   */
  lemma BandsOrdered(close: seq<real>, std: seq<Option<real>>, i: nat)
    requires i < |close|
    requires StdAt(std, i).Some? && StdAt(std, i).value >= 0.0
    requires Bollinger(close, std).middle[i].Some?
    ensures var b := Bollinger(close, std);
            var m, s := b.middle[i].value, StdAt(std, i).value;
            b.lower[i].value <= m <= b.upper[i].value &&
            b.upper[i].value - m == m - b.lower[i].value == 2.0 * s &&
            (m != 0.0 ==> b.width[i] == Some(4.0 * s / m))
  {
    var b := Bollinger(close, std);
    var m, s := b.middle[i].value, StdAt(std, i).value;
    assert b.upper[i].value == m + 2.0 * s && b.lower[i].value == m - 2.0 * s;
    if m != 0.0 {
      assert (b.upper[i].value - b.lower[i].value) == 4.0 * s;
      var w := b.width[i];
      assert w.Some? && w.value == 4.0 * s / m;
    }
  }

  // ---------------------------------------------------------------------
  // Momentum
  // ---------------------------------------------------------------------

  /**
   * `Momentum`: each close over the close ten bars before. Undefined for the
   * first ten bars and where the earlier close is zero.
   */
  function Momentum(close: seq<real>): (r: seq<Option<real>>)
    ensures |r| == |close|
    ensures forall i :: 0 <= i < |close| ==> (r[i].Some? <==> i >= 10 && close[i - 10] != 0.0)
    ensures forall i :: 10 <= i < |close| && r[i].Some? ==> r[i].value * close[i - 10] == close[i]
  {
    seq(|close|, i requires 0 <= i < |close| =>
      if i < 10 || close[i - 10] == 0.0 then None else Some(close[i] / close[i - 10]))
  }

  // ---------------------------------------------------------------------
  // The whole indicator frame
  // ---------------------------------------------------------------------

  /** The price history of one symbol extended with every indicator column. */
  datatype IndicatorFrame = IndicatorFrame(
    close: seq<real>,
    sma20: seq<Option<real>>,
    sma50: seq<Option<real>>,
    sma200: seq<Option<real>>,
    ema12: seq<real>,
    ema26: seq<real>,
    macd: seq<real>,
    macdSignal: seq<real>,
    macdHist: seq<real>,
    rsi: seq<Option<real>>,
    bbStd: seq<Option<real>>,
    bands: Bands,
    momentum: seq<Option<real>>)

  /**
   * All indicator columns of one symbol. The rolling standard deviation of
   * the closes is supplied by the caller (it needs a square root).
   */
  function ComputeIndicators(close: seq<real>, std: seq<Option<real>>): (f: IndicatorFrame)
    ensures f.close == close && f.bbStd == std
    ensures f.bands.middle == f.sma20
    ensures |f.sma20| == |f.sma50| == |f.sma200| == |f.ema12| == |f.ema26| == |close|
    ensures |f.macd| == |f.macdSignal| == |f.macdHist| == |f.rsi| == |f.momentum| == |close|
    ensures forall i :: 0 <= i < |close| ==> f.macd[i] == f.ema12[i] - f.ema26[i]
    ensures forall i :: 0 <= i < |close| ==> f.macdHist[i] == f.macd[i] - f.macdSignal[i]
  {
    IndicatorFrame(
      close,
      RollingMean(close, 20),
      RollingMean(close, 50),
      RollingMean(close, 200),
      Ema(close, Smoothing(12)),
      Ema(close, Smoothing(26)),
      Macd(close),
      MacdSignal(close),
      MacdHistogram(close),
      Rsi(close),
      std,
      Bollinger(close, std),
      Momentum(close))
  }
}
