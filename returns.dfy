/**
 * The return columns added to every collected price history:
 * `Daily_Return`, the percentage change of the close from the previous
 * bar, and `Cum_Return`, the compounded percentage gain since the first bar.
 */
module Returns {
  import opened Series

  /**
   * The percentage change from `prev` to `cur`; a zero `prev` gives an
   * infinite or undefined change, left undefined here.
   */
  function PercentChange(prev: real, cur: real): (r: Option<real>)
    ensures r.Some? <==> prev != 0.0
  {
    if prev == 0.0 then None else Some((cur - prev) / prev * 100.0)
  }

  /** Growing `prev` by its percentage change gives back `cur`. */
  lemma PercentChangeRecovers(prev: real, cur: real)
    requires prev != 0.0
    ensures prev * (1.0 + PercentChange(prev, cur).value / 100.0) == cur
  {
  }

  /**
   * `Daily_Return`: the percentage change of each close against the one
   * before it; the first bar has no predecessor (NaN).
   */
  function DailyReturn(close: seq<real>): (r: seq<Option<real>>)
    ensures |r| == |close|
    ensures |close| > 0 ==> r[0] == None
    ensures forall i :: 1 <= i < |close| ==> r[i] == PercentChange(close[i - 1], close[i])
  {
    seq(|close|, i requires 0 <= i < |close| =>
      if i == 0 then None else PercentChange(close[i - 1], close[i]))
  }

  /**
   * The running product of the growth factors `1 + r/100` of bars 1..i.
   * The leading NaN of bar 0 is skipped, as a cumulative product skips NaN;
   * any other undefined return makes the product undefined.
   */
  function Compounded(daily: seq<Option<real>>, i: nat): (g: Option<real>)
    requires 1 <= i < |daily|
    ensures g.Some? <==> forall k :: 1 <= k <= i ==> daily[k].Some?
    decreases i
  {
    if i == 1 then GrowthFactor(daily[1])
    else Times(Compounded(daily, i - 1), GrowthFactor(daily[i]))
  }

  /** The growth factor `1 + r/100` of a percentage return. */
  function GrowthFactor(r: Option<real>): (g: Option<real>)
    ensures g.Some? <==> r.Some?
    ensures r.Some? ==> (g.value - 1.0) * 100.0 == r.value
  {
    match r
    case None => None
    case Some(v) => Some(1.0 + v / 100.0)
  }

  function Times(a: Option<real>, b: Option<real>): Option<real>
  {
    if a.Some? && b.Some? then Some(a.value * b.value) else None
  }

  /** `Cum_Return`: the compounded percentage gain since the first bar. */
  function CumReturn(close: seq<real>): (r: seq<Option<real>>)
    ensures |r| == |close|
    ensures |close| > 0 ==> r[0] == None
    ensures forall i :: 1 <= i < |close| ==> r[i] == GainOf(Compounded(DailyReturn(close), i))
  {
    var daily := DailyReturn(close);
    seq(|close|, i requires 0 <= i < |close| =>
      if i == 0 then None else GainOf(Compounded(daily, i)))
  }

  /** The percentage gain `(g - 1) * 100` of a growth factor, undefined with it. */
  function GainOf(g: Option<real>): (r: Option<real>)
    ensures r.Some? <==> g.Some?
    ensures g.Some? ==> r.value / 100.0 + 1.0 == g.value
  {
    match g
    case None => None
    case Some(x) => Some((x - 1.0) * 100.0)
  }

  predicate AllPositive(close: seq<real>)
  {
    forall i :: 0 <= i < |close| ==> close[i] > 0.0
  }

  /** The compounded growth over bars 1..i telescopes to `close[i] / close[0]`. */
  lemma {:induction false} CompoundedTelescopes(close: seq<real>, i: nat)
    requires AllPositive(close)
    requires 1 <= i < |close|
    ensures Compounded(DailyReturn(close), i) == Some(close[i] / close[0])
    decreases i
  {
    var daily := DailyReturn(close);
    assert daily[i] == PercentChange(close[i - 1], close[i]);
    if i == 1 {
      GrowthOverOneBar(close[0], close[1]);
    } else {
      CompoundedTelescopes(close, i - 1);
      TelescopeStep(close[0], close[i - 1], close[i]);
    }
  }

  /** The growth factor of one bar's return is the ratio of its closes. */
  lemma GrowthOverOneBar(prev: real, cur: real)
    requires prev > 0.0
    ensures GrowthFactor(PercentChange(prev, cur)) == Some(cur / prev)
  {
    PercentChangeRecovers(prev, cur);
    var f := 1.0 + PercentChange(prev, cur).value / 100.0;
    assert prev * f == cur;
    assert f == cur / prev;
  }

  lemma TimesSome(x: real, y: real)
    ensures Times(Some(x), Some(y)) == Some(x * y)
  {
    var t := Times(Some(x), Some(y));
    assert t.Some? && t.value == x * y;
  }

  lemma RatioProduct(a: real, b: real, c: real)
    requires a > 0.0 && b > 0.0
    ensures (b / a) * (c / b) == c / a
  {
  }

  /** Extending a telescoped product `b/a` by the growth from `b` to `c` gives `c/a`. */
  lemma TelescopeStep(a: real, b: real, c: real)
    requires a > 0.0 && b > 0.0
    ensures Times(Some(b / a), GrowthFactor(PercentChange(b, c))) == Some(c / a)
  {
    GrowthOverOneBar(b, c);
    var g := GrowthFactor(PercentChange(b, c));
    assert g == Some(c / b);
    TimesSome(b / a, c / b);
    RatioProduct(a, b, c);
    var t := Times(Some(b / a), g);
    assert t.Some? && t.value == c / a;
  }

  /**
   * For positive closes the cumulative return at bar i is the percentage
   * gain of `close[i]` over the first close.
   */
  lemma CumReturnIsGainSinceFirst(close: seq<real>, i: nat)
    requires AllPositive(close)
    requires 1 <= i < |close|
    ensures CumReturn(close)[i] == Some((close[i] / close[0] - 1.0) * 100.0)
  {
    CompoundedTelescopes(close, i);
    assert CumReturn(close)[i] == GainOf(Some(close[i] / close[0]));
  }
}
