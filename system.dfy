/**
 * The analysis system: the per-symbol state it keeps (price histories with
 * their return columns, indicator frames, trained models and forecasts)
 * and the three pipeline steps that fill it.
 *
 * Fetching prices is network I/O: the fetch is a parameter, a function
 * from a symbol to its bars, or to `None` where the download fails.
 */
module System {
  import opened Series
  import opened Returns
  import opened Indicators
  import opened Scaling
  import opened Forecast

  /** One daily bar: its day number and its closing price. */
  datatype Bar = Bar(day: int, close: real)

  /** A collected price history with its `Daily_Return` and `Cum_Return` columns. */
  datatype PriceHistory = PriceHistory(bars: seq<Bar>, dailyReturn: seq<Option<real>>, cumReturn: seq<Option<real>>)

  /** The close column of a run of bars. */
  function Closes(bars: seq<Bar>): (close: seq<real>)
    ensures |close| == |bars|
    ensures forall i :: 0 <= i < |bars| ==> close[i] == bars[i].close
  {
    seq(|bars|, i requires 0 <= i < |bars| => bars[i].close)
  }

  /** A history as collected: the bars with both return columns added. */
  function WithReturns(bars: seq<Bar>): (h: PriceHistory)
    ensures h.bars == bars
    ensures |h.dailyReturn| == |h.cumReturn| == |bars|
  {
    PriceHistory(bars, DailyReturn(Closes(bars)), CumReturn(Closes(bars)))
  }

  /** What a download must hold to be stored: at least one bar. */
  predicate Usable(fetched: Option<seq<Bar>>)
  {
    fetched.Some? && |fetched.value| > 0
  }

  /** The stock data after collecting `symbols` in order into `data`. */
  function Collected(data: map<string, PriceHistory>, symbols: seq<string>, fetch: string -> Option<seq<Bar>>)
    : (r: map<string, PriceHistory>)
    ensures data.Keys <= r.Keys
    ensures forall s :: s in r ==> s in data || s in symbols
    decreases |symbols|
  {
    if |symbols| == 0 then data
    else
      var s := symbols[|symbols| - 1];
      var before := Collected(data, symbols[..|symbols| - 1], fetch);
      if Usable(fetch(s)) then before[s := WithReturns(fetch(s).value)] else before
  }

  /**
   * Collecting stores exactly the symbols whose download holds bars, each
   * with the returns of those bars, and keeps every other entry as it was.
   */
  lemma {:induction false} CollectedEntries(data: map<string, PriceHistory>, symbols: seq<string>,
                                            fetch: string -> Option<seq<Bar>>, s: string)
    ensures s in Collected(data, symbols, fetch) <==> s in data || (s in symbols && Usable(fetch(s)))
    ensures s in symbols && Usable(fetch(s)) ==> Collected(data, symbols, fetch)[s] == WithReturns(fetch(s).value)
    ensures !(s in symbols && Usable(fetch(s))) && s in data ==> Collected(data, symbols, fetch)[s] == data[s]
    decreases |symbols|
  {
    if |symbols| > 0 {
      var init := symbols[..|symbols| - 1];
      CollectedEntries(data, init, fetch, s);
      assert symbols == init + [symbols[|symbols| - 1]];
      assert s in symbols <==> s in init || s == symbols[|symbols| - 1];
    }
  }

  /** Collecting one more symbol stores its history when its download holds bars. */
  lemma CollectedStep(data: map<string, PriceHistory>, symbols: seq<string>, fetch: string -> Option<seq<Bar>>, i: nat)
    requires i < |symbols|
    ensures Collected(data, symbols[..i + 1], fetch)
            == if Usable(fetch(symbols[i])) then Collected(data, symbols[..i], fetch)[symbols[i] := WithReturns(fetch(symbols[i]).value)]
               else Collected(data, symbols[..i], fetch)
  {
    assert symbols[..i + 1][..i] == symbols[..i];
  }

  /** The indicator frame of one history, with the rolling std of its closes supplied by `rollingStd`. */
  function FrameOf(h: PriceHistory, rollingStd: seq<real> -> seq<Option<real>>): (f: IndicatorFrame)
    ensures f.close == Closes(h.bars) && f.bbStd == rollingStd(f.close)
    ensures |f.sma20| == |f.ema12| == |f.macd| == |f.rsi| == |f.momentum| == |h.bars|
  {
    ComputeIndicators(Closes(h.bars), rollingStd(Closes(h.bars)))
  }

  /** The indicator frame of every collected symbol. */
  function AllIndicators(data: map<string, PriceHistory>, rollingStd: seq<real> -> seq<Option<real>>)
    : (r: map<string, IndicatorFrame>)
    ensures r.Keys == data.Keys
    ensures forall s :: s in data ==> r[s] == FrameOf(data[s], rollingStd)
  {
    map s | s in data :: FrameOf(data[s], rollingStd)
  }

  /** The entries of `m` whose keys are in `keys`. */
  function Restrict<K, V>(m: map<K, V>, keys: set<K>): (r: map<K, V>)
    ensures r.Keys == m.Keys * keys
    ensures forall k :: k in r ==> r[k] == m[k]
  {
    map k | k in m && k in keys :: m[k]
  }

  /** Admitting one more key of `m` adds its entry to the restriction. */
  lemma RestrictInsert<K, V>(m: map<K, V>, keys: set<K>, k: K)
    requires k in m
    ensures Restrict(m, keys + {k}) == Restrict(m, keys)[k := m[k]]
  {
    var bigger, updated := Restrict(m, keys + {k}), Restrict(m, keys)[k := m[k]];
    assert bigger.Keys == updated.Keys;
  }

  /** Restricting to a superset of its keys leaves a map as it is. */
  lemma RestrictToAll<K, V>(m: map<K, V>, keys: set<K>)
    requires m.Keys <= keys
    ensures Restrict(m, keys) == m
  {
  }

  /** Moving `k` out of the pending keys moves it into the finished ones. */
  lemma FinishKey<K>(all: set<K>, pending: set<K>, k: K)
    requires k in pending && pending <= all
    ensures all - (pending - {k}) == (all - pending) + {k}
  {
  }

  lemma RemoveOne<K>(s: set<K>, k: K)
    requires k in s
    ensures |s - {k}| == |s| - 1
  {
  }

  /** Updating a union at `k` is the union with the right-hand map updated at `k`. */
  lemma UnionUpdate<K, V>(left: map<K, V>, right: map<K, V>, k: K, v: V)
    ensures (left + right)[k := v] == left + right[k := v]
  {
  }

  /**
   * The loop over the collected symbols: computes each symbol's frame and
   * stores it over whatever `frames` held for that symbol.
   */
  method IndicatorLoop(data: map<string, PriceHistory>, frames: map<string, IndicatorFrame>,
                       rollingStd: seq<real> -> seq<Option<real>>)
    returns (result: map<string, IndicatorFrame>)
    ensures result == frames + AllIndicators(data, rollingStd)
  {
    ghost var all := AllIndicators(data, rollingStd);
    result := frames;
    var remaining := data.Keys;
    ghost var done: set<string> := {};
    assert Restrict(all, done) == map[];
    assert frames + map[] == frames;
    while remaining != {}
      invariant remaining <= data.Keys && done == data.Keys - remaining
      invariant result == frames + Restrict(all, done)
      decreases |remaining|
    {
      var symbol :| symbol in remaining;
      var frame := FrameOf(data[symbol], rollingStd);
      RestrictInsert(all, done, symbol);
      UnionUpdate(frames, Restrict(all, done), symbol, frame);
      FinishKey(data.Keys, remaining, symbol);
      RemoveOne(remaining, symbol);
      result := result[symbol := frame];
      remaining := remaining - {symbol};
      done := done + {symbol};
    }
    RestrictToAll(all, done);
  }

  class AnalysisSystem {
    var stockData: map<string, PriceHistory>
    var technicalIndicators: map<string, IndicatorFrame>
    var models: map<string, Model>
    var predictions: map<string, ForecastResult>

    /** Every stored history has at least one bar. */
    predicate Valid()
      reads this`stockData
    {
      forall s :: s in stockData ==> |stockData[s].bars| > 0
    }

    /** Every stored history carries the return columns of its own closes. */
    predicate ReturnsConsistent()
      reads this`stockData
    {
      forall s :: s in stockData ==> stockData[s] == WithReturns(stockData[s].bars)
    }

    constructor ()
      ensures Valid() && ReturnsConsistent()
      ensures stockData == map[] && technicalIndicators == map[]
      ensures models == map[] && predictions == map[]
    {
      stockData := map[];
      technicalIndicators := map[];
      models := map[];
      predictions := map[];
    }

    /**
     * Downloads each symbol in turn and stores its history with the return
     * columns; a failed or empty download is skipped.
     */
    method CollectStockData(symbols: seq<string>, fetch: string -> Option<seq<Bar>>)
      requires Valid() && ReturnsConsistent()
      modifies this`stockData
      ensures Valid() && ReturnsConsistent()
      ensures stockData == Collected(old(stockData), symbols, fetch)
      ensures technicalIndicators == old(technicalIndicators)
      ensures models == old(models) && predictions == old(predictions)
    {
      var i := 0;
      while i < |symbols|
        invariant i <= |symbols|
        invariant Valid() && ReturnsConsistent()
        invariant stockData == Collected(old(stockData), symbols[..i], fetch)
      {
        var symbol := symbols[i];
        var data := fetch(symbol);
        CollectedStep(old(stockData), symbols, fetch, i);
        if Usable(data) {
          stockData := stockData[symbol := WithReturns(data.value)];
        }
        i := i + 1;
      }
      assert symbols[..i] == symbols;
    }

    /**
     * Computes the indicator frame of every collected symbol, one symbol
     * at a time, replacing any frame computed before.
     */
    method CalculateTechnicalIndicators(rollingStd: seq<real> -> seq<Option<real>>)
      requires Valid()
      modifies this`technicalIndicators
      ensures Valid()
      ensures technicalIndicators == old(technicalIndicators) + AllIndicators(stockData, rollingStd)
      ensures stockData == old(stockData) && models == old(models) && predictions == old(predictions)
    {
      technicalIndicators := IndicatorLoop(stockData, technicalIndicators, rollingStd);
    }

    /**
     * Forecasts one collected symbol and stores the trained model and the
     * forecast; an unknown symbol or a failed forecast stores nothing.
     */
    method TrainPredictLstm(symbol: string, train: Trainer, predictionDays: nat)
      returns (r: Result<ForecastResult, PipelineError>)
      requires Valid()
      modifies this`models, this`predictions
      ensures Valid()
      ensures symbol !in old(stockData) ==> r == Failure(UnknownSymbol)
      ensures symbol in old(stockData) ==>
                var bars := old(stockData)[symbol].bars;
                r == ForecastOf(Closes(bars), bars[|bars| - 1].day, train, predictionDays)
      ensures predictions == if r.Success? then old(predictions)[symbol := r.value] else old(predictions)
      ensures r.Success? ==>
                models == old(models)[symbol := TrainedModel(TransformAll(r.value.scaler, Closes(old(stockData)[symbol].bars)), train)]
      ensures r.Failure? ==> models == old(models)
      ensures stockData == old(stockData) && technicalIndicators == old(technicalIndicators)
    {
      if symbol !in stockData {
        return Failure(UnknownSymbol);
      }
      var bars := stockData[symbol].bars;
      var close := Closes(bars);
      r := TrainPredict(close, bars[|bars| - 1].day, train, predictionDays);
      StoreForecast(symbol, close, train, r);
    }

    /** Stores a successful forecast of `close` with the model trained for it; a failure stores nothing. */
    method StoreForecast(symbol: string, close: seq<real>, train: Trainer, forecast: Result<ForecastResult, PipelineError>)
      requires forecast.Success? ==> Scaling.Valid(forecast.value.scaler)
      modifies this`models, this`predictions
      ensures predictions == if forecast.Success? then old(predictions)[symbol := forecast.value] else old(predictions)
      ensures forecast.Success? ==>
                models == old(models)[symbol := TrainedModel(TransformAll(forecast.value.scaler, close), train)]
      ensures forecast.Failure? ==> models == old(models)
    {
      if forecast.Success? {
        models := models[symbol := TrainedModel(TransformAll(forecast.value.scaler, close), train)];
        predictions := predictions[symbol := forecast.value];
      }
    }
  }
}
