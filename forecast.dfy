/**
 * Price forecasting for one symbol: the trained sequence model is applied
 * to every test window (historical predictions) and then fed its own
 * predictions for a number of future days (autoregressive rollout).
 *
 * The trained network is not modelled. A model is any function from a
 * window of scaled values to the next scaled value, and training is any
 * function from the training windows and targets to such a model; both
 * are parameters here.
 */
module Forecast {
  import opened Series
  import opened Scaling
  import opened Windowing

  /** A trained one-step predictor: a window of scaled values to the next scaled value. */
  type Model = seq<real> -> real

  /** Fitting a model to training windows and their targets. */
  type Trainer = (seq<seq<real>>, seq<real>) -> Model

  /** The last `k` values of `s`. */
  function Last(s: seq<real>, k: nat): (r: seq<real>)
    requires k <= |s|
    ensures |r| == k
  {
    s[|s| - k..]
  }

  // ---------------------------------------------------------------------
  // Autoregressive rollout
  // ---------------------------------------------------------------------

  /**
   * The first `days` predictions of the rollout seeded with `seed`: each
   * prediction is the model applied to the last `|seed|` values of the seed
   * followed by the predictions made so far.
   */
  function RolloutPredictions(seed: seq<real>, model: Model, days: nat): (preds: seq<real>)
    ensures |preds| == days
    decreases days
  {
    if days == 0 then []
    else
      var earlier := RolloutPredictions(seed, model, days - 1);
      earlier + [model(Last(seed + earlier, |seed|))]
  }

  /** A longer rollout extends a shorter one: later days never change earlier predictions. */
  lemma {:induction false} RolloutPrefix(seed: seq<real>, model: Model, days: nat, k: nat)
    requires k <= days
    ensures RolloutPredictions(seed, model, days)[..k] == RolloutPredictions(seed, model, k)
    decreases days
  {
    if k < days {
      RolloutPrefix(seed, model, days - 1, k);
      var earlier := RolloutPredictions(seed, model, days - 1);
      assert RolloutPredictions(seed, model, days)[..k] == earlier[..k];
    }
  }

  /**
   * Prediction `k` is the model applied to a window of exactly `|seed|`
   * values: the seed's tail followed by the first `k` predictions. Once `k`
   * reaches the window length the window holds predictions only.
   */
  lemma RolloutStep(seed: seq<real>, model: Model, days: nat, k: nat)
    requires k < days
    ensures var preds := RolloutPredictions(seed, model, days);
            preds[k] == model(Last(seed + preds[..k], |seed|))
    ensures var preds := RolloutPredictions(seed, model, days);
            k >= |seed| ==> Last(seed + preds[..k], |seed|) == preds[k - |seed|..k]
  {
    var preds := RolloutPredictions(seed, model, days);
    RolloutPrefix(seed, model, days, k + 1);
    RolloutPrefix(seed, model, days, k);
    assert preds[k] == preds[..k + 1][k];
    if k >= |seed| {
      var all := seed + preds[..k];
      assert all[|all| - |seed|..] == preds[k - |seed|..k];
    }
  }

  /**
   * The future loop: predict from the current window, record the prediction,
   * then drop the oldest value of the window and append the prediction.
   */
  method Rollout(lastSequence: seq<real>, model: Model, predictionDays: nat)
    returns (futurePredictions: seq<real>)
    requires |lastSequence| >= 1
    ensures futurePredictions == RolloutPredictions(lastSequence, model, predictionDays)
  {
    futurePredictions := [];
    var currentSequence := lastSequence;
    var day := 0;
    while day < predictionDays
      invariant day <= predictionDays
      invariant futurePredictions == RolloutPredictions(lastSequence, model, day)
      invariant |currentSequence| == |lastSequence|
      invariant currentSequence == Last(lastSequence + futurePredictions, |lastSequence|)
    {
      var pred := model(currentSequence);
      futurePredictions := futurePredictions + [pred];
      SlideWindow(lastSequence + futurePredictions[..day], pred, |lastSequence|);
      assert lastSequence + futurePredictions == (lastSequence + futurePredictions[..day]) + [pred];
      currentSequence := currentSequence[1..] + [pred];
      day := day + 1;
    }
  }

  /** Dropping the oldest value and appending `x` gives the last `k` values of the longer series. */
  lemma SlideWindow(s: seq<real>, x: real, k: nat)
    requires 1 <= k <= |s|
    ensures Last(s, k)[1..] + [x] == Last(s + [x], k)
  {
  }

  // ---------------------------------------------------------------------
  // Future dates
  // ---------------------------------------------------------------------

  /** `prediction_days` consecutive calendar days starting the day after `lastDay`. */
  function FutureDates(lastDay: int, predictionDays: nat): (dates: seq<int>)
    ensures |dates| == predictionDays
    ensures forall i :: 0 <= i < |dates| ==> dates[i] > lastDay
    ensures forall i, j :: 0 <= i < j < |dates| ==> dates[i] < dates[j]
    ensures forall i :: 0 < i < |dates| ==> dates[i] == dates[i - 1] + 1
    ensures |dates| > 0 ==> dates[0] == lastDay + 1
  {
    seq(predictionDays, i requires 0 <= i < predictionDays => lastDay + 1 + i)
  }

  // ---------------------------------------------------------------------
  // Error metric
  // ---------------------------------------------------------------------

  /** The mean squared error between actual prices and predictions (RMSE is its square root). */
  function MeanSquaredError(actual: seq<real>, predicted: seq<real>): (mse: real)
    requires |actual| == |predicted| > 0
    ensures mse >= 0.0
    ensures actual == predicted ==> mse == 0.0
  {
    SumSquaredErrorNonNegative(actual, predicted);
    NonNegativeOver(SumSquaredError(actual, predicted), |actual| as real);
    SumSquaredError(actual, predicted) / (|actual| as real)
  }

  lemma NonNegativeOver(a: real, n: real)
    requires a >= 0.0 && n > 0.0
    ensures a / n >= 0.0
  {
  }

  // ---------------------------------------------------------------------
  // The whole forecast of one symbol
  // ---------------------------------------------------------------------

  /** What a forecast keeps for one symbol. */
  datatype ForecastResult = ForecastResult(
    historical: seq<real>,      // predicted closes of the test bars, in price units
    futureDates: seq<int>,      // the future days, as day numbers
    futureClose: seq<real>,     // the predicted close of each future day, in price units
    mse: real,                  // mean squared error of `historical` against the test closes
    scaler: Scaler,
    timeSteps: nat)


  /** The model applied to each window, in order. */
  function Predict(model: Model, windows: seq<seq<real>>): (preds: seq<real>)
    ensures |preds| == |windows|
    ensures forall j :: 0 <= j < |windows| ==> preds[j] == model(windows[j])
  {
    seq(|windows|, j requires 0 <= j < |windows| => model(windows[j]))
  }

  /**
   * The model the trainer fits to the scaled closes: it is given the
   * training windows and their targets, both cut from the scaled training
   * prefix.
   */
  function TrainedModel(scaled: seq<real>, train: Trainer): (m: Model)
    ensures var trainData := scaled[..TrainingDataLen(|scaled|)];
            m == train(Windows(trainData, TimeSteps), Targets(trainData, TimeSteps))
  {
    var trainData := scaled[..TrainingDataLen(|scaled|)];
    train(Windows(trainData, TimeSteps), Targets(trainData, TimeSteps))
  }

  /**
   * Training sees only the scaled bars before the split: two scaled columns
   * of the same length that agree on the training prefix give the same
   * model, whatever their scaled test bars hold.
   */
  lemma TrainingSeesOnlyTrainingBars(a: seq<real>, b: seq<real>, train: Trainer)
    requires |a| == |b|
    requires a[..TrainingDataLen(|a|)] == b[..TrainingDataLen(|b|)]
    ensures TrainedModel(a, train) == TrainedModel(b, train)
  {
  }

  /** A trainer whose model always answers the first training target. */
  const FirstTargetTrainer: Trainer :=
    (ws: seq<seq<real>>, ts: seq<real>) => (w: seq<real>) => if |ts| > 0 then ts[0] else 0.0

  /** `a` is 0 followed by 75 ones, and `b` is `a` with its last close raised to 2. */
  predicate RaisedLastClose(a: seq<real>, b: seq<real>)
  {
    && |a| == 76 && a[0] == 0.0
    && (forall i :: 1 <= i < |a| ==> a[i] == 1.0)
    && b == a[75 := 2.0]
  }

  /**
   * The scaler looks ahead. It is fitted on the whole close column before
   * the split, so the test closes move every scaled training value through
   * the fitted minimum and maximum. A column of 76 closes, 0 followed by
   * 75 ones, and the same column with its last, test, close raised to 2
   * agree on all 61 training bars, yet they give different models: scaled
   * bar 60 is 1 in one and not in the other.
   */
  lemma ScalerSeesTestBars(a: seq<real>, b: seq<real>)
    requires RaisedLastClose(a, b)
    ensures a[..TrainingDataLen(|a|)] == b[..TrainingDataLen(|b|)]
    ensures Fit(a).Success? && Fit(b).Success?
    ensures TrainedModel(TransformAll(Fit(a).value, a), FirstTargetTrainer)
            != TrainedModel(TransformAll(Fit(b).value, b), FirstTargetTrainer)
  {
    ShapedColumns(a, b);
    ScaledBarsDiffer(a, b);
    FirstTargetModelsDiffer(TransformAll(Scaler(0.0, 1.0), a), TransformAll(Scaler(0.0, 2.0), b));
  }

  /** The two columns of `ScalerSeesTestBars`: equal training bars, and their fitted ranges. */
  lemma ShapedColumns(a: seq<real>, b: seq<real>)
    requires RaisedLastClose(a, b)
    ensures a[..TrainingDataLen(|a|)] == b[..TrainingDataLen(|b|)] && a[60] == b[60] == 1.0
    ensures Fit(a) == Success(Scaler(0.0, 1.0)) && Fit(b) == Success(Scaler(0.0, 2.0))
  {
    assert TrainingDataLen(|a|) == TrainingDataLen(|b|) == 61;
    assert a[..61] == b[..61];
    FitOfBounds(a, 0, 1, 0.0, 1.0);
    FitOfBounds(b, 0, 75, 0.0, 2.0);
  }

  /** A close of 1 scales to 1 on the range `[0, 1]` and to something else on `[0, 2]`. */
  lemma ScaledBarsDiffer(a: seq<real>, b: seq<real>)
    requires |a| > TimeSteps && |b| > TimeSteps && a[TimeSteps] == b[TimeSteps] == 1.0
    ensures TransformAll(Scaler(0.0, 1.0), a)[TimeSteps] != TransformAll(Scaler(0.0, 2.0), b)[TimeSteps]
  {
    MidpointNotTop();
    assert Transform(Scaler(0.0, 1.0), 1.0) == 1.0;
  }

  /** On the range `[0, 2]`, a close of 1 does not scale to 1. */
  lemma MidpointNotTop()
    ensures Transform(Scaler(0.0, 2.0), 1.0) != 1.0
  {
  }

  /** Trained on two scaled columns whose bar 60 differs, the first-target models differ. */
  lemma FirstTargetModelsDiffer(sa: seq<real>, sb: seq<real>)
    requires |sa| >= 76 && |sb| >= 76 && sa[TimeSteps] != sb[TimeSteps]
    ensures TrainedModel(sa, FirstTargetTrainer) != TrainedModel(sb, FirstTargetTrainer)
  {
    FirstTargetModel(sa, []);
    FirstTargetModel(sb, []);
  }

  /** Trained on at least 61 scaled closes, the first-target model answers scaled bar 60. */
  lemma FirstTargetModel(scaled: seq<real>, w: seq<real>)
    requires |scaled| >= 76
    ensures TrainedModel(scaled, FirstTargetTrainer)(w) == scaled[TimeSteps]
  {
    var trainData := scaled[..TrainingDataLen(|scaled|)];
    assert |Targets(trainData, TimeSteps)| > 0 && Targets(trainData, TimeSteps)[0] == trainData[TimeSteps];
  }

  /**
   * The forecast of one symbol whose closes are `close` and whose last bar
   * is day `lastDay`: scale the closes, split them, train on the training
   * windows, predict every test bar and `predictionDays` future days, and
   * map the predictions back to prices. An empty or constant column cannot
   * be scaled, a split with no training window cannot be trained on, and an
   * empty array of future predictions cannot be mapped back to prices.
   */
  function ForecastOf(close: seq<real>, lastDay: int, train: Trainer, predictionDays: nat)
    : (r: Result<ForecastResult, PipelineError>)
    ensures r.Success? <==> |close| >= 76 && !AllEqual(close, close[0]) && predictionDays > 0
    ensures |close| == 0 ==> r == Failure(NoData)
    ensures 0 < |close| && AllEqual(close, close[0]) ==> r == Failure(DegenerateRange)
    ensures 0 < |close| < 76 && !AllEqual(close, close[0]) ==> r == Failure(InsufficientData)
    ensures |close| >= 76 && !AllEqual(close, close[0]) && predictionDays == 0 ==> r == Failure(NoFutureDays)
    ensures r.Success? ==> Fit(close).Success? && r.value.scaler == Fit(close).value && r.value.timeSteps == TimeSteps
    ensures r.Success? ==> |r.value.futureClose| == |r.value.futureDates| == predictionDays
    ensures r.Success? ==>
              var scaled := TransformAll(r.value.scaler, close);
              var len := TrainingDataLen(|close|);
              |r.value.historical| == |close| - len
              && AlignedWithTestBars(r.value.historical, r.value.scaler, TrainedModel(scaled, train), scaled, len)
  {
    var fitted := Fit(close);
    if fitted.Failure? then Failure(fitted.error)
    else
      var n := |close|;
      var len := TrainingDataLen(n);
      EnoughForTraining(n);
      if len <= TimeSteps then Failure(InsufficientData)
      else
        SplitLeavesTestBars(n);
        var sc := fitted.value;
        var scaled := TransformAll(sc, close);
        var model := TrainedModel(scaled, train);
        var historical := InverseAll(sc, Predict(model, Windows(scaled[len - TimeSteps..], TimeSteps)));
        PredictedTestBars(sc, model, scaled, len);
        var future := RolloutPredictions(Last(scaled, TimeSteps), model, predictionDays);
        if predictionDays == 0 then Failure(NoFutureDays)
        else Success(ForecastResult(
          historical,
          FutureDates(lastDay, predictionDays),
          InverseAll(sc, future),
          MeanSquaredError(close[len..], historical),
          sc,
          TimeSteps))
  }

  /**
   * The whole forecast of one symbol, step by step: the training loop, the
   * test loop and the future loop.
   */
  method TrainPredict(close: seq<real>, lastDay: int, train: Trainer, predictionDays: nat)
    returns (r: Result<ForecastResult, PipelineError>)
    ensures r == ForecastOf(close, lastDay, train, predictionDays)
  {
    var fitted := Fit(close);
    if fitted.Failure? {
      return Failure(fitted.error);
    }
    var scaler := fitted.value;
    var scaledData := TransformAll(scaler, close);
    var trainingDataLen := TrainingDataLen(|close|);
    var xTrain, yTrain := TrainingWindows(scaledData[..trainingDataLen], TimeSteps);
    if |xTrain| == 0 {
      // No training window: the program cannot even reshape the training set.
      return Failure(InsufficientData);
    }
    var model := train(xTrain, yTrain);
    SplitLeavesTestBars(|close|);

    var xTest := TestWindows(scaledData, trainingDataLen, TimeSteps);
    var predictions := InverseAll(scaler, Predict(model, xTest));
    var mse := MeanSquaredError(close[trainingDataLen..], predictions);

    var futurePredictions := Rollout(Last(scaledData, TimeSteps), model, predictionDays);
    if predictionDays == 0 {
      // The inverse transform refuses an array with no rows.
      return Failure(NoFutureDays);
    }
    var futureDates := FutureDates(lastDay, predictionDays);
    r := Success(ForecastResult(predictions, futureDates, InverseAll(scaler, futurePredictions),
                                mse, scaler, TimeSteps));
  }

  /**
   * Each historical prediction is the model's output for the `TimeSteps`
   * scaled closes just before its test bar `len + j`, mapped back to a price.
   */
  predicate AlignedWithTestBars(historical: seq<real>, sc: Scaler, model: Model, scaled: seq<real>, len: nat)
  {
    && Valid(sc) && TimeSteps <= len && len + |historical| <= |scaled|
    && forall j :: 0 <= j < |historical| ==>
         historical[j] == Inverse(sc, model(scaled[len + j - TimeSteps..len + j]))
  }

  /** The test predictions, mapped back to prices, line up with the test bars one to one. */
  lemma PredictedTestBars(sc: Scaler, model: Model, scaled: seq<real>, len: nat)
    requires Valid(sc)
    requires TimeSteps <= len <= |scaled|
    ensures var ps := InverseAll(sc, Predict(model, Windows(scaled[len - TimeSteps..], TimeSteps)));
            |ps| == |scaled| - len && AlignedWithTestBars(ps, sc, model, scaled, len)
  {
    var ps := InverseAll(sc, Predict(model, Windows(scaled[len - TimeSteps..], TimeSteps)));
    forall j | 0 <= j < |ps|
      ensures ps[j] == Inverse(sc, model(scaled[len + j - TimeSteps..len + j]))
    {
      PredictedTestBar(sc, model, scaled, len, j);
    }
  }

  /** Test prediction `j`, mapped back to a price, comes from the window just before bar `len + j`. */
  lemma PredictedTestBar(sc: Scaler, model: Model, scaled: seq<real>, len: nat, j: nat)
    requires Valid(sc)
    requires TimeSteps <= len <= |scaled|
    requires j < |scaled| - len
    ensures var ps := InverseAll(sc, Predict(model, Windows(scaled[len - TimeSteps..], TimeSteps)));
            |ps| == |scaled| - len && ps[j] == Inverse(sc, model(scaled[len + j - TimeSteps..len + j]))
  {
    TestWindowAlignment(scaled, len, TimeSteps, j);
  }

  /**
   * The first future close is the model's output for the last `TimeSteps`
   * scaled closes, mapped back to a price.
   */
  lemma FutureAlignment(close: seq<real>, lastDay: int, train: Trainer, predictionDays: nat)
    requires |close| >= 76 && !AllEqual(close, close[0]) && predictionDays > 0
    ensures var f := ForecastOf(close, lastDay, train, predictionDays).value;
            var scaled := TransformAll(f.scaler, close);
            f.futureClose[0] == Inverse(f.scaler, TrainedModel(scaled, train)(scaled[|close| - TimeSteps..]))
  {
    var sc, scaled, model, future := ForecastFuturePart(close, lastDay, train, predictionDays);
    FirstFutureClose(sc, scaled, model, predictionDays, future);
  }

  /** The pieces of a successful forecast that its future closes are built from. */
  lemma ForecastFuturePart(close: seq<real>, lastDay: int, train: Trainer, predictionDays: nat)
    returns (sc: Scaler, scaled: seq<real>, model: Model, future: seq<real>)
    requires |close| >= 76 && !AllEqual(close, close[0]) && predictionDays > 0
    ensures var f := ForecastOf(close, lastDay, train, predictionDays).value;
            sc == f.scaler && future == f.futureClose
    ensures Valid(sc) && scaled == TransformAll(sc, close) && |scaled| == |close|
    ensures model == TrainedModel(scaled, train)
    ensures future == InverseAll(sc, RolloutPredictions(Last(scaled, TimeSteps), model, predictionDays))
  {
    FutureCloses(close, lastDay, train, predictionDays);
    var f := ForecastOf(close, lastDay, train, predictionDays).value;
    sc, future := f.scaler, f.futureClose;
    scaled := TransformAll(sc, close);
    model := TrainedModel(scaled, train);
  }

  /** The first close of a rollout mapped back to prices comes from the last `TimeSteps` values. */
  lemma FirstFutureClose(sc: Scaler, scaled: seq<real>, model: Model, days: nat, future: seq<real>)
    requires Valid(sc) && TimeSteps <= |scaled| && days > 0
    requires future == InverseAll(sc, RolloutPredictions(Last(scaled, TimeSteps), model, days))
    ensures future[0] == Inverse(sc, model(scaled[|scaled| - TimeSteps..]))
  {
    FirstPrediction(Last(scaled, TimeSteps), model, days);
  }

  /**
   * The future closes are the rollout from the last `TimeSteps` scaled
   * closes, mapped back to prices through the same scaler as the test
   * predictions.
   */
  lemma FutureCloses(close: seq<real>, lastDay: int, train: Trainer, predictionDays: nat)
    requires |close| >= 76 && !AllEqual(close, close[0]) && predictionDays > 0
    ensures var f := ForecastOf(close, lastDay, train, predictionDays).value;
            var scaled := TransformAll(f.scaler, close);
            f.futureClose == InverseAll(f.scaler, RolloutPredictions(Last(scaled, TimeSteps), TrainedModel(scaled, train), predictionDays))
  {
  }

  /** The first prediction of a rollout is the model's output on the seed. */
  lemma FirstPrediction(seed: seq<real>, model: Model, days: nat)
    requires days > 0
    ensures RolloutPredictions(seed, model, days)[0] == model(seed)
  {
    RolloutStep(seed, model, days, 0);
    assert seed + RolloutPredictions(seed, model, days)[..0] == seed;
  }

  /** The model's output on every test window is the scaled close of the bar it predicts. */
  predicate ExactOnTestBars(model: Model, scaled: seq<real>, len: nat)
    requires TimeSteps <= len <= |scaled|
  {
    var ws := Windows(scaled[len - TimeSteps..], TimeSteps);
    forall j :: 0 <= j < |ws| ==> model(ws[j]) == scaled[len..][j]
  }

  /**
   * A model that predicts every scaled test close exactly scores a zero
   * error: test predictions aligned with the test bars, as `ForecastOf`
   * produces them, then map back to the test closes themselves.
   */
  lemma PerfectModelHasZeroError(close: seq<real>, sc: Scaler, model: Model, len: nat, historical: seq<real>)
    requires Valid(sc) && TimeSteps <= len < |close|
    requires |historical| == |close| - len
    requires AlignedWithTestBars(historical, sc, model, TransformAll(sc, close), len)
    requires ExactOnTestBars(model, TransformAll(sc, close), len)
    ensures historical == close[len..]
    ensures MeanSquaredError(close[len..], historical) == 0.0
  {
    var scaled := TransformAll(sc, close);
    forall j | 0 <= j < |historical| ensures historical[j] == close[len..][j] {
      TestWindowAlignment(scaled, len, TimeSteps, j);
      InverseOfTransform(sc, close[len + j]);
    }
  }

  /** The forecast of a column whose trained model is exact has zero error. */
  lemma PerfectForecastHasZeroError(close: seq<real>, lastDay: int, train: Trainer, predictionDays: nat)
    requires |close| >= 76 && !AllEqual(close, close[0]) && predictionDays > 0
    requires var scaled := TransformAll(Fit(close).value, close);
             ExactOnTestBars(TrainedModel(scaled, train), scaled, TrainingDataLen(|close|))
    ensures ForecastOf(close, lastDay, train, predictionDays).value.mse == 0.0
  {
    var sc, len, model, historical := ForecastTestPart(close, lastDay, train, predictionDays);
    PerfectModelHasZeroError(close, sc, model, len, historical);
  }

  /**
   * The test part of a successful forecast: its historical predictions are
   * aligned with the test bars under the scaler fitted on the closes and
   * the model trained on them, and its error is theirs against the test
   * closes.
   */
  lemma ForecastTestPart(close: seq<real>, lastDay: int, train: Trainer, predictionDays: nat)
    returns (sc: Scaler, len: nat, model: Model, historical: seq<real>)
    requires |close| >= 76 && !AllEqual(close, close[0]) && predictionDays > 0
    ensures sc == Fit(close).value && len == TrainingDataLen(|close|)
    ensures Valid(sc) && model == TrainedModel(TransformAll(sc, close), train)
    ensures var r := ForecastOf(close, lastDay, train, predictionDays);
            r.Success? && historical == r.value.historical
            && r.value.mse == MeanSquaredError(close[len..], historical)
    ensures TimeSteps <= len < |close| && |historical| == |close| - len
    ensures AlignedWithTestBars(historical, sc, model, TransformAll(sc, close), len)
  {
    var r := ForecastOf(close, lastDay, train, predictionDays);
    sc := Fit(close).value;
    len := TrainingDataLen(|close|);
    model := TrainedModel(TransformAll(sc, close), train);
    historical := r.value.historical;
    EnoughForTraining(|close|);
    SplitLeavesTestBars(|close|);
  }

  // ---------------------------------------------------------------------
  // Recommendation
  // ---------------------------------------------------------------------

  /** The advice given from the last actual close and the last predicted close. */
  datatype Advice = Buy | Sell | Hold

  /** Buy above a 5% predicted rise, sell below a 5% predicted fall, hold otherwise. */
  function Recommend(lastPrice: real, futurePrice: real): (a: Advice)
    ensures lastPrice > 0.0 && a == Buy ==> futurePrice > lastPrice
    ensures lastPrice > 0.0 && a == Sell ==> futurePrice < lastPrice
    ensures lastPrice > 0.0 && futurePrice == lastPrice ==> a == Hold
  {
    if futurePrice > lastPrice * 1.05 then Buy
    else if futurePrice < lastPrice * 0.95 then Sell
    else Hold
  }

  /** Buy is the strongest advice, sell the weakest. */
  function Strength(a: Advice): (k: int)
    ensures -1 <= k <= 1
  {
    match a
    case Sell => -1
    case Hold => 0
    case Buy => 1
  }

  /**
   * For a positive last close the advice depends only on the predicted
   * percentage change: buy above +5%, sell below -5%, hold in between, so
   * an unchanged price is held.
   */
  lemma RecommendByPercentChange(lastPrice: real, futurePrice: real)
    requires lastPrice > 0.0
    ensures var change := (futurePrice / lastPrice - 1.0) * 100.0;
            && (Recommend(lastPrice, futurePrice) == Buy <==> change > 5.0)
            && (Recommend(lastPrice, futurePrice) == Sell <==> change < -5.0)
            && (Recommend(lastPrice, futurePrice) == Hold <==> -5.0 <= change <= 5.0)
    ensures Recommend(lastPrice, lastPrice) == Hold
  {
    CompareRatio(lastPrice, futurePrice, 1.05);
    CompareRatio(lastPrice, futurePrice, 0.95);
  }

  /** For a positive `p`, comparing `f` with `p·c` compares the ratio `f/p` with `c`. */
  lemma CompareRatio(p: real, f: real, c: real)
    requires p > 0.0
    ensures f > p * c <==> f / p > c
    ensures f < p * c <==> f / p < c
  {
    var ratio := f / p;
    assert f == ratio * p;
    assert f - p * c == (ratio - c) * p;
  }

  /** A higher predicted close never gives weaker advice. */
  lemma RecommendMonotone(lastPrice: real, low: real, high: real)
    requires low <= high
    ensures Strength(Recommend(lastPrice, low)) <= Strength(Recommend(lastPrice, high))
  {
  }
}
