/**
 * The chronological train/test split of the scaled closes and the cutting
 * of fixed-length look-back windows, each paired with the value that
 * follows it.
 */
module Windowing {

  /** The look-back length of every model input. */
  const TimeSteps: nat := 60

  /**
   * `ceil(0.8 * n)`: the number of leading bars used for training, written
   * in integers as `ceil(4n / 5)`.
   */
  function TrainingDataLen(n: nat): (len: nat)
    ensures len <= n
    ensures 5 * len >= 4 * n
    ensures len == 0 || 5 * (len - 1) < 4 * n
  {
    (4 * n + 4) / 5
  }

  /** The split leaves at least one test bar for every series of five or more bars. */
  lemma SplitLeavesTestBars(n: nat)
    requires n >= 5
    ensures TrainingDataLen(n) < n
  {
  }

  /**
   * The split gives at least one training window exactly when the series
   * has more than 75 bars.
   */
  lemma EnoughForTraining(n: nat)
    ensures TrainingDataLen(n) > TimeSteps <==> n >= 76
  {
  }

  /** Every look-back window of length `t` in `s`, in order. */
  function Windows(s: seq<real>, t: nat): (ws: seq<seq<real>>)
    ensures |ws| == if |s| >= t then |s| - t else 0
    ensures forall k :: 0 <= k < |ws| ==> |ws[k]| == t
  {
    if |s| < t then [] else seq(|s| - t, k requires 0 <= k < |s| - t => s[k..k + t])
  }

  /** The value that follows each window of `Windows(s, t)`. */
  function Targets(s: seq<real>, t: nat): (ys: seq<real>)
    ensures |ys| == |Windows(s, t)|
  {
    if |s| < t then [] else seq(|s| - t, k requires 0 <= k < |s| - t => s[k + t])
  }

  /**
   * The training loop: for every `i` from `timeSteps` to the end, the
   * `timeSteps` values before `i` and the value at `i`.
   */
  method TrainingWindows(trainData: seq<real>, timeSteps: nat)
    returns (xTrain: seq<seq<real>>, yTrain: seq<real>)
    ensures xTrain == Windows(trainData, timeSteps)
    ensures yTrain == Targets(trainData, timeSteps)
  {
    xTrain, yTrain := [], [];
    var i := timeSteps;
    while i < |trainData|
      invariant timeSteps <= i
      invariant i <= |trainData| || |xTrain| == 0
      invariant |xTrain| == |yTrain| == i - timeSteps
      invariant forall k :: 0 <= k < |xTrain| ==>
                  xTrain[k] == trainData[k..k + timeSteps] && yTrain[k] == trainData[k + timeSteps]
    {
      xTrain := xTrain + [trainData[i - timeSteps..i]];
      yTrain := yTrain + [trainData[i]];
      i := i + 1;
    }
  }

  /**
   * The test loop: the windows cut from the scaled closes starting
   * `timeSteps` bars before the split, so that the first window ends just
   * before the first test bar.
   */
  method TestWindows(scaled: seq<real>, trainingDataLen: nat, timeSteps: nat)
    returns (xTest: seq<seq<real>>)
    requires timeSteps <= trainingDataLen <= |scaled|
    ensures xTest == Windows(scaled[trainingDataLen - timeSteps..], timeSteps)
    ensures |xTest| == |scaled| - trainingDataLen
  {
    var testData := scaled[trainingDataLen - timeSteps..];
    xTest := [];
    var i := timeSteps;
    while i < |testData|
      invariant timeSteps <= i <= |testData|
      invariant |xTest| == i - timeSteps
      invariant forall k :: 0 <= k < |xTest| ==> xTest[k] == testData[k..k + timeSteps]
    {
      xTest := xTest + [testData[i - timeSteps..i]];
      i := i + 1;
    }
  }

  /**
   * Test window `j` covers the `t` bars just before bar `len + j`, and its
   * actual price is the close of bar `len + j`: the windows line up one to
   * one with the test bars and none contains the bar it predicts.
   */
  lemma TestWindowAlignment(scaled: seq<real>, len: nat, t: nat, j: nat)
    requires t <= len <= |scaled|
    requires j < |scaled| - len
    ensures |Windows(scaled[len - t..], t)| == |scaled| - len
    ensures Windows(scaled[len - t..], t)[j] == scaled[len + j - t..len + j]
    ensures t > 0 ==> Windows(scaled[len - t..], t)[j][t - 1] == scaled[len + j - 1]
  {
    var test := scaled[len - t..];
    assert test[j..j + t] == scaled[len + j - t..len + j];
  }

  /**
   * Training window `k` and its target lie inside the training prefix, at
   * bars `k .. k + t`: no value after the split reaches training.
   */
  lemma TrainingWindowAlignment(scaled: seq<real>, len: nat, t: nat, k: nat)
    requires len <= |scaled|
    requires k < |Windows(scaled[..len], t)|
    ensures k + t < len
    ensures Windows(scaled[..len], t)[k] == scaled[k..k + t]
    ensures Targets(scaled[..len], t)[k] == scaled[k + t]
  {
    var train := scaled[..len];
    assert train[k..k + t] == scaled[k..k + t];
  }
}
