/** The batch gradient and the prediction guards of
    Logistic_Regression/client.cpp.  The sigmoid is a parameter (it is
    `1 / (1 + exp(-z))`, a transcendental), and so is the test that a
    double is finite. */
module LogisticClient {
  import opened Vec

  /** The prediction error `sigmoid(x . w) - y` of a row. */
  function PredictionError(x: seq<real>, y: real, w: seq<real>, sigmoid: real -> real): real
    requires |x| == |w|
  {
    sigmoid(Dot(x, w)) - y
  }

  /** The gradient sum after the first `n` rows: each row adds
      `x * (sigmoid(x . w) - y)`. */
  function LogisticSum(xs: seq<seq<real>>, ys: seq<real>, w: seq<real>, sigmoid: real -> real, n: nat): (r: seq<real>)
    requires n <= |xs| == |ys| && AllLength(xs, |w|)
    ensures |r| == |w|
  {
    if n == 0 then Zeros(|w|)
    else Add(LogisticSum(xs, ys, w, sigmoid, n - 1), Scale(PredictionError(xs[n - 1], ys[n - 1], w, sigmoid), xs[n - 1]))
  }

  /** The gradient of a non-empty batch: the sum divided by the batch size. */
  function LogisticGradient(xs: seq<seq<real>>, ys: seq<real>, w: seq<real>, sigmoid: real -> real): (g: seq<real>)
    requires 0 < |xs| == |ys| && AllLength(xs, |w|)
    ensures |g| == |w|
  {
    Div(LogisticSum(xs, ys, w, sigmoid, |xs|), |xs| as real)
  }

  /** Rows the weights already predict exactly add nothing to the sum. */
  lemma {:induction false} ExactRowsAddNothing(xs: seq<seq<real>>, ys: seq<real>, w: seq<real>, sigmoid: real -> real, n: nat)
    requires n <= |xs| == |ys| && AllLength(xs, |w|)
    requires forall i :: 0 <= i < |xs| ==> PredictionError(xs[i], ys[i], w, sigmoid) == 0.0
    ensures LogisticSum(xs, ys, w, sigmoid, n) == Zeros(|w|)
  {
    if n > 0 {
      ExactRowsAddNothing(xs, ys, w, sigmoid, n - 1);
      var s, t := LogisticSum(xs, ys, w, sigmoid, n), Scale(PredictionError(xs[n - 1], ys[n - 1], w, sigmoid), xs[n - 1]);
      assert PredictionError(xs[n - 1], ys[n - 1], w, sigmoid) == 0.0;
      forall k | 0 <= k < |w| ensures s[k] == 0.0 {
        assert t[k] == 0.0;
      }
    }
  }

  /** When every probability of the batch equals its label the gradient is zero. */
  lemma ExactBatch(xs: seq<seq<real>>, ys: seq<real>, w: seq<real>, sigmoid: real -> real)
    requires 0 < |xs| == |ys| && AllLength(xs, |w|)
    requires forall i :: 0 <= i < |xs| ==> PredictionError(xs[i], ys[i], w, sigmoid) == 0.0
    ensures LogisticGradient(xs, ys, w, sigmoid) == Zeros(|w|)
  {
    ExactRowsAddNothing(xs, ys, w, sigmoid, |xs|);
    var g := LogisticGradient(xs, ys, w, sigmoid);
    forall k | 0 <= k < |w| ensures g[k] == 0.0 {
    }
  }

  /** The sum is linear in the rows: the sum over the first `n` rows is the
      sum over the first `n - 1` plus the contribution of row `n - 1`. */
  lemma LogisticSumStep(xs: seq<seq<real>>, ys: seq<real>, w: seq<real>, sigmoid: real -> real, i: nat)
    requires i < |xs| == |ys| && AllLength(xs, |w|)
    ensures LogisticSum(xs, ys, w, sigmoid, i + 1)
            == Add(LogisticSum(xs, ys, w, sigmoid, i), Scale(PredictionError(xs[i], ys[i], w, sigmoid), xs[i]))
  {
  }

  /** The gradient loop of `train_and_send_batches` (lines 83-92): the sum
      over the batch rows, then the division by the batch size. */
  method BatchGradient(xs: seq<seq<real>>, ys: seq<real>, weights: seq<real>, sigmoid: real -> real) returns (gradient: seq<real>)
    requires 0 < |xs| == |ys| && AllLength(xs, |weights|)
    ensures gradient == LogisticGradient(xs, ys, weights, sigmoid)
  {
    var batchSize := |xs|;
    gradient := Zeros(|weights|);
    for j := 0 to batchSize
      invariant gradient == LogisticSum(xs, ys, weights, sigmoid, j)
    {
      var xi := xs[j];
      var yi := ys[j];
      LogisticSumStep(xs, ys, weights, sigmoid, j);
      gradient := Add(gradient, Scale(PredictionError(xi, yi, weights, sigmoid), xi));
    }
    gradient := Div(gradient, batchSize as real);
  }

  /** `predict`: the label of one sample is -1 exactly when the dot product
      is not finite, and otherwise 1 exactly when the probability is at
      least 0.5, 0 when it is below. */
  function Predict(x: seq<real>, w: seq<real>, sigmoid: real -> real, finite: real -> bool): (predicted: int)
    requires |x| == |w|
    ensures predicted in {-1, 0, 1}
    ensures predicted == -1 <==> !finite(Dot(x, w))
    ensures predicted == 1 <==> finite(Dot(x, w)) && sigmoid(Dot(x, w)) >= 0.5
  {
    var dot := Dot(x, w);
    if !finite(dot) then -1 else if sigmoid(dot) >= 0.5 then 1 else 0
  }

  /** One line reported by `predict_samples`: the 1-based sample number
      and its class. */
  datatype Prediction = Prediction(sample: nat, predicted: int)

  /** The lines reported for the first `n` test rows: rows whose prediction
      is -1 are skipped. */
  function Predictions(test: seq<seq<real>>, w: seq<real>, sigmoid: real -> real, finite: real -> bool, n: nat): (r: seq<Prediction>)
    requires n <= |test| && AllLength(test, |w|)
    ensures |r| <= n
    ensures forall a :: 0 <= a < |r| ==> 0 < r[a].sample <= n && r[a].predicted in {0, 1}
  {
    if n == 0 then []
    else
      var p := Predict(test[n - 1], w, sigmoid, finite);
      Predictions(test, w, sigmoid, finite, n - 1) + (if p == -1 then [] else [Prediction(n, p)])
  }

  /** Exactly the valid predictions are reported, each once with its own row
      number, in increasing row order. */
  lemma {:induction false} PredictionsExact(test: seq<seq<real>>, w: seq<real>, sigmoid: real -> real, finite: real -> bool, n: nat)
    requires n <= |test| && AllLength(test, |w|)
    ensures forall i: nat, c :: Prediction(i, c) in Predictions(test, w, sigmoid, finite, n)
              <==> 0 < i <= n && c == Predict(test[i - 1], w, sigmoid, finite) && c != -1
    ensures forall a, b :: 0 <= a < b < |Predictions(test, w, sigmoid, finite, n)| ==>
              Predictions(test, w, sigmoid, finite, n)[a].sample < Predictions(test, w, sigmoid, finite, n)[b].sample
  {
    if n > 0 {
      PredictionsExact(test, w, sigmoid, finite, n - 1);
      var prev := Predictions(test, w, sigmoid, finite, n - 1);
      var p := Predict(test[n - 1], w, sigmoid, finite);
      assert Predictions(test, w, sigmoid, finite, n) == prev + (if p == -1 then [] else [Prediction(n, p)]);
    }
  }

  /** `predict_samples`: nothing is reported when the test matrix has a
      different number of columns from the weights; otherwise every test row
      is predicted in order and the invalid ones are skipped. */
  method PredictSamples(test: seq<seq<real>>, cols: nat, weights: seq<real>, sigmoid: real -> real, finite: real -> bool)
    returns (reported: seq<Prediction>)
    requires AllLength(test, cols)
    ensures cols != |weights| ==> reported == []
    ensures cols == |weights| ==> reported == Predictions(test, weights, sigmoid, finite, |test|)
  {
    reported := [];
    if cols != |weights| {
      return;
    }
    for i := 0 to |test|
      invariant reported == Predictions(test, weights, sigmoid, finite, i)
    {
      var predictedLabel := Predict(test[i], weights, sigmoid, finite);
      if predictedLabel == -1 {
        continue;
      }
      reported := reported + [Prediction(i + 1, predictedLabel)];
    }
  }
}
