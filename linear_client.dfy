/** The batch gradient and the loss of Linear_Regression/client.cpp:
    squared error with an L2 term, averaged over the batch. */
module LinearClient {
  import opened Vec

  /** The regularisation strength `lambda`. */
  const Lambda := 0.001

  /** The residual `y - x . w` of a row. */
  function Residual(x: seq<real>, y: real, w: seq<real>): real
    requires |x| == |w|
  {
    y - Dot(x, w)
  }

  /** The squared-error part of a row's gradient term, `-2 * x * (y - x . w)`. */
  function ErrorTerm(x: seq<real>, y: real, w: seq<real>): (t: seq<real>)
    requires |x| == |w|
    ensures |t| == |w|
  {
    Scale(-2.0 * Residual(x, y, w), x)
  }

  /** The gradient sum after the first `n` rows of the batch: each row adds
      its error term and `lambda * w`. */
  function GradientSum(xs: seq<seq<real>>, ys: seq<real>, w: seq<real>, n: nat): (r: seq<real>)
    requires n <= |xs| == |ys| && AllLength(xs, |w|)
    ensures |r| == |w|
  {
    if n == 0 then Zeros(|w|)
    else Add(GradientSum(xs, ys, w, n - 1), Add(ErrorTerm(xs[n - 1], ys[n - 1], w), Scale(Lambda, w)))
  }

  /** The gradient of a non-empty batch: the sum divided by the batch size. */
  function BatchGradientOf(xs: seq<seq<real>>, ys: seq<real>, w: seq<real>): (g: seq<real>)
    requires 0 < |xs| == |ys| && AllLength(xs, |w|)
    ensures |g| == |w|
  {
    Div(GradientSum(xs, ys, w, |xs|), |xs| as real)
  }

  /** The sum of the error terms alone. */
  function ErrorSum(xs: seq<seq<real>>, ys: seq<real>, w: seq<real>, n: nat): (r: seq<real>)
    requires n <= |xs| == |ys| && AllLength(xs, |w|)
    ensures |r| == |w|
  {
    if n == 0 then Zeros(|w|) else Add(ErrorSum(xs, ys, w, n - 1), ErrorTerm(xs[n - 1], ys[n - 1], w))
  }

  /** `lambda * w` added up `n` times: the regularisation part of the sum. */
  function Regularisation(w: seq<real>, n: nat): (r: seq<real>)
    ensures |r| == |w|
  {
    if n == 0 then Zeros(|w|) else Add(Regularisation(w, n - 1), Scale(Lambda, w))
  }

  /** The gradient sum separates into the error terms and the regularisation. */
  lemma {:induction false} GradientSumSplit(xs: seq<seq<real>>, ys: seq<real>, w: seq<real>, n: nat)
    requires n <= |xs| == |ys| && AllLength(xs, |w|)
    ensures GradientSum(xs, ys, w, n) == Add(ErrorSum(xs, ys, w, n), Regularisation(w, n))
  {
    var l, r := GradientSum(xs, ys, w, n), Add(ErrorSum(xs, ys, w, n), Regularisation(w, n));
    if n == 0 {
      forall k | 0 <= k < |w| ensures l[k] == r[k] {
      }
    } else {
      GradientSumSplit(xs, ys, w, n - 1);
    }
  }

  /** `n * (lambda * x)`. */
  function Times(n: nat, x: real): real {
    n as real * (Lambda * x)
  }

  /** Each entry of the regularisation is `n * (lambda * w[k])`. */
  lemma {:induction false} RegularisationAt(w: seq<real>, n: nat, k: nat)
    requires k < |w|
    ensures Regularisation(w, n)[k] == Times(n, w[k])
  {
    if n > 0 {
      RegularisationAt(w, n - 1, k);
      Successor(n, w[k]);
    }
  }

  lemma Successor(n: nat, x: real)
    requires n > 0
    ensures Times(n - 1, x) + Lambda * x == Times(n, x)
  {
  }

  /** The batch gradient is the mean error term plus exactly `lambda * w`,
      whatever the batch size. */
  lemma GradientOfBatch(xs: seq<seq<real>>, ys: seq<real>, w: seq<real>)
    requires 0 < |xs| == |ys| && AllLength(xs, |w|)
    ensures BatchGradientOf(xs, ys, w) == Add(Div(ErrorSum(xs, ys, w, |xs|), |xs| as real), Scale(Lambda, w))
  {
    var n := |xs|;
    GradientSumSplit(xs, ys, w, n);
    var l, r := BatchGradientOf(xs, ys, w), Add(Div(ErrorSum(xs, ys, w, n), n as real), Scale(Lambda, w));
    var s, e, g := GradientSum(xs, ys, w, n), ErrorSum(xs, ys, w, n), Regularisation(w, n);
    forall k | 0 <= k < |w| ensures l[k] == r[k] {
      RegularisationAt(w, n, k);
      MeanOfShifted(l[k], s[k], e[k], g[k], w[k], n);
    }
  }

  lemma MeanOfShifted(l: real, s: real, e: real, g: real, x: real, n: nat)
    requires n > 0
    requires g == Times(n, x)
    requires s == e + g
    requires l == s / n as real
    ensures l == e / n as real + Lambda * x
  {
    assert (e + g) / n as real == e / n as real + g / n as real;
  }

  /** When every prediction of the batch is exact, only the regularisation
      is left: the gradient is `lambda * w`. */
  lemma ExactBatch(xs: seq<seq<real>>, ys: seq<real>, w: seq<real>)
    requires 0 < |xs| == |ys| && AllLength(xs, |w|)
    requires forall i :: 0 <= i < |xs| ==> Residual(xs[i], ys[i], w) == 0.0
    ensures BatchGradientOf(xs, ys, w) == Scale(Lambda, w)
  {
    var n := |xs|;
    NoErrors(xs, ys, w, n);
    GradientOfBatch(xs, ys, w);
    var l := BatchGradientOf(xs, ys, w);
    var d := Div(ErrorSum(xs, ys, w, n), n as real);
    forall k | 0 <= k < |w| ensures l[k] == Lambda * w[k] {
      assert d[k] == 0.0;
    }
  }

  lemma {:induction false} NoErrors(xs: seq<seq<real>>, ys: seq<real>, w: seq<real>, n: nat)
    requires n <= |xs| == |ys| && AllLength(xs, |w|)
    requires forall i :: 0 <= i < |xs| ==> Residual(xs[i], ys[i], w) == 0.0
    ensures ErrorSum(xs, ys, w, n) == Zeros(|w|)
  {
    if n > 0 {
      NoErrors(xs, ys, w, n - 1);
      var s, e := ErrorSum(xs, ys, w, n), ErrorTerm(xs[n - 1], ys[n - 1], w);
      assert Residual(xs[n - 1], ys[n - 1], w) == 0.0;
      forall k | 0 <= k < |w| ensures s[k] == 0.0 {
        assert e[k] == 0.0;
      }
    }
  }

  /** The gradient loop of `train_and_send_batches` (lines 52-63): per row
      the error term plus `lambda * w`, then the division by the batch size. */
  method BatchGradient(xs: seq<seq<real>>, ys: seq<real>, weights: seq<real>) returns (gradient: seq<real>)
    requires 0 < |xs| == |ys| && AllLength(xs, |weights|)
    ensures gradient == BatchGradientOf(xs, ys, weights)
  {
    var batchSize := |xs|;
    gradient := Zeros(|weights|);
    for j := 0 to batchSize
      invariant gradient == GradientSum(xs, ys, weights, j)
    {
      var xi := xs[j];
      var yi := ys[j];
      gradient := Add(gradient, Add(ErrorTerm(xi, yi, weights), Scale(Lambda, weights)));
    }
    gradient := Div(gradient, batchSize as real);
  }

  /** The squared residuals of the first `n` rows, summed. */
  function SquaredErrors(xs: seq<seq<real>>, ys: seq<real>, w: seq<real>, n: nat): real
    requires n <= |xs| == |ys| && AllLength(xs, |w|)
  {
    if n == 0 then 0.0 else SquaredErrors(xs, ys, w, n - 1) + Square(Residual(xs[n - 1], ys[n - 1], w))
  }

  function Square(r: real): real {
    r * r
  }

  /** `compute_mse`: the squared norm of `labels - data * w` over the number
      of labels. */
  function Mse(xs: seq<seq<real>>, ys: seq<real>, w: seq<real>): (e: real)
    requires 0 < |xs| == |ys| && AllLength(xs, |w|)
    ensures e >= 0.0
  {
    SquaredErrorsZero(xs, ys, w, |xs|);
    SquaredErrors(xs, ys, w, |xs|) / |ys| as real
  }

  lemma SquareSign(r: real)
    ensures Square(r) >= 0.0
    ensures Square(r) == 0.0 <==> r == 0.0
  {
    if Square(r) == 0.0 {
      ZeroProduct(r, r);
    }
  }

  lemma ZeroProduct(a: real, b: real)
    requires a * b == 0.0
    ensures a == 0.0 || b == 0.0
  {
  }

  /** The summed squares vanish exactly when every residual does. */
  lemma {:induction false} SquaredErrorsZero(xs: seq<seq<real>>, ys: seq<real>, w: seq<real>, n: nat)
    requires n <= |xs| == |ys| && AllLength(xs, |w|)
    ensures SquaredErrors(xs, ys, w, n) >= 0.0
    ensures SquaredErrors(xs, ys, w, n) == 0.0 <==> forall i :: 0 <= i < n ==> Residual(xs[i], ys[i], w) == 0.0
  {
    if n > 0 {
      SquaredErrorsZero(xs, ys, w, n - 1);
      SquareSign(Residual(xs[n - 1], ys[n - 1], w));
    }
  }

  /** The loss is never negative, and it is zero exactly when the weights
      predict every label exactly. */
  lemma MseZero(xs: seq<seq<real>>, ys: seq<real>, w: seq<real>)
    requires 0 < |xs| == |ys| && AllLength(xs, |w|)
    ensures Mse(xs, ys, w) >= 0.0
    ensures Mse(xs, ys, w) == 0.0 <==> forall i :: 0 <= i < |xs| ==> Residual(xs[i], ys[i], w) == 0.0
  {
    SquaredErrorsZero(xs, ys, w, |xs|);
  }
}
