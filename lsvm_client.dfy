/** The batch gradient of LSVM/client.cpp: the hinge-loss subgradient of a
    batch, averaged over its rows. */
module LsvmClient {
  import opened Vec

  /** The margin `y * (x . w)` of a row. */
  function Margin(x: seq<real>, y: real, w: seq<real>): real
    requires |x| == |w|
  {
    y * Dot(x, w)
  }

  /** The sum the loop of `compute_svm_gradient` has built after the first
      `n` rows: `-y * x` for every row whose margin `y * (x . w)` is below 1. */
  function HingeSum(xs: seq<seq<real>>, ys: seq<real>, w: seq<real>, n: nat): (r: seq<real>)
    requires n <= |xs| == |ys| && AllLength(xs, |w|)
    ensures |r| == |w|
  {
    if n == 0 then Zeros(|w|)
    else
      var g := HingeSum(xs, ys, w, n - 1);
      if Margin(xs[n - 1], ys[n - 1], w) < 1.0 then Sub(g, Scale(ys[n - 1], xs[n - 1])) else g
  }

  /** `compute_svm_gradient` of a non-empty batch. */
  function SvmGradient(xs: seq<seq<real>>, ys: seq<real>, w: seq<real>): (g: seq<real>)
    requires 0 < |xs| == |ys| && AllLength(xs, |w|)
    ensures |g| == |w|
  {
    Div(HingeSum(xs, ys, w, |xs|), |xs| as real)
  }

  /** The first `n` rows that violate the margin, each as `y * x`, in row order. */
  function Violations(xs: seq<seq<real>>, ys: seq<real>, w: seq<real>, n: nat): (vs: seq<seq<real>>)
    requires n <= |xs| == |ys| && AllLength(xs, |w|)
    ensures AllLength(vs, |w|) && |vs| <= n
  {
    if n == 0 then []
    else
      Violations(xs, ys, w, n - 1)
      + (if Margin(xs[n - 1], ys[n - 1], w) < 1.0 then [Scale(ys[n - 1], xs[n - 1])] else [])
  }

  /** The gradient sum is minus the sum of `y * x` over the margin
      violators only: rows with margin at least 1 add nothing. */
  lemma {:induction false} HingeSumOfViolations(xs: seq<seq<real>>, ys: seq<real>, w: seq<real>, n: nat)
    requires n <= |xs| == |ys| && AllLength(xs, |w|)
    ensures HingeSum(xs, ys, w, n) == Scale(-1.0, SumAll(Violations(xs, ys, w, n), |w|))
  {
    if n == 0 {
      var z := Scale(-1.0, Zeros(|w|));
      forall k | 0 <= k < |w| ensures z[k] == 0.0 {
      }
    } else {
      var vs := Violations(xs, ys, w, n - 1);
      HingeSumOfViolations(xs, ys, w, n - 1);
      if Margin(xs[n - 1], ys[n - 1], w) < 1.0 {
        var v := Scale(ys[n - 1], xs[n - 1]);
        SumAllSnoc(vs, v, |w|);
        NegateSnoc(SumAll(vs, |w|), v);
      } else {
        assert vs + [] == vs;
      }
    }
  }

  /** Subtracting `v` from the negated sum negates the sum with `v` added. */
  lemma NegateSnoc(s: seq<real>, v: seq<real>)
    requires |s| == |v|
    ensures Sub(Scale(-1.0, s), v) == Scale(-1.0, Add(s, v))
  {
    var l, r := Sub(Scale(-1.0, s), v), Scale(-1.0, Add(s, v));
    forall k | 0 <= k < |s| ensures l[k] == r[k] {
    }
  }

  /** `compute_svm_gradient` is minus the mean, over the whole batch, of
      `y * x` taken over the margin violators. */
  lemma SvmGradientOfViolations(xs: seq<seq<real>>, ys: seq<real>, w: seq<real>)
    requires 0 < |xs| == |ys| && AllLength(xs, |w|)
    ensures SvmGradient(xs, ys, w) == Div(Scale(-1.0, SumAll(Violations(xs, ys, w, |xs|), |w|)), |xs| as real)
  {
    HingeSumOfViolations(xs, ys, w, |xs|);
  }

  /** When every row of the batch has margin at least 1 the gradient is zero. */
  lemma SatisfiedBatch(xs: seq<seq<real>>, ys: seq<real>, w: seq<real>)
    requires 0 < |xs| == |ys| && AllLength(xs, |w|)
    requires forall i :: 0 <= i < |xs| ==> Margin(xs[i], ys[i], w) >= 1.0
    ensures SvmGradient(xs, ys, w) == Zeros(|w|)
  {
    var h := HingeSum(xs, ys, w, |xs|);
    assert h == Scale(-1.0, Zeros(|w|)) by {
      NoViolations(xs, ys, w, |xs|);
      HingeSumOfViolations(xs, ys, w, |xs|);
      assert SumAll([], |w|) == Zeros(|w|);
    }
    assert forall k :: 0 <= k < |w| ==> h[k] == 0.0;
    var g := Div(h, |xs| as real);
    assert forall k :: 0 <= k < |w| ==> g[k] == 0.0;
  }

  lemma {:induction false} NoViolations(xs: seq<seq<real>>, ys: seq<real>, w: seq<real>, n: nat)
    requires n <= |xs| == |ys| && AllLength(xs, |w|)
    requires forall i :: 0 <= i < |xs| ==> Margin(xs[i], ys[i], w) >= 1.0
    ensures Violations(xs, ys, w, n) == []
  {
    if n > 0 {
      NoViolations(xs, ys, w, n - 1);
      assert Margin(xs[n - 1], ys[n - 1], w) >= 1.0;
      assert Violations(xs, ys, w, n - 1) + [] == [];
    }
  }

  /** One more row of the sum. */
  lemma HingeSumStep(xs: seq<seq<real>>, ys: seq<real>, w: seq<real>, i: nat)
    requires i < |xs| == |ys| && AllLength(xs, |w|)
    ensures Margin(xs[i], ys[i], w) < 1.0 ==> HingeSum(xs, ys, w, i + 1) == Sub(HingeSum(xs, ys, w, i), Scale(ys[i], xs[i]))
    ensures Margin(xs[i], ys[i], w) >= 1.0 ==> HingeSum(xs, ys, w, i + 1) == HingeSum(xs, ys, w, i)
  {
  }

  /** `compute_svm_gradient`: the loop over the rows, then the division by
      the row count. */
  method ComputeSvmGradient(xs: seq<seq<real>>, ys: seq<real>, weights: seq<real>) returns (gradient: seq<real>)
    requires 0 < |xs| == |ys| && AllLength(xs, |weights|)
    ensures gradient == SvmGradient(xs, ys, weights)
  {
    gradient := Zeros(|weights|);
    var n := |xs|;
    for i := 0 to n
      invariant gradient == HingeSum(xs, ys, weights, i)
    {
      var xi := xs[i];
      var yi := ys[i];
      HingeSumStep(xs, ys, weights, i);
      if Margin(xi, yi, weights) < 1.0 {
        gradient := Sub(gradient, Scale(yi, xi));
      }
    }
    gradient := Div(gradient, n as real);
  }
}
