/** Adaboost/client.cpp: every epoch the client trains two decision stumps
    on its whole data set, sends them to the server, and reads back the
    server's top learners.  `exp` and the vote weight
    `0.5 * log((1 - e) / (e + 1e-10))` of a stump with weighted error `e`
    are IEEE functions, so they are parameters here (`expOf`, `alphaOf`). */
module AdaBoostClient {
  import opened Wire
  import opened Vec
  import opened Stumps
  import AdaBoostServer

  const NumEpochs := 5
  const LearnersPerEpoch := 2

  /** `std::numeric_limits<double>::max()`, the error the search starts from. */
  const MaxDouble: real := 179769313486231570814527423731704356798070567525844996598917476803157260780028538760589558632766878171540458953514382464234321326889464182768467546703537516986049910576551282076245490090389328944075868508455133942304583236903222948165808559332123348274797826204144723168738177180919299881250404026184124858368.0

  // ---------------------------------------------------------------------------
  // Weighted error of a stump

  /** 1 when the stump's vote differs from the label, 0 otherwise. */
  function Miss(x: real, threshold: real, y: real): (m: real)
    ensures m == 0.0 || m == 1.0
  {
    if Vote(x, threshold) != y then 1.0 else 0.0
  }

  /** `(weights * (predictions != labels)).sum()` for the stump on feature
      `f` with threshold `t`: the weight of the samples it gets wrong. */
  function WeightedError(data: seq<seq<real>>, labels: seq<real>, weights: seq<real>, d: nat, f: nat, t: real): (e: real)
    requires AllLength(data, d) && |labels| == |data| && |weights| == |data| && f < d
    ensures e == 0.0 <== forall i :: 0 <= i < |data| ==> weights[i] == 0.0 || Vote(data[i][f], t) == labels[i]
    decreases |data|
  {
    if data == [] then 0.0
    else weights[0] * Miss(data[0][f], t, labels[0]) + WeightedError(data[1..], labels[1..], weights[1..], d, f, t)
  }

  /** With non-negative weights the error lies between 0 and the total weight. */
  lemma {:induction false} ErrorBounds(data: seq<seq<real>>, labels: seq<real>, weights: seq<real>, d: nat, f: nat, t: real)
    requires AllLength(data, d) && |labels| == |data| && |weights| == |data| && f < d
    requires forall k :: 0 <= k < |weights| ==> weights[k] >= 0.0
    ensures 0.0 <= WeightedError(data, labels, weights, d, f, t) <= Sum(weights)
    decreases |data|
  {
    if data != [] {
      ErrorBounds(data[1..], labels[1..], weights[1..], d, f, t);
      var w, m := weights[0], Miss(data[0][f], t, labels[0]);
      assert 0.0 <= w * m <= w;
    }
  }

  /** The error of candidate `(f, i)`: the stump on feature `f` whose
      threshold is sample `i`'s value of it. */
  function CandidateError(data: seq<seq<real>>, labels: seq<real>, weights: seq<real>, d: nat, f: nat, i: nat): real
    requires AllLength(data, d) && |labels| == |data| && |weights| == |data| && f < d && i < |data|
  {
    WeightedError(data, labels, weights, d, f, data[i][f])
  }

  /** Candidate `(f1, i1)` is examined before `(f2, i2)`: features in
      order, and samples in order within a feature. */
  predicate Before(f1: nat, i1: nat, f2: nat, i2: nat) {
    f1 < f2 || (f1 == f2 && i1 < i2)
  }

  /** Candidate `(f, i)` has the least error `e` of all candidates, and
      every candidate examined before it has a strictly larger one. */
  ghost predicate FirstMinimum(data: seq<seq<real>>, labels: seq<real>, weights: seq<real>, d: nat, f: nat, i: nat, e: real)
    requires AllLength(data, d) && |labels| == |data| && |weights| == |data|
  {
    f < d && i < |data| && e == CandidateError(data, labels, weights, d, f, i)
    && (forall g: nat, j: nat :: g < d && j < |data| ==> e <= CandidateError(data, labels, weights, d, g, j))
    && (forall g: nat, j: nat :: g < d && j < |data| && Before(g, j, f, i) ==> e < CandidateError(data, labels, weights, d, g, j))
  }

  /** The first minimum is unique: the search has exactly one possible outcome. */
  lemma FirstMinimumUnique(data: seq<seq<real>>, labels: seq<real>, weights: seq<real>, d: nat,
                           f1: nat, i1: nat, e1: real, f2: nat, i2: nat, e2: real)
    requires AllLength(data, d) && |labels| == |data| && |weights| == |data|
    requires FirstMinimum(data, labels, weights, d, f1, i1, e1) && FirstMinimum(data, labels, weights, d, f2, i2, e2)
    ensures f1 == f2 && i1 == i2 && e1 == e2
  {
    assert e1 <= CandidateError(data, labels, weights, d, f2, i2);
    assert e2 <= CandidateError(data, labels, weights, d, f1, i1);
  }

  /** What the search knows once every candidate before `(feature, sample)`
      has been examined: the best error so far, reached first by `(f, i)`
      (or none yet, with the error still at its starting value). */
  ghost predicate Searched(data: seq<seq<real>>, labels: seq<real>, weights: seq<real>, d: nat,
                           feature: nat, sample: nat, learner: WeakLearner, best: real, f: nat, i: nat)
    requires AllLength(data, d) && |labels| == |data| && |weights| == |data|
  {
    best <= MaxDouble
    && (best < MaxDouble ==>
          f < d && i < |data| && Before(f, i, feature, sample) && best == CandidateError(data, labels, weights, d, f, i)
          && learner == WeakLearner(f, data[i][f], 0.0)
          && (forall g: nat, j: nat :: g < d && j < |data| && Before(g, j, f, i) ==> best < CandidateError(data, labels, weights, d, g, j)))
    && (best == MaxDouble ==> learner == WeakLearner(0, 0.0, 0.0))
    && (forall g: nat, j: nat :: g < d && j < |data| && Before(g, j, feature, sample) ==> best <= CandidateError(data, labels, weights, d, g, j))
  }

  /** `train_weak_learner`: examine every candidate in order and keep the
      first one of least error (the comparison is a strict `<`), then
      give it its vote weight. */
  method TrainWeakLearner(data: seq<seq<real>>, labels: seq<real>, weights: seq<real>, d: nat, alphaOf: real -> real)
    returns (learner: WeakLearner, ghost f: nat, ghost i: nat, ghost bestError: real)
    requires AllLength(data, d) && |labels| == |data| && |weights| == |data|
    ensures bestError <= MaxDouble && learner.alpha == alphaOf(bestError)
    ensures bestError < MaxDouble ==>
              FirstMinimum(data, labels, weights, d, f, i, bestError) && learner == WeakLearner(f, data[i][f], alphaOf(bestError))
    ensures bestError == MaxDouble ==>
              learner == WeakLearner(0, 0.0, alphaOf(MaxDouble))
              && forall g: nat, j: nat :: g < d && j < |data| ==> MaxDouble <= CandidateError(data, labels, weights, d, g, j)
  {
    var nSamples := |data|;
    var nFeatures := d;
    learner := WeakLearner(0, 0.0, 0.0);
    var best := MaxDouble;
    f, i := 0, 0;
    for featureIndex := 0 to nFeatures
      invariant Searched(data, labels, weights, d, featureIndex, 0, learner, best, f, i)
    {
      for k := 0 to nSamples
        invariant Searched(data, labels, weights, d, featureIndex, k, learner, best, f, i)
      {
        var threshold := data[k][featureIndex];
        var weightedError := WeightedError(data, labels, weights, d, featureIndex, threshold);
        if weightedError < best {
          best := weightedError;
          learner := WeakLearner(featureIndex, threshold, 0.0);
          f, i := featureIndex, k;
        }
      }
      NextFeature(data, labels, weights, d, featureIndex, learner, best, f, i);
    }
    LastFeature(data, labels, weights, d, learner, best, f, i);
    learner := learner.(alpha := alphaOf(best));
    bestError := best;
  }

  /** Having examined every sample of a feature is having examined
      everything before the next feature. */
  lemma NextFeature(data: seq<seq<real>>, labels: seq<real>, weights: seq<real>, d: nat,
                    feature: nat, learner: WeakLearner, best: real, f: nat, i: nat)
    requires AllLength(data, d) && |labels| == |data| && |weights| == |data|
    requires Searched(data, labels, weights, d, feature, |data|, learner, best, f, i)
    ensures Searched(data, labels, weights, d, feature + 1, 0, learner, best, f, i)
  {
    forall g: nat, j: nat | g < d && j < |data| && Before(g, j, feature + 1, 0)
      ensures Before(g, j, feature, |data|)
    {
    }
  }

  /** After the last feature every candidate has been examined. */
  lemma LastFeature(data: seq<seq<real>>, labels: seq<real>, weights: seq<real>, d: nat,
                    learner: WeakLearner, best: real, f: nat, i: nat)
    requires AllLength(data, d) && |labels| == |data| && |weights| == |data|
    requires Searched(data, labels, weights, d, d, 0, learner, best, f, i)
    ensures best < MaxDouble ==> FirstMinimum(data, labels, weights, d, f, i, best)
    ensures forall g: nat, j: nat :: g < d && j < |data| ==> best <= CandidateError(data, labels, weights, d, g, j)
  {
    forall g: nat, j: nat | g < d && j < |data| ensures best <= CandidateError(data, labels, weights, d, g, j) {
      assert Before(g, j, d, 0);
    }
  }

  // ---------------------------------------------------------------------------
  // Sample weights

  /** Positive weights summing to 1. */
  predicate IsDistribution(w: seq<real>) {
    (forall k :: 0 <= k < |w| ==> w[k] > 0.0) && Sum(w) == 1.0
  }

  /** `VectorXd::Ones(n) / n`. */
  function Uniform(n: nat): (w: seq<real>)
    requires n > 0
    ensures |w| == n
  {
    Div(Ones(n), n as real)
  }

  /** The factor `exp(-alpha * label * prediction)` of one sample. */
  function Factor(l: WeakLearner, x: real, y: real, expOf: real -> real): real {
    expOf(-l.alpha * y * Vote(x, l.threshold))
  }

  /** `weights.array() *= (-alpha * labels * predictions).exp()`. */
  function Reweighted(data: seq<seq<real>>, labels: seq<real>, weights: seq<real>, d: nat, l: WeakLearner, expOf: real -> real): (w: seq<real>)
    requires AllLength(data, d) && |labels| == |data| && |weights| == |data| && 0 <= l.featureIndex < d
    ensures |w| == |data|
    ensures forall k :: 0 <= k < |data| ==> w[k] == weights[k] * Factor(l, data[k][l.featureIndex], labels[k], expOf)
  {
    seq(|data|, k requires 0 <= k < |data| => weights[k] * Factor(l, data[k][l.featureIndex], labels[k], expOf))
  }

  /** `weights /= weights.sum()`. */
  function Normalized(w: seq<real>): (r: seq<real>)
    requires Sum(w) != 0.0
    ensures |r| == |w|
  {
    Div(w, Sum(w))
  }

  lemma {:induction false} SumOnes(n: nat)
    ensures Sum(Ones(n)) == n as real
  {
    if n > 0 {
      SumOnes(n - 1);
      assert Ones(n)[1..] == Ones(n - 1);
    }
  }

  lemma {:induction false} SumPositive(w: seq<real>)
    requires forall k :: 0 <= k < |w| ==> w[k] > 0.0
    ensures w != [] ==> Sum(w) > 0.0
    ensures Sum(w) >= 0.0
  {
    if w != [] {
      SumPositive(w[1..]);
    }
  }

  /** Dividing positive weights by their sum makes a distribution. */
  lemma NormalizedIsDistribution(w: seq<real>)
    requires w != [] && forall k :: 0 <= k < |w| ==> w[k] > 0.0
    ensures Sum(w) > 0.0 && IsDistribution(Normalized(w))
  {
    SumPositive(w);
    var s := Sum(w);
    var r := Normalized(w);
    forall k | 0 <= k < |r| ensures r[k] > 0.0 {
      QuotientPositive(w[k], s);
    }
    SumDiv(w, s);
    QuotientSelf(s);
  }

  lemma QuotientSelf(s: real)
    requires s != 0.0
    ensures s / s == 1.0
  {
  }

  lemma QuotientPositive(x: real, s: real)
    requires x > 0.0 && s > 0.0
    ensures x / s > 0.0
  {
  }

  /** The starting weights `1/n` form a distribution. */
  lemma UniformIsDistribution(n: nat)
    requires n > 0
    ensures IsDistribution(Uniform(n))
  {
    SumOnes(n);
    SumDiv(Ones(n), n as real);
    QuotientSelf(n as real);
  }

  /** With a positive `exp`, each round's reweighting and normalisation
      turns a distribution into a distribution. */
  lemma ReweightedIsDistribution(data: seq<seq<real>>, labels: seq<real>, weights: seq<real>, d: nat, l: WeakLearner, expOf: real -> real)
    requires AllLength(data, d) && |labels| == |data| && |weights| == |data| && 0 <= l.featureIndex < d && data != []
    requires IsDistribution(weights) && forall x :: expOf(x) > 0.0
    ensures Sum(Reweighted(data, labels, weights, d, l, expOf)) > 0.0
    ensures IsDistribution(Normalized(Reweighted(data, labels, weights, d, l, expOf)))
  {
    var w := Reweighted(data, labels, weights, d, l, expOf);
    forall k | 0 <= k < |w| ensures w[k] > 0.0 {
      var a, b := weights[k], Factor(l, data[k][l.featureIndex], labels[k], expOf);
      assert a > 0.0 && b > 0.0;
      assert a * b > 0.0;
    }
    NormalizedIsDistribution(w);
  }

  // ---------------------------------------------------------------------------
  // Training (`train_adaboost`)

  /** The stump the search picks for the weights `w`: the first minimum,
      with its vote weight. */
  ghost predicate Picked(data: seq<seq<real>>, labels: seq<real>, w: seq<real>, d: nat, alphaOf: real -> real, l: WeakLearner)
    requires AllLength(data, d) && |labels| == |data| && |w| == |data|
  {
    0 <= l.featureIndex < d
    && exists i: nat :: i < |data| && l.threshold == data[i][l.featureIndex]
         && FirstMinimum(data, labels, w, d, l.featureIndex, i, CandidateError(data, labels, w, d, l.featureIndex, i))
         && l.alpha == alphaOf(CandidateError(data, labels, w, d, l.featureIndex, i))
  }

  /** `ls` are the stumps of `count` boosting rounds and `ws` the weights
      before each round and after the last one. */
  ghost predicate Trained(data: seq<seq<real>>, labels: seq<real>, d: nat, count: nat,
                          alphaOf: real -> real, expOf: real -> real, ls: seq<WeakLearner>, ws: seq<seq<real>>)
    requires AllLength(data, d) && |labels| == |data| && |data| > 0
  {
    |ls| == count && |ws| == count + 1 && ws[0] == Uniform(|data|)
    && (forall t :: 0 <= t <= count ==> |ws[t]| == |data|)
    && forall t :: 0 <= t < count ==> Boosted(data, labels, d, alphaOf, expOf, ws[t], ls[t], ws[t + 1])
  }

  /** One boosting round: from the weights `w` the search picks `l`, and
      reweighting and normalising give `w'`. */
  ghost predicate Boosted(data: seq<seq<real>>, labels: seq<real>, d: nat, alphaOf: real -> real, expOf: real -> real,
                          w: seq<real>, l: WeakLearner, w': seq<real>)
    requires AllLength(data, d) && |labels| == |data|
  {
    |w| == |data| && Picked(data, labels, w, d, alphaOf, l)
    && Sum(Reweighted(data, labels, w, d, l, expOf)) != 0.0
    && w' == Normalized(Reweighted(data, labels, w, d, l, expOf))
  }

  /** Training is deterministic: the stumps and weights of `count` rounds
      are determined by the data. */
  lemma TrainedUnique(data: seq<seq<real>>, labels: seq<real>, d: nat, count: nat, alphaOf: real -> real, expOf: real -> real,
                      ls1: seq<WeakLearner>, ws1: seq<seq<real>>, ls2: seq<WeakLearner>, ws2: seq<seq<real>>)
    requires AllLength(data, d) && |labels| == |data| && |data| > 0
    requires Trained(data, labels, d, count, alphaOf, expOf, ls1, ws1)
    requires Trained(data, labels, d, count, alphaOf, expOf, ls2, ws2)
    ensures ls1 == ls2 && ws1 == ws2
  {
    forall t | 0 <= t <= count ensures ws1[t] == ws2[t] {
      SameRounds(data, labels, d, count, alphaOf, expOf, ls1, ws1, ls2, ws2, t);
    }
    forall t | 0 <= t < count ensures ls1[t] == ls2[t] {
      SameRounds(data, labels, d, count, alphaOf, expOf, ls1, ws1, ls2, ws2, t);
      assert Boosted(data, labels, d, alphaOf, expOf, ws1[t], ls1[t], ws1[t + 1]);
      assert Boosted(data, labels, d, alphaOf, expOf, ws2[t], ls2[t], ws2[t + 1]);
      SameBoost(data, labels, d, alphaOf, expOf, ws1[t], ls1[t], ws1[t + 1], ls2[t], ws2[t + 1]);
    }
  }

  /** Two trainings agree on the weights before round `t`. */
  lemma {:induction false} SameRounds(data: seq<seq<real>>, labels: seq<real>, d: nat, count: nat, alphaOf: real -> real, expOf: real -> real,
                                      ls1: seq<WeakLearner>, ws1: seq<seq<real>>, ls2: seq<WeakLearner>, ws2: seq<seq<real>>, t: nat)
    requires AllLength(data, d) && |labels| == |data| && |data| > 0
    requires Trained(data, labels, d, count, alphaOf, expOf, ls1, ws1)
    requires Trained(data, labels, d, count, alphaOf, expOf, ls2, ws2)
    requires t <= count
    ensures ws1[t] == ws2[t]
  {
    if t > 0 {
      SameRounds(data, labels, d, count, alphaOf, expOf, ls1, ws1, ls2, ws2, t - 1);
      assert Boosted(data, labels, d, alphaOf, expOf, ws1[t - 1], ls1[t - 1], ws1[t]);
      assert Boosted(data, labels, d, alphaOf, expOf, ws2[t - 1], ls2[t - 1], ws2[t]);
      SameBoost(data, labels, d, alphaOf, expOf, ws1[t - 1], ls1[t - 1], ws1[t], ls2[t - 1], ws2[t]);
    }
  }

  /** From the same weights a round can go only one way. */
  lemma SameBoost(data: seq<seq<real>>, labels: seq<real>, d: nat, alphaOf: real -> real, expOf: real -> real,
                  w: seq<real>, l1: WeakLearner, w1: seq<real>, l2: WeakLearner, w2: seq<real>)
    requires AllLength(data, d) && |labels| == |data|
    requires Boosted(data, labels, d, alphaOf, expOf, w, l1, w1) && Boosted(data, labels, d, alphaOf, expOf, w, l2, w2)
    ensures l1 == l2 && w1 == w2
  {
    SamePick(data, labels, w, d, alphaOf, l1, l2);
  }

  /** For given weights the search can pick only one stump. */
  lemma SamePick(data: seq<seq<real>>, labels: seq<real>, w: seq<real>, d: nat, alphaOf: real -> real, l1: WeakLearner, l2: WeakLearner)
    requires AllLength(data, d) && |labels| == |data| && |w| == |data|
    requires Picked(data, labels, w, d, alphaOf, l1) && Picked(data, labels, w, d, alphaOf, l2)
    ensures l1 == l2
  {
    var i1: nat :| i1 < |data| && l1.threshold == data[i1][l1.featureIndex]
         && FirstMinimum(data, labels, w, d, l1.featureIndex, i1, CandidateError(data, labels, w, d, l1.featureIndex, i1))
         && l1.alpha == alphaOf(CandidateError(data, labels, w, d, l1.featureIndex, i1));
    var i2: nat :| i2 < |data| && l2.threshold == data[i2][l2.featureIndex]
         && FirstMinimum(data, labels, w, d, l2.featureIndex, i2, CandidateError(data, labels, w, d, l2.featureIndex, i2))
         && l2.alpha == alphaOf(CandidateError(data, labels, w, d, l2.featureIndex, i2));
    FirstMinimumUnique(data, labels, w, d,
      l1.featureIndex, i1, CandidateError(data, labels, w, d, l1.featureIndex, i1),
      l2.featureIndex, i2, CandidateError(data, labels, w, d, l2.featureIndex, i2));
  }

  /** One boosting round's stump: with the weights a distribution, some
      candidate has an error below the starting value, so the search
      returns the first minimum. */
  method BoostingRound(data: seq<seq<real>>, labels: seq<real>, weights: seq<real>, d: nat, alphaOf: real -> real)
    returns (learner: WeakLearner)
    requires AllLength(data, d) && |labels| == |data| && |weights| == |data| && |data| > 0 && d > 0
    requires IsDistribution(weights)
    ensures Picked(data, labels, weights, d, alphaOf, learner)
  {
    ghost var f, i, e;
    learner, f, i, e := TrainWeakLearner(data, labels, weights, d, alphaOf);
    ErrorBounds(data, labels, weights, d, 0, data[0][0]);
    assert CandidateError(data, labels, weights, d, 0, 0) <= 1.0 < MaxDouble;
    assert e < MaxDouble;
    assert learner.threshold == data[i][learner.featureIndex];
  }

  /** `train_adaboost`: `numLearners` rounds of search, reweighting and
      normalisation, starting from uniform weights. */
  method TrainAdaboost(data: seq<seq<real>>, labels: seq<real>, d: nat, numLearners: int, alphaOf: real -> real, expOf: real -> real)
    returns (learners: seq<WeakLearner>, ghost ws: seq<seq<real>>)
    requires AllLength(data, d) && |labels| == |data| && |data| > 0 && d > 0
    requires forall x :: expOf(x) > 0.0
    ensures Trained(data, labels, d, if numLearners < 0 then 0 else numLearners, alphaOf, expOf, learners, ws)
    ensures AllDistributions(ws)
  {
    learners := [];
    var weights := Uniform(|data|);
    UniformIsDistribution(|data|);
    ws := [weights];
    var t := 0;
    while t < numLearners
      invariant 0 <= t <= (if numLearners < 0 then 0 else numLearners)
      invariant Trained(data, labels, d, t, alphaOf, expOf, learners, ws)
      invariant weights == ws[t] && AllDistributions(ws)
      decreases numLearners - t
    {
      var learner := BoostingRound(data, labels, weights, d, alphaOf);
      ReweightedIsDistribution(data, labels, weights, d, learner, expOf);
      var scaled := Reweighted(data, labels, weights, d, learner, expOf);
      var next := Normalized(scaled);
      TrainedSnoc(data, labels, d, t, alphaOf, expOf, learners, ws, learner, next);
      learners := learners + [learner];
      weights := next;
      ws := ws + [weights];
      t := t + 1;
    }
  }

  /** Every weight vector of the training is a distribution. */
  ghost predicate AllDistributions(ws: seq<seq<real>>) {
    forall t :: 0 <= t < |ws| ==> IsDistribution(ws[t])
  }

  /** One more round extends a training by its stump and its new weights. */
  lemma TrainedSnoc(data: seq<seq<real>>, labels: seq<real>, d: nat, count: nat, alphaOf: real -> real, expOf: real -> real,
                    ls: seq<WeakLearner>, ws: seq<seq<real>>, l: WeakLearner, w: seq<real>)
    requires AllLength(data, d) && |labels| == |data| && |data| > 0
    requires Trained(data, labels, d, count, alphaOf, expOf, ls, ws) && AllDistributions(ws)
    requires Boosted(data, labels, d, alphaOf, expOf, ws[count], l, w) && IsDistribution(w)
    ensures Trained(data, labels, d, count + 1, alphaOf, expOf, ls + [l], ws + [w])
    ensures AllDistributions(ws + [w])
  {
    var ls', ws' := ls + [l], ws + [w];
    assert Boosted(data, labels, d, alphaOf, expOf, ws[count], l, w);
    forall t | 0 <= t < count + 1 ensures Boosted(data, labels, d, alphaOf, expOf, ws'[t], ls'[t], ws'[t + 1]) {
      if t < count {
        assert Boosted(data, labels, d, alphaOf, expOf, ws[t], ls[t], ws[t + 1]);
        assert ws'[t] == ws[t] && ls'[t] == ls[t] && ws'[t + 1] == ws[t + 1];
      }
    }
  }

  // ---------------------------------------------------------------------------
  // The exchange with the server (`main`)

  /** The request: the learner count, the value count, then the values. */
  function Request(ls: seq<WeakLearner>): seq<Token> {
    [Int(|ls|), Int(|Serialized(ls)|)] + Dbls(Serialized(ls))
  }

  /** Reading the global model: its value count, then that many doubles,
      decoded as whole triples.  A negative count cannot be allocated. */
  function ReadModel(s: seq<Token>): (r: Read<seq<WeakLearner>>)
    ensures r.Got? ==> |r.rest| < |s|
  {
    match ReadInt(s)
    case Failed => Failed
    case Got(size, s1) =>
      if size < 0 then Failed
      else
        match ReadDbls(s1, size)
        case Failed => Failed
        case Got(v, rest) => Got(Learners(v, |v| / 3), rest)
  }

  /** `deserialize_learners`: whole triples from the front, as long as
      three values remain. */
  method DeserializeLearners(serialized: seq<real>) returns (learners: seq<WeakLearner>)
    ensures learners == Learners(serialized, |serialized| / 3)
  {
    learners := [];
    var i := 0;
    while i + 2 < |serialized|
      invariant i == 3 * |learners| && i <= |serialized|
      invariant learners == Learners(serialized, |learners|)
      decreases |serialized| - i
    {
      var learner := WeakLearner(TruncateToInt(serialized[i]), serialized[i + 1], serialized[i + 2]);
      learners := learners + [learner];
      i := i + 3;
    }
  }

  /** Lines 114-119: read the reply and decode it. */
  method ReceiveModel(s: seq<Token>) returns (r: Read<seq<WeakLearner>>)
    ensures r == ReadModel(s)
  {
    var size := ReadInt(s);
    if size.Failed? || size.value < 0 {
      return Failed;
    }
    var globalVecSize := size.value;
    var payload := ReadDbls(size.rest, globalVecSize);
    if payload.Failed? {
      return Failed;
    }
    var globalModel := DeserializeLearners(payload.value);
    r := Got(globalModel, payload.rest);
  }

  /** What a run of the client wrote, the global models it read, and
      whether every epoch completed. */
  datatype Outcome = Outcome(sent: seq<Token>, models: seq<seq<WeakLearner>>, completed: bool)

  /** The epoch loop from `epochs` epochs before its end: send the request,
      read a model; a failed read ends the run. */
  function Session(s: seq<Token>, request: seq<Token>, epochs: int, out: seq<Token>, models: seq<seq<WeakLearner>>): (r: Outcome)
    ensures |models| <= |r.models| <= |models| + (if epochs > 0 then epochs else 0)
    ensures r.completed <==> |r.models| == |models| + (if epochs > 0 then epochs else 0)
    decreases epochs
  {
    if epochs <= 0 then Outcome(out, models, true)
    else
      var sent := out + request;
      match ReadModel(s)
      case Failed => Outcome(sent, models, false)
      case Got(m, rest) => Session(rest, request, epochs - 1, sent, models + [m])
  }

  /** `main` after loading the data: five epochs of training, sending and
      receiving.  Every epoch trains from the same data and uniform
      weights, so every epoch sends the same learners: the ones `trained`
      names, two boosting rounds on the local data. */
  method RunClient(input: seq<Token>, data: seq<seq<real>>, labels: seq<real>, d: nat, alphaOf: real -> real, expOf: real -> real)
    returns (sent: seq<Token>, models: seq<seq<WeakLearner>>, completed: bool, ghost trained: seq<WeakLearner>, ghost ws: seq<seq<real>>)
    requires AllLength(data, d) && |labels| == |data| && |data| > 0 && d > 0
    requires forall x :: expOf(x) > 0.0
    ensures Trained(data, labels, d, LearnersPerEpoch, alphaOf, expOf, trained, ws)
    ensures Outcome(sent, models, completed) == Session(input, Request(trained), NumEpochs, [], [])
  {
    sent, models := [], [];
    var rest := input;
    trained, ws := [], [];
    ghost var left := NumEpochs;
    for epoch := 0 to NumEpochs
      invariant left == NumEpochs - epoch
      invariant epoch == 0 ==> rest == input && sent == [] && models == []
      invariant epoch > 0 ==> Trained(data, labels, d, LearnersPerEpoch, alphaOf, expOf, trained, ws)
      invariant epoch > 0 ==> Session(rest, Request(trained), left, sent, models) == Session(input, Request(trained), NumEpochs, [], [])
    {
      var learners;
      ghost var w;
      learners, w := TrainAdaboost(data, labels, d, LearnersPerEpoch, alphaOf, expOf);
      if epoch == 0 {
        trained, ws := learners, w;
      } else {
        TrainedUnique(data, labels, d, LearnersPerEpoch, alphaOf, expOf, learners, w, trained, ws);
      }
      var serialized := SerializeLearners(learners);
      var numLearners := |learners|;
      var vecSize := |serialized|;
      ghost var before, request, epochs := sent, Request(trained), left;
      sent := sent + ([Int(numLearners), Int(vecSize)] + Dbls(serialized));
      var reply := ReceiveModel(rest);
      left := left - 1;
      SessionStep(rest, request, epochs, left, before, sent, models);
      if reply.Failed? {
        return sent, models, false, trained, ws;
      }
      models := models + [reply.value];
      rest := reply.rest;
    }
    completed := true;
  }

  /** One epoch of `Session`: the request is sent, then the model read. */
  lemma SessionStep(s: seq<Token>, request: seq<Token>, epochs: int, epochs': int, out: seq<Token>, out': seq<Token>,
                    models: seq<seq<WeakLearner>>)
    requires epochs > 0 && epochs' == epochs - 1 && out' == out + request
    ensures ReadModel(s).Failed? ==> Session(s, request, epochs, out, models) == Outcome(out', models, false)
    ensures ReadModel(s).Got? ==>
              Session(s, request, epochs, out, models) == Session(ReadModel(s).rest, request, epochs', out', models + [ReadModel(s).value])
  {
  }

  // ---------------------------------------------------------------------------
  // The two sides together

  /** The server decodes the client's request into the very learners the
      client trained, appends them, and answers with the top of the list. */
  lemma ServerAcceptsRequest(aggregated: seq<WeakLearner>, ls: seq<WeakLearner>, tail: seq<Token>)
    ensures AdaBoostServer.Round(aggregated, Request(ls) + tail)
            == AdaBoostServer.Next(aggregated + ls,
                                   AdaBoostServer.ReplyFrame(AdaBoostServer.TopN(AdaBoostServer.SortByAlpha(aggregated + ls))),
                                   tail)
  {
    var v := Serialized(ls);
    var s2 := Dbls(v) + tail;
    var s1 := [Int(|v|)] + s2;
    assert Request(ls) + tail == [Int(|ls|)] + s1;
    ReadIntOf(|ls|, s1);
    ReadIntOf(|v|, s2);
    ReadDblsOfDbls(v, tail);
    RoundTrip(ls);
    assert Learners(v, |ls|) == ls;
  }

  /** The client decodes the server's reply into the learners the server sent. */
  lemma ClientReadsReply(top: seq<WeakLearner>, tail: seq<Token>)
    ensures ReadModel(AdaBoostServer.ReplyFrame(top) + tail) == Got(top, tail)
  {
    var v := Serialized(top);
    assert AdaBoostServer.ReplyFrame(top) + tail == [Int(|v|)] + (Dbls(v) + tail);
    ReadIntOf(|v|, Dbls(v) + tail);
    ReadDblsOfDbls(v, tail);
    RoundTrip(top);
    assert |v| / 3 == |top|;
  }
}
