/** Naive_Bayes/server.cpp: per-class Gaussian statistics (a mean and a
    variance per feature, a sample count and a "prior" that is the count as
    a double) are merged batch by batch with the pairwise formulas of Chan,
    Golub and LeVeque, and every batch is answered with the whole table of
    classes the batch announced. */
module NaiveBayesServer {
  import opened Wire
  import opened Vec
  import opened Moments

  /** `global_means`, `global_variances`, `global_priors`, `global_sample_counts`. */
  datatype Table = Table(means: seq<seq<real>>, variances: seq<seq<real>>, priors: seq<real>, counts: seq<int>)

  /** The four tables have one entry per class. */
  predicate WellFormed(t: Table) {
    |t.variances| == |t.means| && |t.priors| == |t.means| && |t.counts| == |t.means|
  }

  /** Every prior is its class's sample count, as a double. */
  predicate PriorsAreCounts(t: Table) {
    WellFormed(t) && forall c :: 0 <= c < |t.counts| ==> t.priors[c] == t.counts[c] as real
  }

  predicate Valid(t: Table) {
    WellFormed(t) && PriorsAreCounts(t)
  }

  /** The globals before the first batch: four empty vectors. */
  const Empty := Table([], [], [], [])

  /** The first batch's `resize`: zero means, unit variances, zero priors and counts. */
  function Init(numClasses: nat, numFeatures: nat): (t: Table)
    ensures Valid(t) && |t.counts| == numClasses
  {
    Table(seq(numClasses, _ => Zeros(numFeatures)), seq(numClasses, _ => Ones(numFeatures)),
          seq(numClasses, _ => 0.0), seq(numClasses, _ => 0))
  }

  /** `static_cast<int>` of a double: truncation toward zero. */
  function Truncate(x: real): (n: int)
    ensures n as real <= x < n as real + 1.0 || n as real - 1.0 < x <= n as real
    ensures x >= 0.0 ==> n >= 0
  {
    if x >= 0.0 then x.Floor else -((-x).Floor)
  }

  lemma TruncateInt(n: int)
    ensures Truncate(n as real) == n
  {
  }

  /** The batch size the server derives from a class's prior, `prior * total_samples`. */
  function BatchSize(prior: real, total: int): int {
    Truncate(prior * total as real)
  }

  // ---------------------------------------------------------------------------
  // The merge of one class (`aggregate_statistics`)

  /** One feature's merged mean: `mean + b * (batchMean - mean) / (a + b)`. */
  function MergedMean(mean: real, batchMean: real, a: int, b: int): real
    requires a + b != 0
  {
    mean + b as real * (batchMean - mean) / (a + b) as real
  }

  /** One feature's merged variance from the two variances, the two means
      (through their difference `delta`) and the two counts. */
  function MergedVariance(variance: real, batchVariance: real, mean: real, batchMean: real, a: int, b: int): real
    requires a + b != 0 && a + b != 1
  {
    var delta := batchMean - mean;
    ((a - 1) as real * variance + (b - 1) as real * batchVariance
     + a as real * b as real * (delta * delta) / (a + b) as real) / (a + b - 1) as real
  }

  /** The mean update of every feature, `mean + (b * delta) / (a + b)`. */
  function MergeMeans(means: seq<real>, batchMeans: seq<real>, a: int, b: int): (r: seq<real>)
    requires |batchMeans| == |means| && a + b != 0
    ensures |r| == |means|
  {
    seq(|means|, k requires 0 <= k < |means| => MergedMean(means[k], batchMeans[k], a, b))
  }

  /** The variance update of every feature. */
  function MergeVariances(variances: seq<real>, batchVariances: seq<real>, means: seq<real>, batchMeans: seq<real>, a: int, b: int): (r: seq<real>)
    requires |batchVariances| == |variances| && |means| == |variances| && |batchMeans| == |variances|
    requires a + b != 0 && a + b != 1
    ensures |r| == |variances|
  {
    seq(|variances|, k requires 0 <= k < |variances| =>
      MergedVariance(variances[k], batchVariances[k], means[k], batchMeans[k], a, b))
  }

  /** The batch statistics have the class's dimensions (Eigen leaves a
      mismatch undefined); an empty class adopts them whatever they are. */
  predicate Fits(t: Table, c: int, batchMeans: seq<real>, batchVariances: seq<real>) {
    WellFormed(t) && 0 <= c < |t.counts| &&
    (t.counts[c] == 0 ||
     (|t.means[c]| == |batchMeans| && |t.variances[c]| == |batchMeans| && |batchVariances| == |batchMeans|))
  }

  /** Neither division of the merge is by zero (IEEE would give infinities). */
  predicate NonDegenerate(t: Table, c: int, b: int)
    requires WellFormed(t) && 0 <= c < |t.counts|
  {
    t.counts[c] == 0 || (t.counts[c] + b != 0 && t.counts[c] + b != 1)
  }

  predicate Mergeable(t: Table, c: int, batchMeans: seq<real>, batchVariances: seq<real>, b: int) {
    Fits(t, c, batchMeans, batchVariances) && NonDegenerate(t, c, b)
  }

  /** `aggregate_statistics(c, batchMeans, batchVariances, b)`. */
  function Merge(t: Table, c: int, batchMeans: seq<real>, batchVariances: seq<real>, b: int): (r: Table)
    requires Mergeable(t, c, batchMeans, batchVariances, b)
    ensures WellFormed(r) && |r.counts| == |t.counts|
    ensures forall j :: 0 <= j < |t.counts| && j != c ==>
              r.means[j] == t.means[j] && r.variances[j] == t.variances[j] &&
              r.priors[j] == t.priors[j] && r.counts[j] == t.counts[j]
    ensures r.counts[c] == t.counts[c] + b && r.priors[c] == r.counts[c] as real
    ensures PriorsAreCounts(t) ==> PriorsAreCounts(r)
    ensures |r.means[c]| == |batchMeans| && |r.variances[c]| == |batchVariances|
    ensures t.counts[c] == 0 ==> r.means[c] == batchMeans && r.variances[c] == batchVariances
  {
    var a := t.counts[c];
    if a == 0 then
      Table(t.means[c := batchMeans], t.variances[c := batchVariances], t.priors[c := b as real], t.counts[c := b])
    else
      Table(t.means[c := MergeMeans(t.means[c], batchMeans, a, b)],
            t.variances[c := MergeVariances(t.variances[c], batchVariances, t.means[c], batchMeans, a, b)],
            t.priors[c := (a + b) as real], t.counts[c := a + b])
  }

  // ---------------------------------------------------------------------------
  // What the merge computes

  /** `n` rows of dimension `d` are summarised by a mean and a variance that
      are their per-feature mean and sample variance (a single row has no
      sample variance, and the merge multiplies it by `n - 1 = 0`). */
  predicate SampleSummary(mean: seq<real>, variance: seq<real>, n: int, rows: seq<seq<real>>, d: nat) {
    AllLength(rows, d) && |rows| > 0 && n == |rows| && |mean| == d && |variance| == d &&
    forall k :: 0 <= k < d ==>
      mean[k] == MeanOf(Column(rows, k, d)) && (n == 1 || variance[k] == SampleVariance(Column(rows, k, d)))
  }

  /** The same with population variances. */
  predicate PopulationSummary(mean: seq<real>, variance: seq<real>, n: int, rows: seq<seq<real>>, d: nat) {
    AllLength(rows, d) && |rows| > 0 && n == |rows| && |mean| == d && |variance| == d &&
    forall k :: 0 <= k < d ==>
      mean[k] == MeanOf(Column(rows, k, d)) && variance[k] == PopulationVariance(Column(rows, k, d))
  }

  /** The mean update is the size-weighted average of the two means. */
  lemma MergedMeanIsWeighted(mean: real, batchMean: real, a: int, b: int)
    requires a + b != 0
    ensures MergedMean(mean, batchMean, a, b) == (a as real * mean + b as real * batchMean) / (a + b) as real
  {
    var n, m := a as real, b as real;
    assert (n + m) * mean == n * mean + m * mean;
  }

  /** On one feature: the mean update gives the mean of the union. */
  lemma {:induction false} MergedMeanIsPooled(xs: seq<real>, ys: seq<real>)
    requires |xs| > 0 && |ys| > 0
    ensures MergedMean(MeanOf(xs), MeanOf(ys), |xs|, |ys|) == MeanOf(xs + ys)
  {
    PooledMean(xs, ys);
    MergedMeanIsWeighted(MeanOf(xs), MeanOf(ys), |xs|, |ys|);
  }

  /** On one feature: given sample variances, the variance update gives the
      sample variance of the union. */
  lemma {:induction false} MergedVarianceIsPooled(xs: seq<real>, ys: seq<real>, variance: real, batchVariance: real)
    requires |xs| > 0 && |ys| > 0
    requires |xs| == 1 || variance == SampleVariance(xs)
    requires |ys| == 1 || batchVariance == SampleVariance(ys)
    ensures MergedVariance(variance, batchVariance, MeanOf(xs), MeanOf(ys), |xs|, |ys|) == SampleVariance(xs + ys)
  {
    var a, b := |xs|, |ys|;
    var x, y := MeanOf(xs), MeanOf(ys);
    var px, py, pz := M2(xs), M2(ys), M2(xs + ys);
    if a == 1 {
      SingleDeviation(xs);
    }
    if b == 1 {
      SingleDeviation(ys);
    }
    PooledDeviation(xs, ys);
    SampleAtoms(a, variance, px);
    SampleAtoms(b, batchVariance, py);
    PooledVarianceAtoms(a, b, variance, batchVariance, x, y, px, py, pz);
    var v := MergedVariance(variance, batchVariance, x, y, a, b);
    assert |xs + ys| == a + b;
    assert v == SampleVariance(xs + ys);
  }

  /** A single value deviates from its own mean by nothing. */
  lemma SingleDeviation(xs: seq<real>)
    requires |xs| == 1
    ensures M2(xs) == 0.0
  {
    assert xs[1..] == [];
    var x := xs[0];
    assert Sum(xs) == x && SumSq(xs) == x * x;
  }

  lemma SampleAtoms(n: int, v: real, p: real)
    requires n >= 1 && (n == 1 ==> p == 0.0) && (n != 1 ==> v == p / (n - 1) as real)
    ensures (n - 1) as real * v == p
  {
  }

  lemma PooledVarianceAtoms(a: int, b: int, va: real, vb: real, x: real, y: real, px: real, py: real, pz: real)
    requires a >= 1 && b >= 1
    requires (a - 1) as real * va == px && (b - 1) as real * vb == py && pz == px + py + Pair(a as real, b as real, x, y)
    ensures MergedVariance(va, vb, x, y, a, b) == pz / (a + b - 1) as real
  {
    var n, m := a as real, b as real;
    var cross := n * m * ((y - x) * (y - x)) / (n + m);
    assert cross == Pair(n, m, x, y);
    assert MergedVariance(va, vb, x, y, a, b) == (px + py + cross) / (n + m - 1.0);
  }

  /** Merging the sample summary of a batch of rows `ys` into a class that
      summarises the rows `xs` (or is still empty) leaves the class
      summarising `xs + ys`. */
  lemma {:induction false} MergeIsPooled(t: Table, c: int, xs: seq<seq<real>>, ys: seq<seq<real>>, batchMeans: seq<real>, batchVariances: seq<real>, d: nat)
    requires WellFormed(t) && 0 <= c < |t.counts|
    requires (xs == [] && t.counts[c] == 0) || SampleSummary(t.means[c], t.variances[c], t.counts[c], xs, d)
    requires SampleSummary(batchMeans, batchVariances, |ys|, ys, d)
    ensures Mergeable(t, c, batchMeans, batchVariances, |ys|)
    ensures SampleSummary(Merge(t, c, batchMeans, batchVariances, |ys|).means[c],
                          Merge(t, c, batchMeans, batchVariances, |ys|).variances[c],
                          Merge(t, c, batchMeans, batchVariances, |ys|).counts[c], xs + ys, d)
  {
    var r := Merge(t, c, batchMeans, batchVariances, |ys|);
    if xs == [] {
      assert xs + ys == ys;
    } else {
      forall k | 0 <= k < d
        ensures r.means[c][k] == MeanOf(Column(xs + ys, k, d))
        ensures r.variances[c][k] == SampleVariance(Column(xs + ys, k, d))
      {
        ColumnAppend(xs, ys, k, d);
        MergedMeanIsPooled(Column(xs, k, d), Column(ys, k, d));
        MergedVarianceIsPooled(Column(xs, k, d), Column(ys, k, d), t.variances[c][k], batchVariances[k]);
      }
      AllLengthAppend(xs, ys, d);
    }
  }

  // ---------------------------------------------------------------------------
  // Findings: an empty batch, and population variances

  /** A batch holding no row of class `c` arrives as zero means, unit
      variances and prior 0, so a batch size of 0; merging it keeps the
      means but lowers every variance of a class of `a >= 2` rows by
      `1 / (a - 1)`, although no data was added. */
  lemma {:induction false} EmptyBatchShrinksVariance(t: Table, c: int, d: nat)
    requires WellFormed(t) && 0 <= c < |t.counts| && t.counts[c] >= 2
    requires |t.means[c]| == d && |t.variances[c]| == d
    ensures Mergeable(t, c, Zeros(d), Ones(d), 0)
    ensures Merge(t, c, Zeros(d), Ones(d), 0).means[c] == t.means[c]
    ensures forall k :: 0 <= k < d ==>
              Merge(t, c, Zeros(d), Ones(d), 0).variances[c][k] == t.variances[c][k] - 1.0 / (t.counts[c] - 1) as real
  {
    var r := Merge(t, c, Zeros(d), Ones(d), 0);
    var a := t.counts[c];
    forall k | 0 <= k < d
      ensures r.variances[c][k] == t.variances[c][k] - 1.0 / (a - 1) as real
    {
      var n := (a - 1) as real;
      assert r.variances[c][k] == (n * t.variances[c][k] - 1.0) / n;
    }
    assert r.means[c] == t.means[c];
  }

  /** The client sends population variances (divisor `n`) while the merge
      expects sample variances (divisor `n - 1`): for the rows `{0, 2}` of
      one feature followed by a batch `{4}`, the client sends variances 1
      and 0 and the server answers 3.5, where the population variance of
      `{0, 2, 4}` is 8/3 and its sample variance 4. */
  lemma PopulationInputsMispooled()
    ensures PopulationVariance([0.0, 2.0]) == 1.0 && PopulationVariance([4.0]) == 0.0
    ensures MergedVariance(1.0, 0.0, 1.0, 4.0, 2, 1) == 3.5
    ensures PopulationVariance([0.0, 2.0, 4.0]) == 8.0 / 3.0
    ensures SampleVariance([0.0, 2.0, 4.0]) == 4.0
  {
    var xs, ys, zs := [0.0, 2.0], [4.0], [0.0, 2.0, 4.0];
    assert ys[1..] == [];
    assert Sum(ys) == 4.0 && SumSq(ys) == 16.0;
    assert xs[1..] == [2.0] && zs[1..] == [2.0, 4.0] && zs[1..][1..] == ys;
    assert Sum(xs) == 2.0 && SumSq(xs) == 4.0;
    assert Sum(zs) == 6.0 && SumSq(zs) == 20.0;
    assert M2(xs) == 2.0 && M2(ys) == 0.0 && M2(zs) == 8.0;
  }

  /** One feature's merged population variance. */
  function PooledVariance(variance: real, batchVariance: real, mean: real, batchMean: real, a: int, b: int): real
    requires a + b != 0
  {
    var delta := batchMean - mean;
    (a as real * variance + b as real * batchVariance + a as real * b as real * (delta * delta) / (a + b) as real)
    / (a + b) as real
  }

  /** The intended merge: an empty batch leaves the class as it is, and the
      variances are pooled as population variances. */
  function MergeCorrected(t: Table, c: int, batchMeans: seq<real>, batchVariances: seq<real>, b: int): (r: Table)
    requires Fits(t, c, batchMeans, batchVariances) && t.counts[c] + b != 0
    ensures WellFormed(r) && |r.counts| == |t.counts|
    ensures forall j :: 0 <= j < |t.counts| && j != c ==>
              r.means[j] == t.means[j] && r.variances[j] == t.variances[j] &&
              r.priors[j] == t.priors[j] && r.counts[j] == t.counts[j]
    ensures r.counts[c] == t.counts[c] + b
    ensures PriorsAreCounts(t) ==> PriorsAreCounts(r)
    ensures b == 0 ==> r == t
  {
    var a := t.counts[c];
    if b == 0 then t
    else if a == 0 then
      Table(t.means[c := batchMeans], t.variances[c := batchVariances], t.priors[c := b as real], t.counts[c := b])
    else
      var pooled := seq(|batchMeans|, k requires 0 <= k < |batchMeans| =>
        PooledVariance(t.variances[c][k], batchVariances[k], t.means[c][k], batchMeans[k], a, b));
      Table(t.means[c := MergeMeans(t.means[c], batchMeans, a, b)], t.variances[c := pooled],
            t.priors[c := (a + b) as real], t.counts[c := a + b])
  }

  lemma PopulationAtoms(a: int, b: int, vx: real, vy: real, x: real, y: real, px: real, py: real, pz: real)
    requires a >= 1 && b >= 1
    requires vx == px / a as real && vy == py / b as real && pz == px + py + Pair(a as real, b as real, x, y)
    ensures PooledVariance(vx, vy, x, y, a, b) == pz / (a + b) as real
  {
    var n, m := a as real, b as real;
    assert n * vx == px && m * vy == py;
    var cross := n * m * ((y - x) * (y - x)) / (n + m);
    assert cross == Pair(n, m, x, y);
    assert PooledVariance(vx, vy, x, y, a, b) == (px + py + cross) / (n + m);
  }

  /** On one feature: the corrected variance update of two population
      variances is the population variance of the union. */
  lemma {:induction false} PooledVarianceIsPooled(xs: seq<real>, ys: seq<real>)
    requires |xs| > 0 && |ys| > 0
    ensures PooledVariance(PopulationVariance(xs), PopulationVariance(ys), MeanOf(xs), MeanOf(ys), |xs|, |ys|)
            == PopulationVariance(xs + ys)
  {
    var a, b := |xs|, |ys|;
    var vx, vy, x, y := PopulationVariance(xs), PopulationVariance(ys), MeanOf(xs), MeanOf(ys);
    var px, py, pz := M2(xs), M2(ys), M2(xs + ys);
    PooledDeviation(xs, ys);
    PopulationAtoms(a, b, vx, vy, x, y, px, py, pz);
    var v := PooledVariance(vx, vy, x, y, a, b);
    assert |xs + ys| == a + b;
    assert v == PopulationVariance(xs + ys);
  }

  /** With the corrected merge, a class summarising rows `xs` (or empty)
      that receives the population summary of a batch `ys` (or the empty
      batch) summarises `xs + ys`. */
  lemma {:induction false} MergeCorrectedIsPooled(t: Table, c: int, xs: seq<seq<real>>, ys: seq<seq<real>>, batchMeans: seq<real>, batchVariances: seq<real>, d: nat)
    requires WellFormed(t) && 0 <= c < |t.counts| && xs + ys != []
    requires (xs == [] && t.counts[c] == 0) || PopulationSummary(t.means[c], t.variances[c], t.counts[c], xs, d)
    requires (ys == [] && |batchMeans| == d && |batchVariances| == d) ||
             PopulationSummary(batchMeans, batchVariances, |ys|, ys, d)
    ensures Fits(t, c, batchMeans, batchVariances) && t.counts[c] + |ys| != 0
    ensures PopulationSummary(MergeCorrected(t, c, batchMeans, batchVariances, |ys|).means[c],
                              MergeCorrected(t, c, batchMeans, batchVariances, |ys|).variances[c],
                              MergeCorrected(t, c, batchMeans, batchVariances, |ys|).counts[c], xs + ys, d)
  {
    var r := MergeCorrected(t, c, batchMeans, batchVariances, |ys|);
    if ys == [] {
      assert xs + ys == xs;
    } else if xs == [] {
      assert xs + ys == ys;
    } else {
      var a, b := |xs|, |ys|;
      forall k | 0 <= k < d
        ensures r.means[c][k] == MeanOf(Column(xs + ys, k, d))
        ensures r.variances[c][k] == PopulationVariance(Column(xs + ys, k, d))
      {
        ColumnAppend(xs, ys, k, d);
        MergedMeanIsPooled(Column(xs, k, d), Column(ys, k, d));
        PooledVarianceIsPooled(Column(xs, k, d), Column(ys, k, d));
      }
      AllLengthAppend(xs, ys, d);
    }
  }

  // ---------------------------------------------------------------------------
  // The wire format of one batch

  /** `total_samples`, `num_classes`, `num_features`. */
  datatype BatchHeader = BatchHeader(total: int, numClasses: int, numFeatures: int)

  /** One class's prior, means and variances, in the order they are sent. */
  datatype ClassStats = ClassStats(prior: real, mean: seq<real>, variance: seq<real>)

  function HeaderFrame(h: BatchHeader): seq<Token> {
    [Int(h.total), Int(h.numClasses), Int(h.numFeatures)]
  }

  function ReadBatchHeader(s: seq<Token>): (r: Read<BatchHeader>)
    ensures r.Got? ==> |s| >= 3 && r.rest == s[3..]
  {
    match ReadInt(s)
    case Failed => Failed
    case Got(total, s1) =>
      match ReadInt(s1)
      case Failed => Failed
      case Got(numClasses, s2) =>
        match ReadInt(s2)
        case Failed => Failed
        case Got(numFeatures, s3) => Got(BatchHeader(total, numClasses, numFeatures), s3)
  }

  function ClassFrame(cs: ClassStats): seq<Token> {
    [Dbl(cs.prior)] + Dbls(cs.mean) + Dbls(cs.variance)
  }

  function ReadClassStats(s: seq<Token>, numFeatures: nat): (r: Read<ClassStats>)
    ensures r.Got? ==> |r.value.mean| == numFeatures && |r.value.variance| == numFeatures && |r.rest| < |s|
  {
    match ReadDbl(s)
    case Failed => Failed
    case Got(prior, s1) =>
      match ReadDbls(s1, numFeatures)
      case Failed => Failed
      case Got(mean, s2) =>
        match ReadDbls(s2, numFeatures)
        case Failed => Failed
        case Got(variance, s3) => Got(ClassStats(prior, mean, variance), s3)
  }

  lemma ReadBatchHeaderOf(h: BatchHeader, tail: seq<Token>)
    ensures ReadBatchHeader(HeaderFrame(h) + tail) == Got(h, tail)
  {
    var s := HeaderFrame(h) + tail;
    assert s[1..] == [Int(h.numClasses), Int(h.numFeatures)] + tail;
    assert s[1..][1..] == [Int(h.numFeatures)] + tail;
    assert s[1..][1..][1..] == tail;
  }

  lemma ReadClassStatsOf(cs: ClassStats, numFeatures: nat, tail: seq<Token>)
    requires |cs.mean| == numFeatures && |cs.variance| == numFeatures
    ensures ReadClassStats(ClassFrame(cs) + tail, numFeatures) == Got(cs, tail)
  {
    var s := ClassFrame(cs) + tail;
    assert s[1..] == Dbls(cs.mean) + (Dbls(cs.variance) + tail);
    ReadDblsOfDbls(cs.mean, Dbls(cs.variance) + tail);
    ReadDblsOfDbls(cs.variance, tail);
  }

  /** The reply for class `c`: its means, its variances and its prior. */
  function ClassReply(t: Table, c: nat): seq<Token>
    requires WellFormed(t) && c < |t.counts|
  {
    Dbls(t.means[c]) + Dbls(t.variances[c]) + [Dbl(t.priors[c])]
  }

  /** The reply for classes `0 .. n - 1`, in order. */
  function Reply(t: Table, n: int): seq<Token>
    requires WellFormed(t) && n <= |t.counts|
    decreases n
  {
    if n <= 0 then [] else Reply(t, n - 1) + ClassReply(t, n - 1)
  }

  // ---------------------------------------------------------------------------
  // One session (`process_batches`)

  /** Why a session ends: the socket failed or closed while reading the
      header or a class; the first batch's shapes cannot be allocated; a
      batch names more classes than the table holds, or statistics of
      another dimension; or a merge would divide by zero. */
  datatype End = HeaderFailed | NegativeShape | ClassCountFailed | PayloadFailed
               | ClassOutOfRange | DimensionMismatch | Degenerate

  datatype Opened = Opened(table: Table) | Refused(end: End)

  /** The table a batch is merged into: the very first batch initialises it
      (when the globals are empty), later batches use it as it is. */
  function Prepare(t: Table, h: BatchHeader): (r: Opened)
    requires Valid(t)
    ensures r.Opened? ==> Valid(r.table) && (h.numFeatures >= 0 || h.numClasses <= 0)
    ensures r.Opened? && |t.means| > 0 ==> r.table == t
  {
    if |t.means| == 0 then
      if h.numFeatures < 0 then Refused(NegativeShape)
      else if h.numClasses < 0 then Refused(ClassCountFailed)
      else Opened(Init(h.numClasses, h.numFeatures))
    else if h.numFeatures < 0 && h.numClasses > 0 then Refused(NegativeShape)
    else Opened(t)
  }

  datatype Classes = Merged(table: Table, rest: seq<Token>) | Halted(table: Table, end: End)

  /** The class loop from class `c` on: read each class's statistics and
      merge them; merges already done stay when a later class fails. */
  function ReadClasses(t: Table, s: seq<Token>, c: nat, h: BatchHeader): (r: Classes)
    requires Valid(t) && (h.numFeatures >= 0 || h.numClasses <= 0)
    ensures Valid(r.table) && |r.table.counts| == |t.counts|
    ensures forall j :: 0 <= j < c && j < |t.counts| ==>
              r.table.means[j] == t.means[j] && r.table.variances[j] == t.variances[j]
    ensures r.Merged? ==> |r.rest| <= |s| && (c < h.numClasses ==> h.numClasses <= |t.counts|)
    ensures r.Merged? ==> forall j :: c <= j < h.numClasses ==>
              |r.table.means[j]| == h.numFeatures && |r.table.variances[j]| == h.numFeatures
    decreases h.numClasses - c
  {
    if c >= h.numClasses then Merged(t, s)
    else
      match ReadClassStats(s, h.numFeatures)
      case Failed => Halted(t, PayloadFailed)
      case Got(cs, rest) =>
        if c >= |t.counts| then Halted(t, ClassOutOfRange)
        else if !Fits(t, c, cs.mean, cs.variance) then Halted(t, DimensionMismatch)
        else if !NonDegenerate(t, c, BatchSize(cs.prior, h.total)) then Halted(t, Degenerate)
        else ReadClasses(Merge(t, c, cs.mean, cs.variance, BatchSize(cs.prior, h.total)), rest, c + 1, h)
  }

  datatype Step = Next(table: Table, reply: seq<Token>, rest: seq<Token>) | Stop(table: Table, end: End)

  /** One batch: header, (first) initialisation, the classes, the reply. */
  function Round(t: Table, s: seq<Token>): (r: Step)
    requires Valid(t)
    ensures Valid(r.table)
    ensures |t.means| > 0 ==> |r.table.counts| == |t.counts|
    ensures r.Next? ==> |r.rest| < |s|
  {
    match ReadBatchHeader(s)
    case Failed => Stop(t, HeaderFailed)
    case Got(h, s1) =>
      match Prepare(t, h)
      case Refused(e) => Stop(t, e)
      case Opened(t1) =>
        match ReadClasses(t1, s1, 0, h)
        case Halted(t2, e) => Stop(t2, e)
        case Merged(t2, s2) => Next(t2, Reply(t2, h.numClasses), s2)
  }

  /** The whole session, from the table `t` and the client's bytes. */
  function Run(t: Table, s: seq<Token>, out: seq<Token>): (r: (Table, seq<Token>, End))
    requires Valid(t)
    ensures Valid(r.0) && out <= r.1
    ensures |t.means| > 0 ==> |r.0.counts| == |t.counts|
    decreases |s|
  {
    match Round(t, s)
    case Stop(t', e) => (t', out, e)
    case Next(t', reply, rest) => Run(t', rest, out + reply)
  }

  /** The globals, shared by every session. */
  class Server {
    var globalMeans: seq<seq<real>>
    var globalVariances: seq<seq<real>>
    var globalPriors: seq<real>
    var globalSampleCounts: seq<int>

    function Current(): Table
      reads this
    {
      Table(globalMeans, globalVariances, globalPriors, globalSampleCounts)
    }

    ghost predicate Inv()
      reads this
    {
      Valid(Current())
    }

    constructor ()
      ensures Current() == Empty && Inv()
    {
      globalMeans, globalVariances, globalPriors, globalSampleCounts := [], [], [], [];
    }

    /** `aggregate_statistics`. */
    method AggregateStatistics(classIndex: int, batchMeans: seq<real>, batchVariances: seq<real>, batchSize: int)
      requires Inv() && Mergeable(Current(), classIndex, batchMeans, batchVariances, batchSize)
      modifies this
      ensures Inv()
      ensures Current() == Merge(old(Current()), classIndex, batchMeans, batchVariances, batchSize)
    {
      if globalSampleCounts[classIndex] == 0 {
        globalMeans := globalMeans[classIndex := batchMeans];
        globalVariances := globalVariances[classIndex := batchVariances];
        globalSampleCounts := globalSampleCounts[classIndex := batchSize];
        globalPriors := globalPriors[classIndex := batchSize as real];
      } else {
        var n := globalSampleCounts[classIndex];
        var totalSamples := n + batchSize;
        var means := globalMeans[classIndex];
        globalMeans := globalMeans[classIndex := MergeMeans(means, batchMeans, n, batchSize)];
        var combinedVariances := MergeVariances(globalVariances[classIndex], batchVariances, means, batchMeans, n, batchSize);
        globalVariances := globalVariances[classIndex := combinedVariances];
        globalSampleCounts := globalSampleCounts[classIndex := totalSamples];
        globalPriors := globalPriors[classIndex := totalSamples as real];
      }
    }

    /** `process_batches`: batch after batch until the socket fails. */
    method ProcessBatches(input: seq<Token>) returns (output: seq<Token>, end: End)
      requires Inv()
      modifies this
      ensures Inv()
      ensures (Current(), output, end) == Run(old(Current()), input, [])
    {
      output := [];
      var rest := input;
      while true
        invariant Inv()
        invariant Run(Current(), rest, output) == Run(old(Current()), input, [])
        decreases |rest|
      {
        ghost var t0, s0 := Current(), rest;
        var header := ReadBatchHeader(rest);
        if header.Failed? {
          end := HeaderFailed;
          return;
        }
        var h := header.value;
        var prepared := Prepare(Current(), h);
        if prepared.Refused? {
          end := prepared.end;
          return;
        }
        if |globalMeans| == 0 {
          globalMeans := seq(h.numClasses, _ => Zeros(h.numFeatures));
          globalVariances := seq(h.numClasses, _ => Ones(h.numFeatures));
          globalPriors := seq(h.numClasses, _ => 0.0);
          globalSampleCounts := seq(h.numClasses, _ => 0);
        }
        assert Current() == prepared.table;
        var outcome := MergeClasses(header.rest, h);
        if outcome.Halted? {
          end := outcome.end;
          return;
        }
        var reply := SendReply(h.numClasses);
        output := output + reply;
        rest := outcome.rest;
      }
    }
 
    /** The class loop of one batch: read and merge class after class. */
    method MergeClasses(s: seq<Token>, h: BatchHeader) returns (outcome: Classes)
      requires Inv() && (h.numFeatures >= 0 || h.numClasses <= 0)
      modifies this
      ensures Inv()
      ensures outcome == ReadClasses(old(Current()), s, 0, h) && Current() == outcome.table
    {
      ghost var t0 := Current();
      var pending := s;
      var c := 0;
      while c < h.numClasses
        invariant 0 <= c && Inv() && |Current().counts| == |t0.counts|
        invariant ReadClasses(Current(), pending, c, h) == ReadClasses(t0, s, 0, h)
        decreases h.numClasses - c
      {
        var prior := ReadDbl(pending);
        if prior.Failed? {
          return Halted(Current(), PayloadFailed);
        }
        var mean := ReadDbls(prior.rest, h.numFeatures);
        if mean.Failed? {
          return Halted(Current(), PayloadFailed);
        }
        var variance := ReadDbls(mean.rest, h.numFeatures);
        if variance.Failed? {
          return Halted(Current(), PayloadFailed);
        }
        if c >= |globalSampleCounts| {
          return Halted(Current(), ClassOutOfRange);
        }
        var batchSize := BatchSize(prior.value, h.total);
        if !Fits(Current(), c, mean.value, variance.value) {
          return Halted(Current(), DimensionMismatch);
        }
        if !NonDegenerate(Current(), c, batchSize) {
          return Halted(Current(), Degenerate);
        }
        AggregateStatistics(c, mean.value, variance.value, batchSize);
        pending := variance.rest;
        c := c + 1;
      }
      return Merged(Current(), pending);
    }

    /** The reply loop: means, variances and prior of classes `0 .. n - 1`. */
    method SendReply(n: int) returns (reply: seq<Token>)
      requires Inv() && n <= |globalSampleCounts|
      ensures reply == Reply(Current(), n)
    {
      reply := [];
      var c := 0;
      while c < n
        invariant 0 <= c && (c == 0 || c <= n)
        invariant reply == Reply(Current(), c)
      {
        reply := reply + Dbls(globalMeans[c]) + Dbls(globalVariances[c]) + [Dbl(globalPriors[c])];
        c := c + 1;
      }
    }
  }
}
