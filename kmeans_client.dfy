/** KMeans/client.cpp: one local k-means iteration (label every point with
    its nearest centroid, then move each centroid to the mean of its
    points), the choice of initial centroids, and the local data matrix.
    Matrices are lists of rows here; `Matrices.FromRows` lays them out for
    the wire. */
module KMeansClient {
  import opened Vec
  import opened Matrices

  /** `K` and `MAX_ITERS`. */
  const Clusters := 2
  const MaxIterations := 100

  /** The squared Euclidean distance `(c - p).squaredNorm()`. */
  function SquaredDistance(c: seq<real>, p: seq<real>): (r: real)
    requires |c| == |p|
    ensures r >= 0.0
  {
    if c == [] then 0.0
    else (c[0] - p[0]) * (c[0] - p[0]) + SquaredDistance(c[1..], p[1..])
  }

  /** `l` is the first index of a centroid at minimal distance from `p`, the
      index `minCoeff` reports: no centroid is nearer, and every earlier one
      is strictly farther. */
  predicate IsNearest(cs: seq<seq<real>>, p: seq<real>, l: int)
    requires Rectangular(cs, |p|)
  {
    0 <= l < |cs| &&
    (forall j :: 0 <= j < |cs| ==> SquaredDistance(cs[l], p) <= SquaredDistance(cs[j], p)) &&
    (forall j :: 0 <= j < l ==> SquaredDistance(cs[l], p) < SquaredDistance(cs[j], p))
  }

  /** The first nearest of the first `n` centroids. */
  function NearestAmong(cs: seq<seq<real>>, p: seq<real>, n: nat): (l: nat)
    requires Rectangular(cs, |p|) && 0 < n <= |cs|
    ensures l < n
  {
    if n == 1 then 0
    else
      var b := NearestAmong(cs, p, n - 1);
      if SquaredDistance(cs[n - 1], p) < SquaredDistance(cs[b], p) then n - 1 else b
  }

  lemma {:induction false} NearestAmongIsNearest(cs: seq<seq<real>>, p: seq<real>, n: nat)
    requires Rectangular(cs, |p|) && 0 < n <= |cs|
    ensures IsNearest(cs[..n], p, NearestAmong(cs, p, n))
  {
    if n > 1 {
      NearestAmongIsNearest(cs, p, n - 1);
      assert cs[..n - 1] == cs[..n][..n - 1];
    }
  }

  function Nearest(cs: seq<seq<real>>, p: seq<real>): (l: nat)
    requires Rectangular(cs, |p|) && |cs| > 0
    ensures l < |cs|
  {
    NearestAmong(cs, p, |cs|)
  }

  /** The label of a point is the first centroid at minimal distance. */
  lemma NearestIsFirstMinimum(cs: seq<seq<real>>, p: seq<real>)
    requires Rectangular(cs, |p|) && |cs| > 0
    ensures IsNearest(cs, p, Nearest(cs, p))
  {
    NearestAmongIsNearest(cs, p, |cs|);
    assert cs[..|cs|] == cs;
  }

  /** `distances.minCoeff(&labels(i))` over the distances to every centroid. */
  method NearestCentroid(centroids: seq<seq<real>>, point: seq<real>) returns (index: nat)
    requires Rectangular(centroids, |point|) && |centroids| > 0
    ensures index == Nearest(centroids, point)
  {
    index := 0;
    var best := SquaredDistance(centroids[0], point);
    for j := 1 to |centroids|
      invariant index == NearestAmong(centroids, point, j)
      invariant best == SquaredDistance(centroids[index], point)
    {
      var distance := SquaredDistance(centroids[j], point);
      if distance < best {
        index, best := j, distance;
      }
    }
  }

  /** The points labelled `j`, in row order. */
  function Members(data: seq<seq<real>>, labels: seq<nat>, j: nat): (ms: seq<seq<real>>)
    requires |data| == |labels|
    ensures |ms| <= |data|
  {
    if data == [] then []
    else
      var n := |data| - 1;
      Members(data[..n], labels[..n], j) + (if labels[n] == j then [data[n]] else [])
  }

  lemma MembersSnoc(data: seq<seq<real>>, labels: seq<nat>, i: nat, j: nat)
    requires |data| == |labels| && i < |data|
    ensures Members(data[..i + 1], labels[..i + 1], j)
            == Members(data[..i], labels[..i], j) + (if labels[i] == j then [data[i]] else [])
  {
    assert data[..i + 1][..i] == data[..i];
    assert labels[..i + 1][..i] == labels[..i];
  }

  lemma MembersLength(data: seq<seq<real>>, labels: seq<nat>, j: nat, d: nat)
    requires |data| == |labels| && Rectangular(data, d)
    ensures AllLength(Members(data, labels, j), d)
  {
    if data != [] {
      var n := |data| - 1;
      MembersLength(data[..n], labels[..n], j, d);
    }
  }

  /** Row `j` of the result: the mean of the points labelled `j`, or zeros
      when there are none. */
  function ClusterCentroid(data: seq<seq<real>>, labels: seq<nat>, j: nat, d: nat): (c: seq<real>)
    requires |data| == |labels| && Rectangular(data, d)
    ensures |c| == d
  {
    MembersLength(data, labels, j, d);
    var ms := Members(data, labels, j);
    if |ms| > 0 then Mean(ms, d) else Zeros(d)
  }

  function Labels(cs: seq<seq<real>>, data: seq<seq<real>>, d: nat): (ls: seq<nat>)
    requires Rectangular(cs, d) && Rectangular(data, d) && (|data| > 0 ==> |cs| > 0)
    ensures |ls| == |data| && forall i :: 0 <= i < |data| ==> ls[i] == Nearest(cs, data[i])
  {
    seq(|data|, i requires 0 <= i < |data| => Nearest(cs, data[i]))
  }

  /** The result of one local iteration. */
  function Step(data: seq<seq<real>>, cs: seq<seq<real>>, d: nat): (r: seq<seq<real>>)
    requires Rectangular(cs, d) && Rectangular(data, d) && (|data| > 0 ==> |cs| > 0)
    ensures |r| == |cs| && Rectangular(r, d)
  {
    var labels := Labels(cs, data, d);
    seq(|cs|, j requires 0 <= j < |cs| => ClusterCentroid(data, labels, j, d))
  }

  /** `kmeans_single_iter`: `d` is `data.cols()`.  Its three loops are the
      three steps below: label, accumulate, divide. */
  method KMeansSingleIter(data: seq<seq<real>>, centroids: seq<seq<real>>, d: nat) returns (newCentroids: seq<seq<real>>)
    requires Rectangular(data, d) && Rectangular(centroids, d) && (|data| > 0 ==> |centroids| > 0)
    ensures newCentroids == Step(data, centroids, d)
  {
    var labels := AssignLabels(data, centroids, d);
    var counts;
    newCentroids, counts := AccumulateClusters(data, labels, |centroids|, d);
    for j := 0 to |centroids|
      invariant |newCentroids| == |centroids|
      invariant forall j' :: 0 <= j' < j ==> newCentroids[j'] == ClusterCentroid(data, labels, j', d)
      invariant forall j' :: j <= j' < |centroids| ==>
        AllLength(Members(data, labels, j'), d) &&
        newCentroids[j'] == SumAll(Members(data, labels, j'), d) &&
        counts[j'] == |Members(data, labels, j')|
    {
      if counts[j] > 0 {
        newCentroids := newCentroids[j := Div(newCentroids[j], counts[j] as real)];
      } else {
        assert Members(data, labels, j) == [];
      }
    }
  }

  /** The first loop of `kmeans_single_iter`: every point's label. */
  method AssignLabels(data: seq<seq<real>>, centroids: seq<seq<real>>, d: nat) returns (labels: seq<nat>)
    requires Rectangular(data, d) && Rectangular(centroids, d) && (|data| > 0 ==> |centroids| > 0)
    ensures labels == Labels(centroids, data, d)
  {
    labels := [];
    for i := 0 to |data|
      invariant |labels| == i && forall i' :: 0 <= i' < i ==> labels[i'] == Nearest(centroids, data[i'])
    {
      var nearest := NearestCentroid(centroids, data[i]);
      labels := labels + [nearest];
    }
  }

  /** The second loop of `kmeans_single_iter`: per cluster, the sum of its
      points and their number. */
  method AccumulateClusters(data: seq<seq<real>>, labels: seq<nat>, k: nat, d: nat) returns (sums: seq<seq<real>>, counts: seq<nat>)
    requires Rectangular(data, d) && |labels| == |data|
    requires forall i :: 0 <= i < |labels| ==> labels[i] < k
    ensures |sums| == k && |counts| == k
    ensures forall j :: 0 <= j < k ==>
      AllLength(Members(data, labels, j), d) &&
      sums[j] == SumAll(Members(data, labels, j), d) &&
      counts[j] == |Members(data, labels, j)|
  {
    sums := seq(k, _ => Zeros(d));
    counts := seq(k, _ => 0);
    for i := 0 to |data|
      invariant |sums| == k && |counts| == k
      invariant forall j :: 0 <= j < k ==>
        AllLength(Members(data[..i], labels[..i], j), d) &&
        sums[j] == SumAll(Members(data[..i], labels[..i], j), d) &&
        counts[j] == |Members(data[..i], labels[..i], j)|
    {
      var l := labels[i];
      ghost var seen, seenLabels := data[..i + 1], labels[..i + 1];
      sums := sums[l := Add(sums[l], data[i])];
      counts := counts[l := counts[l] + 1];
      forall j | 0 <= j < k
        ensures AllLength(Members(seen, seenLabels, j), d)
        ensures sums[j] == SumAll(Members(seen, seenLabels, j), d)
        ensures counts[j] == |Members(seen, seenLabels, j)|
      {
        var m := Members(data[..i], labels[..i], j);
        MembersSnoc(data, labels, i, j);
        MembersLength(seen, seenLabels, j, d);
        if j == l {
          SumAllSnoc(m, data[i], d);
        } else {
          assert Members(seen, seenLabels, j) == m + [] == m;
        }
      }
    }
    assert data[..|data|] == data && labels[..|data|] == labels;
  }

  /** The number of points labelled `j`, for every `j < k`. */
  function Counts(data: seq<seq<real>>, labels: seq<nat>, k: nat): (cs: seq<int>)
    requires |data| == |labels|
    ensures |cs| == k
  {
    seq(k, j requires 0 <= j < k => |Members(data, labels, j)|)
  }

  lemma {:induction false} SumIntsBump(xs: seq<int>, l: nat)
    requires l < |xs|
    ensures SumInts(xs[l := xs[l] + 1]) == SumInts(xs) + 1
    decreases |xs|
  {
    var n := |xs| - 1;
    var ys := xs[l := xs[l] + 1];
    if l == n {
      assert ys[..n] == xs[..n];
    } else {
      SumIntsBump(xs[..n], l);
      assert ys[..n] == xs[..n][l := xs[l] + 1];
    }
  }

  /** Every point is counted in exactly one cluster: when all labels are
      below `k`, the counts add up to the number of points. */
  lemma {:induction false} CountsPartition(data: seq<seq<real>>, labels: seq<nat>, k: nat)
    requires |data| == |labels| && forall i :: 0 <= i < |labels| ==> labels[i] < k
    ensures SumInts(Counts(data, labels, k)) == |data|
    decreases |data|
  {
    if data == [] {
      assert Counts(data, labels, k) == seq(k, _ => 0);
      SumIntsZero(k);
    } else {
      var n := |data| - 1;
      CountsPartition(data[..n], labels[..n], k);
      var before := Counts(data[..n], labels[..n], k);
      assert Counts(data, labels, k) == before[labels[n] := before[labels[n]] + 1];
      SumIntsBump(before, labels[n]);
    }
  }

  lemma {:induction false} SumIntsZero(k: nat)
    ensures SumInts(seq(k, _ => 0)) == 0
  {
    if k > 0 {
      SumIntsZero(k - 1);
      assert seq(k, _ => 0)[..k - 1] == seq(k - 1, _ => 0);
    }
  }

  /** Each point lands in the cluster of its label, so the clusters of one
      iteration hold every point exactly once. */
  lemma LabelsBelowClusters(cs: seq<seq<real>>, data: seq<seq<real>>, d: nat)
    requires Rectangular(cs, d) && Rectangular(data, d) && (|data| > 0 ==> |cs| > 0)
    ensures SumInts(Counts(data, Labels(cs, data, d), |cs|)) == |data|
  {
    CountsPartition(data, Labels(cs, data, d), |cs|);
  }

  /** `initialize_centroids`: the first `k` entries of a shuffled index list
      pick the initial centroids.  The shuffle is the parameter `indices`,
      any arrangement of the row numbers, so centroid `i` is the data row
      `indices[i]` and no two centroids are taken from the same row. */
  method InitializeCentroids(data: seq<seq<real>>, k: nat, indices: seq<int>) returns (centroids: seq<seq<real>>)
    requires |indices| == |data| && k <= |data|
    requires forall i :: 0 <= i < |indices| ==> 0 <= indices[i] < |data|
    requires forall i, j :: 0 <= i < j < |indices| ==> indices[i] != indices[j]
    ensures |centroids| == k
    ensures forall i :: 0 <= i < k ==> centroids[i] == data[indices[i]]
  {
    centroids := [];
    for i := 0 to k
      invariant |centroids| == i && forall i' :: 0 <= i' < i ==> centroids[i'] == data[indices[i']]
    {
      centroids := centroids + [data[indices[i]]];
    }
  }

  /** The local data matrix of `main`: row `i` is `(features[i], labels[i])`. */
  method LocalData(features: seq<real>, labels: seq<int>) returns (localData: seq<seq<real>>)
    requires |features| <= |labels|
    ensures |localData| == |features| && Rectangular(localData, 2)
    ensures forall i :: 0 <= i < |features| ==> localData[i][0] == features[i] && localData[i][1] == labels[i] as real
  {
    localData := [];
    for i := 0 to |features|
      invariant |localData| == i && Rectangular(localData, 2)
      invariant forall i' :: 0 <= i' < i ==> localData[i'][0] == features[i'] && localData[i'][1] == labels[i'] as real
    {
      localData := localData + [[features[i], labels[i] as real]];
    }
  }
}
