/** The resuming trainer of Linear_Regression/client_updated.cpp and
    Logistic_Regression/client_updated.cpp.  A static cursor remembers the
    first row the next call starts at.  Each call sums the gradient of up to
    100 rows with the weights held fixed, takes one averaged step, sends
    the weights, and reports whether the row it stopped at was the last one
    (the cursor then goes back to 0).  `main` sends the vector size once
    and runs three epochs, each calling the trainer until it reports the
    end of the data.

    The two files differ only in the per-row gradient term, the learning
    rate, and the linear client's clipping and non-finite resets.  The
    Euclidean norm and Eigen's `allFinite` are parameters, as is the
    sigmoid. */
module ResumeCursor {
  import opened Wire
  import opened Vec
  import LinearClient
  import LogisticClient
  import HingeCursor

  /** `MAX_EPOCHS` of both files. */
  const MaxEpochs := 3
  /** The `max_norm` argument of the `clip_gradients` call. */
  const MaxNorm := 1.0

  /** Which of the two clients runs, with its oracles. */
  datatype Client =
    | Linear(norm: seq<real> -> real, finite: seq<real> -> bool)
    | Logistic(sigmoid: real -> real)

  /** `learning_rate` of the linear `main`, `LEARNING_RATE` of the logistic file. */
  function LearningRate(client: Client): real {
    if client.Linear? then 0.0001 else 0.01
  }

  /** The contribution of one row: `-2 * x * (y - x . w)` for the linear
      client, `x * (sigmoid(x . w) - y)` for the logistic one. */
  function Term(client: Client, x: seq<real>, y: real, w: seq<real>): (t: seq<real>)
    requires |x| == |w|
    ensures |t| == |w|
  {
    match client
    case Linear(_, _) => LinearClient.ErrorTerm(x, y, w)
    case Logistic(sigmoid) => Scale(LogisticClient.PredictionError(x, y, w, sigmoid), x)
  }

  /** The gradient sum over the `count` rows starting at row `lo`, all with
      the weights `w`: the batch client's sum over those rows, without the
      linear client's L2 term. */
  function Accumulated(client: Client, data: seq<seq<real>>, labels: seq<real>, w: seq<real>, lo: nat, count: nat)
    : (g: seq<real>)
    requires lo + count <= |data| == |labels| && AllLength(data, |w|)
    ensures |g| == |w|
  {
    assert AllLength(data[lo..], |w|) by {
      forall k | 0 <= k < |data[lo..]| ensures |data[lo..][k]| == |w| {
        assert data[lo..][k] == data[lo + k];
      }
    }
    match client
    case Linear(_, _) => LinearClient.ErrorSum(data[lo..], labels[lo..], w, count)
    case Logistic(sigmoid) => LogisticClient.LogisticSum(data[lo..], labels[lo..], w, sigmoid, count)
  }

  /** One more row of the sum. */
  lemma AccumulatedStep(client: Client, data: seq<seq<real>>, labels: seq<real>, w: seq<real>, lo: nat, count: nat)
    requires lo + count < |data| == |labels| && AllLength(data, |w|)
    ensures Accumulated(client, data, labels, w, lo, count + 1)
            == Add(Accumulated(client, data, labels, w, lo, count), Term(client, data[lo + count], labels[lo + count], w))
  {
    assert data[lo..][count] == data[lo + count] && labels[lo..][count] == labels[lo + count];
  }

  /** `std::min(max_norm, 10.0)`. */
  function Cap(maxNorm: real): (cap: real)
    ensures cap <= 10.0 && cap <= maxNorm && (cap == maxNorm || cap == 10.0)
  {
    if 10.0 < maxNorm then 10.0 else maxNorm
  }

  /** `clip_gradients`: a gradient whose norm exceeds the cap is scaled
      down onto it. */
  function Clip(g: seq<real>, maxNorm: real, norm: seq<real> -> real): (r: seq<real>)
    requires 0.0 <= maxNorm
    ensures |r| == |g|
  {
    var n := norm(g);
    if n > Cap(maxNorm) then Scale(Cap(maxNorm) / n, g) else g
  }

  /** For a norm that scales with non-negative factors, clipping leaves a
      gradient within the cap untouched and brings any other one exactly
      onto the cap, so the result never exceeds it. */
  lemma ClipBound(g: seq<real>, maxNorm: real, norm: seq<real> -> real)
    requires 0.0 < maxNorm
    requires forall c :: 0.0 <= c ==> norm(Scale(c, g)) == c * norm(g)
    ensures norm(g) <= Cap(maxNorm) ==> Clip(g, maxNorm, norm) == g
    ensures norm(g) > Cap(maxNorm) ==> norm(Clip(g, maxNorm, norm)) == Cap(maxNorm)
    ensures norm(Clip(g, maxNorm, norm)) <= Cap(maxNorm)
  {
    var cap, n := Cap(maxNorm), norm(g);
    if n > cap {
      var c := cap / n;
      QuotientPositive(cap, n);
      assert norm(Scale(c, g)) == c * n;
      QuotientTimes(cap, n);
    }
  }

  lemma QuotientPositive(a: real, b: real)
    requires 0.0 < a < b
    ensures 0.0 < a / b
  {
  }

  lemma QuotientTimes(a: real, b: real)
    requires b != 0.0
    ensures a / b * b == a
  {
  }

  /** `weights -= learning_rate * gradient / batch_count`. */
  function Step(w: seq<real>, g: seq<real>, rate: real, count: nat): (r: seq<real>)
    requires |g| == |w| && count > 0
    ensures |r| == |w|
  {
    Sub(w, Div(Scale(rate, g), count as real))
  }

  /** The update at the end of a batch of `count` rows with gradient sum
      `g`.  The linear client clips the sum, replaces a non-finite one by
      zero, steps, and replaces non-finite weights by zero, so what it
      sends is always finite or all zero; the logistic client only steps. */
  function Update(client: Client, w: seq<real>, g: seq<real>, count: nat): (r: seq<real>)
    requires |g| == |w| && count > 0
    ensures |r| == |w|
    ensures client.Linear? ==> client.finite(r) || r == Zeros(|w|)
  {
    match client
    case Linear(norm, finite) =>
      var clipped := Clip(g, MaxNorm, norm);
      var safe := if finite(clipped) then clipped else Zeros(|g|);
      var stepped := Step(w, safe, LearningRate(client), count);
      if finite(stepped) then stepped else Zeros(|w|)
    case Logistic(_) => Step(w, g, LearningRate(client), count)
  }

  /** With a finite gradient sum within the cap, and finite weights after
      the step, the linear update is the plain averaged step; a non-finite
      gradient leaves the weights unchanged, or zero when they are not
      finite. */
  lemma LinearUpdate(norm: seq<real> -> real, finite: seq<real> -> bool, w: seq<real>, g: seq<real>, count: nat)
    requires |g| == |w| && count > 0
    ensures norm(g) <= Cap(MaxNorm) && finite(g) && finite(Step(w, g, 0.0001, count))
            ==> Update(Linear(norm, finite), w, g, count) == Step(w, g, 0.0001, count)
    ensures !finite(Clip(g, MaxNorm, norm)) && finite(w) ==> Update(Linear(norm, finite), w, g, count) == w
    ensures !finite(Clip(g, MaxNorm, norm)) && !finite(w) ==> Update(Linear(norm, finite), w, g, count) == Zeros(|w|)
  {
    var z := Zeros(|g|);
    var s := Step(w, z, 0.0001, count);
    forall k | 0 <= k < |w| ensures s[k] == w[k] {
      assert Scale(0.0001, z)[k] == 0.0;
    }
    assert s == w;
  }

  /** The linear client's averaged sum is the batch client's gradient of
      the same rows with the L2 term taken out. */
  lemma LinearWithoutRegularisation(norm: seq<real> -> real, finite: seq<real> -> bool, data: seq<seq<real>>, labels: seq<real>,
                                    w: seq<real>, lo: nat, count: nat)
    requires 0 < count && lo + count <= |data| == |labels| && AllLength(data, |w|)
    ensures Div(Accumulated(Linear(norm, finite), data, labels, w, lo, count), count as real)
            == Sub(LinearClient.BatchGradientOf(data[lo..lo + count], labels[lo..lo + count], w), Scale(LinearClient.Lambda, w))
  {
    var xs, ys := data[lo..lo + count], labels[lo..lo + count];
    assert AllLength(xs, |w|) by {
      forall k | 0 <= k < |xs| ensures |xs[k]| == |w| {
        assert xs[k] == data[lo + k];
      }
    }
    LinearPrefix(data[lo..], labels[lo..], xs, ys, w, count);
    LinearClient.GradientOfBatch(xs, ys, w);
    var l := Div(Accumulated(Linear(norm, finite), data, labels, w, lo, count), count as real);
    var r := Sub(LinearClient.BatchGradientOf(xs, ys, w), Scale(LinearClient.Lambda, w));
    forall k | 0 <= k < |w| ensures l[k] == r[k] {
    }
  }

  /** The error sum over the first `n` rows depends on those rows only. */
  lemma {:induction false} LinearPrefix(xs: seq<seq<real>>, ys: seq<real>, xs': seq<seq<real>>, ys': seq<real>, w: seq<real>, n: nat)
    requires n <= |xs| == |ys| && AllLength(xs, |w|) && n <= |xs'| == |ys'| && AllLength(xs', |w|)
    requires xs[..n] == xs'[..n] && ys[..n] == ys'[..n]
    ensures LinearClient.ErrorSum(xs, ys, w, n) == LinearClient.ErrorSum(xs', ys', w, n)
  {
    if n > 0 {
      assert xs[..n - 1] == xs'[..n - 1] && ys[..n - 1] == ys'[..n - 1];
      assert xs[n - 1] == xs[..n][n - 1] && xs'[n - 1] == xs'[..n][n - 1];
      assert ys[n - 1] == ys[..n][n - 1] && ys'[n - 1] == ys'[..n][n - 1];
      LinearPrefix(xs, ys, xs', ys', w, n - 1);
    }
  }

  /** The logistic sum over the first `n` rows depends on those rows only. */
  lemma {:induction false} LogisticPrefix(xs: seq<seq<real>>, ys: seq<real>, xs': seq<seq<real>>, ys': seq<real>, w: seq<real>,
                                          sigmoid: real -> real, n: nat)
    requires n <= |xs| == |ys| && AllLength(xs, |w|) && n <= |xs'| == |ys'| && AllLength(xs', |w|)
    requires xs[..n] == xs'[..n] && ys[..n] == ys'[..n]
    ensures LogisticClient.LogisticSum(xs, ys, w, sigmoid, n) == LogisticClient.LogisticSum(xs', ys', w, sigmoid, n)
  {
    if n > 0 {
      assert xs[..n - 1] == xs'[..n - 1] && ys[..n - 1] == ys'[..n - 1];
      assert xs[n - 1] == xs[..n][n - 1] && xs'[n - 1] == xs'[..n][n - 1];
      assert ys[n - 1] == ys[..n][n - 1] && ys'[n - 1] == ys'[..n][n - 1];
      LogisticPrefix(xs, ys, xs', ys', w, sigmoid, n - 1);
    }
  }

  /** The logistic update is a step of `LEARNING_RATE` against the batch
      client's logistic gradient of the same rows. */
  lemma LogisticUpdateIsGradientStep(sigmoid: real -> real, data: seq<seq<real>>, labels: seq<real>, w: seq<real>, lo: nat, count: nat)
    requires 0 < count && lo + count <= |data| == |labels| && AllLength(data, |w|)
    ensures Update(Logistic(sigmoid), w, Accumulated(Logistic(sigmoid), data, labels, w, lo, count), count)
            == Sub(w, Scale(0.01, LogisticClient.LogisticGradient(data[lo..lo + count], labels[lo..lo + count], w, sigmoid)))
  {
    var xs, ys := data[lo..lo + count], labels[lo..lo + count];
    assert AllLength(xs, |w|) by {
      forall k | 0 <= k < |xs| ensures |xs[k]| == |w| {
        assert xs[k] == data[lo + k];
      }
    }
    var g := Accumulated(Logistic(sigmoid), data, labels, w, lo, count);
    var c := count as real;
    var mean := LogisticClient.LogisticGradient(xs, ys, w, sigmoid);
    assert mean == Div(g, c) by {
      LogisticPrefix(data[lo..], labels[lo..], xs, ys, w, sigmoid, count);
    }
    assert Update(Logistic(sigmoid), w, g, count) == Sub(w, Div(Scale(0.01, g), c));
    ScaleDiv(g, c);
  }

  lemma ScaleDiv(g: seq<real>, c: real)
    requires c != 0.0
    ensures Div(Scale(0.01, g), c) == Scale(0.01, Div(g, c))
  {
    var l, r := Div(Scale(0.01, g), c), Scale(0.01, Div(g, c));
    forall k | 0 <= k < |g| ensures l[k] == r[k] {
      RateOverCount(g[k], c);
    }
  }

  lemma RateOverCount(g: real, c: real)
    requires c != 0.0
    ensures 0.01 * g / c == 0.01 * (g / c)
  {
  }

  /** The weights after training on the rows `lo` up to `hi`: one update
      with the gradient sum of those rows. */
  function Advance(client: Client, data: seq<seq<real>>, labels: seq<real>, lo: nat, hi: nat, w: seq<real>): (r: seq<real>)
    requires lo < hi <= |data| == |labels| && AllLength(data, |w|)
    ensures |r| == |w|
  {
    Update(client, w, Accumulated(client, data, labels, w, lo, hi - lo), hi - lo)
  }

  /** Where a call starting at `last` stops: after 100 rows or at the end of the data. */
  function Stop(last: nat, n: nat): nat {
    HingeCursor.Stop(last, n)
  }

  /** What one call of `train_incrementally` does from cursor `last`:
      nothing when no row is left; otherwise one update over the rows up to
      `Stop`, the new weights sent once, and the cursor moved past the
      batch, or back to 0 when the batch ended at the last row. */
  function TrainCall(client: Client, data: seq<seq<real>>, labels: seq<real>, last: nat, w: seq<real>): (c: HingeCursor.Call)
    requires |labels| == |data| && AllLength(data, |w|)
    ensures |c.weights| == |w|
    ensures !c.finished ==> last < c.cursor < |data|
  {
    if last >= |data| then HingeCursor.Call(true, w, [], last)
    else
      var stop := Stop(last, |data|);
      var updated := Advance(client, data, labels, last, stop, w);
      if stop == |data| then HingeCursor.Call(true, updated, Chunks(updated, HingeCursor.NetworkBatchSize), 0)
      else HingeCursor.Call(false, updated, Chunks(updated, HingeCursor.NetworkBatchSize), stop)
  }

  /** A call with rows left sends its new weights exactly once, whole, in
      writes of at most 100 values; it reports the end of the data exactly
      when at most 100 rows were left, and then rewinds the cursor to 0,
      otherwise the cursor moves by exactly 100.  A call with no row left
      changes and sends nothing. */
  lemma TrainCallShape(client: Client, data: seq<seq<real>>, labels: seq<real>, last: nat, w: seq<real>)
    requires |labels| == |data| && AllLength(data, |w|)
    ensures last >= |data| ==> TrainCall(client, data, labels, last, w) == HingeCursor.Call(true, w, [], last)
    ensures last < |data| ==>
              Concat(TrainCall(client, data, labels, last, w).writes) == TrainCall(client, data, labels, last, w).weights
              && (forall k :: 0 <= k < |TrainCall(client, data, labels, last, w).writes| ==>
                    0 < |TrainCall(client, data, labels, last, w).writes[k]| <= HingeCursor.NetworkBatchSize)
    ensures last < |data| ==>
              (TrainCall(client, data, labels, last, w).finished <==> last + HingeCursor.TrainBatchSize >= |data|)
    ensures last < |data| && TrainCall(client, data, labels, last, w).finished ==> TrainCall(client, data, labels, last, w).cursor == 0
    ensures last < |data| && !TrainCall(client, data, labels, last, w).finished ==>
              TrainCall(client, data, labels, last, w).cursor == last + HingeCursor.TrainBatchSize
  {
    var c := TrainCall(client, data, labels, last, w);
    if last < |data| {
      ChunksShape(c.weights, HingeCursor.NetworkBatchSize);
    }
  }

  /** A call whose batch ends at row `i`, after 100 rows or at the last
      row, with gradient sum `g` and updated weights `updated`. */
  lemma BatchEnd(client: Client, data: seq<seq<real>>, labels: seq<real>, last: nat, w: seq<real>, i: nat,
                 g: seq<real>, updated: seq<real>)
    requires |labels| == |data| && AllLength(data, |w|)
    requires last <= i < |data| && i + 1 - last <= HingeCursor.TrainBatchSize
    requires i + 1 - last == HingeCursor.TrainBatchSize || i == |data| - 1
    requires g == Accumulated(client, data, labels, w, last, i + 1 - last)
    requires updated == Update(client, w, g, i + 1 - last)
    ensures updated == Advance(client, data, labels, last, i + 1, w)
    ensures TrainCall(client, data, labels, last, w)
            == HingeCursor.Call(i == |data| - 1, updated, Chunks(updated, HingeCursor.NetworkBatchSize), if i == |data| - 1 then 0 else i + 1)
  {
    assert Stop(last, |data|) == i + 1;
  }

  /** The state left by an epoch: the output so far, the weights and the cursor. */
  datatype EpochEnd = EpochEnd(out: seq<Token>, weights: seq<real>, cursor: nat)

  /** `while (!train_incrementally(...)) {}` from cursor `last`: calls
      until one reports the end of the data, each appending its writes to
      the output. */
  function Epoch(client: Client, data: seq<seq<real>>, labels: seq<real>, last: nat, w: seq<real>, out: seq<Token>): (e: EpochEnd)
    requires |labels| == |data| && AllLength(data, |w|)
    ensures |e.weights| == |w|
    ensures e.cursor == if last < |data| then 0 else last
    decreases |data| - last
  {
    var c := TrainCall(client, data, labels, last, w);
    var sent := out + HingeCursor.Written(c.writes);
    if c.finished then EpochEnd(sent, c.weights, c.cursor)
    else Epoch(client, data, labels, c.cursor, c.weights, sent)
  }

  /** The rows `lo` up to `hi`, in order. */
  function Interval(lo: int, hi: int): (r: seq<int>)
    ensures |r| == if lo <= hi then hi - lo else 0
    ensures forall k :: 0 <= k < |r| ==> r[k] == lo + k
  {
    if lo < hi then seq(hi - lo, k => lo + k) else []
  }

  /** The rows one call trains on. */
  datatype Span = Span(lo: nat, hi: nat)

  /** The batches an epoch from cursor `last` trains on, in order. */
  function Batches(n: nat, last: nat): (bs: seq<Span>)
    ensures forall k :: 0 <= k < |bs| ==> bs[k].lo < bs[k].hi <= n
    decreases n - last
  {
    if last >= n then [] else [Span(last, Stop(last, n))] + Batches(n, Stop(last, n))
  }

  /** The rows of a list of batches, in order. */
  function RowsOf(spans: seq<Span>): seq<int> {
    if spans == [] then [] else Interval(spans[0].lo, spans[0].hi) + RowsOf(spans[1..])
  }

  /** An epoch from cursor `last` trains on the rows `last` up to the end,
      each exactly once and in order, in batches of 100 rows of which only
      the last may be shorter (and is never empty). */
  lemma {:induction false} BatchesCover(n: nat, last: nat)
    requires last <= n
    ensures RowsOf(Batches(n, last)) == Interval(last, n)
    ensures forall k :: 0 <= k < |Batches(n, last)| ==>
              Batches(n, last)[k].lo < Batches(n, last)[k].hi <= Batches(n, last)[k].lo + HingeCursor.TrainBatchSize
    ensures forall k :: 0 <= k < |Batches(n, last)| - 1 ==>
              Batches(n, last)[k].hi == Batches(n, last)[k].lo + HingeCursor.TrainBatchSize
    decreases n - last
  {
    if last < n {
      var stop := Stop(last, n);
      var bs := Batches(n, last);
      BatchesCover(n, stop);
      assert bs[1..] == Batches(n, stop);
      assert Interval(last, stop) + Interval(stop, n) == Interval(last, n);
      if stop == n {
        assert Batches(n, stop) == [];
      }
    }
  }

  /** An epoch from cursor 0 visits the rows 0, 1, ..., n - 1. */
  lemma EpochRows(n: nat)
    ensures RowsOf(Batches(n, 0)) == Interval(0, n)
    ensures forall r :: r in RowsOf(Batches(n, 0)) <==> 0 <= r < n
  {
    BatchesCover(n, 0);
    var rows := Interval(0, n);
    forall r ensures r in rows <==> 0 <= r < n {
      if 0 <= r < n {
        assert rows[r] == r;
      }
    }
  }

  /** The weights after each batch of `spans`, in order: the reference
      definition of an epoch. */
  function Trajectory(client: Client, data: seq<seq<real>>, labels: seq<real>, spans: seq<Span>, w: seq<real>)
    : (ws: seq<seq<real>>)
    requires |labels| == |data| && AllLength(data, |w|)
    requires forall k :: 0 <= k < |spans| ==> spans[k].lo < spans[k].hi <= |data|
    ensures |ws| == |spans| && AllLength(ws, |w|)
  {
    if spans == [] then []
    else
      var next := Advance(client, data, labels, spans[0].lo, spans[0].hi, w);
      [next] + Trajectory(client, data, labels, spans[1..], next)
  }

  /** The weights at the end of a trajectory from `w`. */
  function Final(w: seq<real>, ws: seq<seq<real>>): seq<real> {
    if ws == [] then w else ws[|ws| - 1]
  }

  /** The weights after the first batch of an epoch, then the rest. */
  lemma TrajectoryFirst(client: Client, data: seq<seq<real>>, labels: seq<real>, last: nat, w: seq<real>)
    requires |labels| == |data| && AllLength(data, |w|) && last < |data|
    ensures Trajectory(client, data, labels, Batches(|data|, last), w)
            == [TrainCall(client, data, labels, last, w).weights]
               + Trajectory(client, data, labels, Batches(|data|, Stop(last, |data|)), TrainCall(client, data, labels, last, w).weights)
  {
    var stop := Stop(last, |data|);
    var bs := Batches(|data|, last);
    var next := Advance(client, data, labels, last, stop, w);
    assert TrainCall(client, data, labels, last, w).weights == next;
    assert bs == [Span(last, stop)] + Batches(|data|, stop);
    assert bs[0] == Span(last, stop) && bs[1..] == Batches(|data|, stop);
    assert Trajectory(client, data, labels, bs, w) == [next] + Trajectory(client, data, labels, bs[1..], next);
  }

  /** An epoch is one update per batch of `Batches`, in order: it sends the
      weights after every batch and ends with the last of them. */
  lemma {:induction false} EpochFollowsBatches(client: Client, data: seq<seq<real>>, labels: seq<real>, last: nat, w: seq<real>, out: seq<Token>)
    requires |labels| == |data| && AllLength(data, |w|)
    ensures Epoch(client, data, labels, last, w, out).out
            == out + Dbls(Concat(Trajectory(client, data, labels, Batches(|data|, last), w)))
    ensures Epoch(client, data, labels, last, w, out).weights
            == Final(w, Trajectory(client, data, labels, Batches(|data|, last), w))
    decreases |data| - last
  {
    var e := Epoch(client, data, labels, last, w, out);
    var ws := Trajectory(client, data, labels, Batches(|data|, last), w);
    if last >= |data| {
      assert e == EpochEnd(out, w, last) by {
        EpochStep(client, data, labels, last, w, out);
      }
      assert ws == [];
      assert out + Dbls(Concat(ws)) == out;
    } else {
      var c := TrainCall(client, data, labels, last, w);
      var stop := Stop(last, |data|);
      var rest := Trajectory(client, data, labels, Batches(|data|, stop), c.weights);
      var sent := out + Dbls(c.weights);
      EpochStep(client, data, labels, last, w, out);
      TrajectoryFirst(client, data, labels, last, w);
      assert ws == [c.weights] + rest;
      if c.finished {
        assert e == EpochEnd(sent, c.weights, c.cursor);
        assert Batches(|data|, stop) == [];
        Joined(out, w, c.weights, [], ws);
      } else {
        assert e == Epoch(client, data, labels, c.cursor, c.weights, sent);
        EpochFollowsBatches(client, data, labels, c.cursor, c.weights, sent);
        Joined(out, w, c.weights, rest, ws);
      }
    }
  }

  /** One call of an epoch: the call's writes are the new weights, once. */
  lemma EpochStep(client: Client, data: seq<seq<real>>, labels: seq<real>, last: nat, w: seq<real>, out: seq<Token>)
    requires |labels| == |data| && AllLength(data, |w|)
    ensures last >= |data| ==> Epoch(client, data, labels, last, w, out) == EpochEnd(out, w, last)
    ensures last < |data| && TrainCall(client, data, labels, last, w).finished ==>
              Epoch(client, data, labels, last, w, out)
              == EpochEnd(out + Dbls(TrainCall(client, data, labels, last, w).weights), TrainCall(client, data, labels, last, w).weights, 0)
    ensures last < |data| && !TrainCall(client, data, labels, last, w).finished ==>
              TrainCall(client, data, labels, last, w).cursor == Stop(last, |data|)
              && Epoch(client, data, labels, last, w, out)
                 == Epoch(client, data, labels, Stop(last, |data|), TrainCall(client, data, labels, last, w).weights,
                          out + Dbls(TrainCall(client, data, labels, last, w).weights))
  {
    var c := TrainCall(client, data, labels, last, w);
    TrainCallShape(client, data, labels, last, w);
    if last >= |data| {
      assert out + HingeCursor.Written(c.writes) == out + Dbls([]);
    } else {
      assert HingeCursor.Written(c.writes) == Dbls(c.weights);
    }
  }

  /** The output and the weights after the first batch and the rest. */
  lemma Joined(out: seq<Token>, w: seq<real>, v: seq<real>, rest: seq<seq<real>>, ws: seq<seq<real>>)
    requires ws == [v] + rest
    ensures out + Dbls(v) + Dbls(Concat(rest)) == out + Dbls(Concat(ws))
    ensures Final(v, rest) == Final(w, ws)
    ensures rest == [] ==> out + Dbls(v) == out + Dbls(Concat(ws))
  {
    ConcatCons(v, rest);
    DblsAppend(v, Concat(rest));
    if rest == [] {
      assert Concat(rest) == [] && v + [] == v;
    }
  }

  lemma ConcatCons<T>(v: seq<T>, vs: seq<seq<T>>)
    ensures Concat([v] + vs) == v + Concat(vs)
  {
    assert ([v] + vs)[1..] == vs;
  }

  lemma DblsAppend(a: seq<real>, b: seq<real>)
    ensures Dbls(a + b) == Dbls(a) + Dbls(b)
  {
  }

  /** `epochs` epochs, each from cursor 0. */
  function Epochs(client: Client, data: seq<seq<real>>, labels: seq<real>, w: seq<real>, epochs: nat, out: seq<Token>)
    : (r: (seq<Token>, seq<real>))
    requires |labels| == |data| && AllLength(data, |w|)
    ensures |r.1| == |w|
    decreases epochs
  {
    if epochs == 0 then (out, w)
    else
      var e := Epoch(client, data, labels, 0, w, out);
      Epochs(client, data, labels, e.weights, epochs - 1, e.out)
  }

  /** The first of `epochs` epochs. */
  lemma EpochsStep(client: Client, data: seq<seq<real>>, labels: seq<real>, w: seq<real>, epochs: nat, out: seq<Token>)
    requires |labels| == |data| && AllLength(data, |w|) && epochs > 0
    ensures Epochs(client, data, labels, w, epochs, out)
            == Epochs(client, data, labels, Epoch(client, data, labels, 0, w, out).weights, epochs - 1,
                      Epoch(client, data, labels, 0, w, out).out)
  {
  }

  /** The first of `epochs` epochs, given its end. */
  lemma EpochsAfter(client: Client, data: seq<seq<real>>, labels: seq<real>, w: seq<real>, epochs: nat, epochs': nat,
                    out: seq<Token>, out': seq<Token>, w': seq<real>, cursor: nat)
    requires |labels| == |data| && AllLength(data, |w|) && epochs == epochs' + 1
    requires EpochEnd(out', w', cursor) == Epoch(client, data, labels, 0, w, out)
    ensures |w'| == |w| && cursor == 0
    ensures Epochs(client, data, labels, w, epochs, out) == Epochs(client, data, labels, w', epochs', out')
  {
    EpochsStep(client, data, labels, w, epochs, out);
  }

  /** `r` is `out` followed by doubles only. */
  predicate DoublesAfter(out: seq<Token>, r: seq<Token>) {
    out <= r && AllDbl(r[|out|..])
  }

  /** An epoch only appends doubles to the output. */
  lemma EpochSendsDoubles(client: Client, data: seq<seq<real>>, labels: seq<real>, last: nat, w: seq<real>, out: seq<Token>)
    requires |labels| == |data| && AllLength(data, |w|)
    ensures DoublesAfter(out, Epoch(client, data, labels, last, w, out).out)
  {
    EpochFollowsBatches(client, data, labels, last, w, out);
    var v := Concat(Trajectory(client, data, labels, Batches(|data|, last), w));
    assert (out + Dbls(v))[|out|..] == Dbls(v);
  }

  lemma DblsTail(out: seq<Token>, mid: seq<Token>, r: seq<Token>)
    requires DoublesAfter(out, mid) && DoublesAfter(mid, r)
    ensures DoublesAfter(out, r)
  {
    assert r[|out|..] == mid[|out|..] + r[|mid|..];
  }

  /** After the size, the client sends nothing but doubles: the
      vector size goes out once, before the first epoch. */
  lemma {:induction false} EpochsSendOnlyWeights(client: Client, data: seq<seq<real>>, labels: seq<real>, w: seq<real>, epochs: nat, out: seq<Token>)
    requires |labels| == |data| && AllLength(data, |w|)
    ensures DoublesAfter(out, Epochs(client, data, labels, w, epochs, out).0)
    decreases epochs
  {
    if epochs > 0 {
      var mid, w' := FirstEpoch(client, data, labels, w, epochs, out);
      var r := Epochs(client, data, labels, w', epochs - 1, mid).0;
      EpochsSendOnlyWeights(client, data, labels, w', epochs - 1, mid);
      DblsTail(out, mid, r);
    } else {
      assert out[|out|..] == [];
    }
  }

  /** The output and the weights after the first of `epochs` epochs. */
  lemma FirstEpoch(client: Client, data: seq<seq<real>>, labels: seq<real>, w: seq<real>, epochs: nat, out: seq<Token>)
    returns (mid: seq<Token>, w': seq<real>)
    requires |labels| == |data| && AllLength(data, |w|) && epochs > 0
    ensures |w'| == |w| && DoublesAfter(out, mid)
    ensures Epochs(client, data, labels, w, epochs, out) == Epochs(client, data, labels, w', epochs - 1, mid)
  {
    var e := Epoch(client, data, labels, 0, w, out);
    mid, w' := e.out, e.weights;
    EpochsStep(client, data, labels, w, epochs, out);
    EpochSendsDoubles(client, data, labels, 0, w, out);
  }

  /** The static `last_sample`. */
  class Trainer {
    var lastSample: nat

    constructor ()
      ensures lastSample == 0
    {
      lastSample := 0;
    }

    /** `train_incrementally`, proved against `TrainCall`. */
    method TrainIncrementally(client: Client, data: seq<seq<real>>, labels: seq<real>, weights: seq<real>)
      returns (finished: bool, updated: seq<real>, writes: seq<seq<real>>)
      requires |labels| == |data| && AllLength(data, |weights|)
      modifies this
      ensures HingeCursor.Call(finished, updated, writes, lastSample) == TrainCall(client, data, labels, old(lastSample), weights)
    {
      var nSamples := |data|;
      var gradient := Zeros(|weights|);
      var batchCount := 0;
      var i := lastSample;
      while i < nSamples
        invariant lastSample == old(lastSample)
        invariant lastSample >= nSamples ==> i == lastSample
        invariant lastSample < nSamples ==> lastSample <= i < nSamples && batchCount == i - lastSample < HingeCursor.TrainBatchSize
        invariant lastSample < nSamples ==> gradient == Accumulated(client, data, labels, weights, lastSample, batchCount)
      {
        var xi := data[i];
        var yi := labels[i];
        gradient := Add(gradient, Term(client, xi, yi, weights));
        batchCount := batchCount + 1;
        assert gradient == Accumulated(client, data, labels, weights, lastSample, batchCount) by {
          AccumulatedStep(client, data, labels, weights, lastSample, batchCount - 1);
        }
        if batchCount == HingeCursor.TrainBatchSize || i == nSamples - 1 {
          updated, writes := EndBatch(client, data, labels, lastSample, weights, i, gradient);
          if i == nSamples - 1 {
            lastSample := 0;
            return true, updated, writes;
          }
          lastSample := i + 1;
          return false, updated, writes;
        }
        i := i + 1;
      }
      assert TrainCall(client, data, labels, lastSample, weights) == HingeCursor.Call(true, weights, [], lastSample);
      return true, weights, [];
    }

    /** Calls `train_incrementally` until it reports the end of the data. */
    method TrainEpoch(client: Client, data: seq<seq<real>>, labels: seq<real>, weights: seq<real>, out: seq<Token>)
      returns (out': seq<Token>, weights': seq<real>)
      requires |labels| == |data| && AllLength(data, |weights|)
      modifies this
      ensures EpochEnd(out', weights', lastSample) == Epoch(client, data, labels, old(lastSample), weights, out)
    {
      out', weights' := out, weights;
      var finished := false;
      ghost var goal := Epoch(client, data, labels, lastSample, weights', out');
      while !finished
        invariant |weights'| == |weights|
        invariant !finished ==> Epoch(client, data, labels, lastSample, weights', out') == goal
        invariant finished ==> EpochEnd(out', weights', lastSample) == goal
        decreases !finished, |data| - lastSample
      {
        ghost var last, before := lastSample, weights';
        var updated, writes;
        finished, updated, writes := TrainIncrementally(client, data, labels, weights');
        assert HingeCursor.Call(finished, updated, writes, lastSample) == TrainCall(client, data, labels, last, before);
        out' := out' + HingeCursor.Written(writes);
        weights' := updated;
      }
    }
  }

  /** The end of a batch at row `i`: the update, then the weights written
      in chunks of 100. */
  method EndBatch(client: Client, data: seq<seq<real>>, labels: seq<real>, last: nat, weights: seq<real>, i: nat,
                  gradient: seq<real>) returns (updated: seq<real>, writes: seq<seq<real>>)
    requires |labels| == |data| && AllLength(data, |weights|)
    requires last <= i < |data| && i + 1 - last <= HingeCursor.TrainBatchSize
    requires i + 1 - last == HingeCursor.TrainBatchSize || i == |data| - 1
    requires gradient == Accumulated(client, data, labels, weights, last, i + 1 - last)
    ensures TrainCall(client, data, labels, last, weights)
            == HingeCursor.Call(i == |data| - 1, updated, writes, if i == |data| - 1 then 0 else i + 1)
  {
    updated := ApplyBatch(client, weights, gradient, i + 1 - last);
    writes := SendInBatches(updated, HingeCursor.NetworkBatchSize);
    BatchEnd(client, data, labels, last, weights, i, gradient, updated);
  }

  /** Lines 66-78 of the linear file and line 53 of the logistic one: the
      update at the end of a batch. */
  method ApplyBatch(client: Client, weights: seq<real>, gradient: seq<real>, batchCount: nat) returns (updated: seq<real>)
    requires |gradient| == |weights| && batchCount > 0
    ensures updated == Update(client, weights, gradient, batchCount)
  {
    match client
    case Logistic(_) =>
      updated := Step(weights, gradient, LearningRate(client), batchCount);
    case Linear(norm, finite) =>
      var g := Clip(gradient, MaxNorm, norm);
      if !finite(g) {
        g := Zeros(|g|);
      }
      updated := Step(weights, g, LearningRate(client), batchCount);
      if !finite(updated) {
        updated := Zeros(|weights|);
      }
  }

  /** `main` after loading: the vector size once, then three epochs. */
  method RunClient(client: Client, data: seq<seq<real>>, labels: seq<real>, weights: seq<real>)
    returns (out: seq<Token>, finalWeights: seq<real>)
    requires |labels| == |data| && AllLength(data, |weights|)
    ensures (out, finalWeights) == Epochs(client, data, labels, weights, MaxEpochs, [Int(|weights|)])
  {
    var trainer := new Trainer();
    var vectorSize := |weights|;
    out := [Int(vectorSize)];
    finalWeights := weights;
    ghost var left := MaxEpochs;
    ghost var goal := Epochs(client, data, labels, finalWeights, left, out);
    for epoch := 0 to MaxEpochs
      invariant trainer.lastSample == 0 && |finalWeights| == |weights| && left == MaxEpochs - epoch
      invariant Epochs(client, data, labels, finalWeights, left, out) == goal
    {
      ghost var before, start, epochs := out, finalWeights, left;
      out, finalWeights := trainer.TrainEpoch(client, data, labels, finalWeights, out);
      left := left - 1;
      EpochsAfter(client, data, labels, start, epochs, left, before, out, finalWeights, trainer.lastSample);
    }
  }
}
