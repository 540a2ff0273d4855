/** `train_and_send_batches` of the three batch clients
    (Logistic_Regression/client.cpp, Linear_Regression/client.cpp and
    LSVM/client.cpp).  They differ only in the gradient of a batch and in
    the training batch size: the shuffled row indices are cut into batches
    of 100 (2 for LSVM); for each batch the client writes the batch size,
    the feature count and the gradient in writes of at most 100 values,
    then blocks on a read that overwrites its weights.  A failed read ends
    the client.

    The shuffle is a parameter: any permutation of the row indices.  Every
    client runs one epoch (`MAX_EPOCHS` is 1). */
module BatchClient {
  import opened Wire
  import opened Vec
  import opened Frames
  import GradientStep
  import LogisticClient
  import LinearClient
  import LsvmClient

  /** Which client: logistic regression (with its sigmoid), linear regression, or the linear SVM. */
  datatype Model = Logistic(sigmoid: real -> real) | Linear | Svm

  /** `TRAIN_BATCH_SIZE`. */
  function TrainBatchSize(m: Model): nat {
    if m.Svm? then 2 else 100
  }

  /** `NETWORK_BATCH_SIZE`. */
  const NetworkBatchSize := 100

  /** The gradient a client computes for a non-empty batch. */
  function Gradient(m: Model, xs: seq<seq<real>>, ys: seq<real>, w: seq<real>): (g: seq<real>)
    requires 0 < |xs| == |ys| && AllLength(xs, |w|)
    ensures |g| == |w|
  {
    match m
    case Logistic(sigmoid) => LogisticClient.LogisticGradient(xs, ys, w, sigmoid)
    case Linear => LinearClient.BatchGradientOf(xs, ys, w)
    case Svm => LsvmClient.SvmGradient(xs, ys, w)
  }

  method ComputeGradient(m: Model, xs: seq<seq<real>>, ys: seq<real>, weights: seq<real>) returns (gradient: seq<real>)
    requires 0 < |xs| == |ys| && AllLength(xs, |weights|)
    ensures gradient == Gradient(m, xs, ys, weights)
  {
    match m
    case Logistic(sigmoid) =>
      gradient := LogisticClient.BatchGradient(xs, ys, weights, sigmoid);
    case Linear =>
      gradient := LinearClient.BatchGradient(xs, ys, weights);
    case Svm =>
      gradient := LsvmClient.ComputeSvmGradient(xs, ys, weights);
  }

  /** The row indices `0 .. n - 1` the shuffle starts from. */
  function Range(n: nat): (r: seq<nat>)
    ensures |r| == n
  {
    seq(n, i requires 0 <= i < n => i)
  }

  predicate InRange(indices: seq<nat>, n: nat) {
    forall k :: 0 <= k < |indices| ==> indices[k] < n
  }

  /** A shuffled index list: row indices, and each row index exactly once. */
  predicate Shuffled(indices: seq<nat>, n: nat) {
    |indices| == n && InRange(indices, n) && multiset(indices) == multiset(Range(n))
  }

  lemma {:induction false} RangeCount(n: nat, r: nat)
    ensures multiset(Range(n))[r] == if r < n then 1 else 0
  {
    if n > 0 {
      RangeCount(n - 1, r);
      assert Range(n) == Range(n - 1) + [n - 1];
    }
  }

  /** The batches cover the shuffled index list: concatenated they are the
      whole list, in which every row index occurs exactly once; each batch
      holds between 1 and `size` indices. */
  lemma EveryRowOnce(indices: seq<nat>, n: nat, size: nat)
    requires Shuffled(indices, n) && size > 0
    ensures Concat(Chunks(indices, size)) == indices
    ensures forall r: nat :: multiset(indices)[r] == if r < n then 1 else 0
    ensures forall k :: 0 <= k < |Chunks(indices, size)| ==> 0 < |Chunks(indices, size)[k]| <= size
  {
    ChunksShape(indices, size);
    forall r: nat ensures multiset(indices)[r] == if r < n then 1 else 0 {
      RangeCount(n, r);
    }
  }

  /** The batch that starts at position `i` of the index list: `min(size, n - i)` indices. */
  function Batch(indices: seq<nat>, i: nat, size: nat): seq<nat>
    requires i <= |indices|
  {
    indices[i .. i + Min(size, |indices| - i)]
  }

  /** The batches the loop visits, at `0, size, 2 size, ...`, are the chunks
      of the index list. */
  lemma BatchIsChunk(indices: seq<nat>, size: nat, k: nat)
    requires size > 0 && k < |Chunks(indices, size)|
    ensures k * size < |indices| && Chunks(indices, size)[k] == Batch(indices, k * size, size)
  {
    ChunkAt(indices, size, k);
  }

  /** The entries a batch selects, in batch order: the rows of `batch_X`
      or the labels of `batch_y`. */
  function Select<T>(xs: seq<T>, batch: seq<nat>): (ys: seq<T>)
    requires InRange(batch, |xs|)
    ensures |ys| == |batch| && forall k :: 0 <= k < |batch| ==> ys[k] == xs[batch[k]]
  {
    seq(|batch|, k requires 0 <= k < |batch| => xs[batch[k]])
  }

  /** The copy into `batch_X` / `batch_y` (LSVM/client.cpp lines 62-68). */
  method GatherBatch(data: seq<seq<real>>, labels: seq<real>, batch: seq<nat>) returns (xs: seq<seq<real>>, ys: seq<real>)
    requires |labels| == |data| && InRange(batch, |data|)
    ensures xs == Select(data, batch) && ys == Select(labels, batch)
  {
    xs, ys := [], [];
    for j := 0 to |batch|
      invariant xs == Select(data, batch[..j]) && ys == Select(labels, batch[..j])
    {
      assert batch[..j + 1] == batch[..j] + [batch[j]];
      xs := xs + [data[batch[j]]];
      ys := ys + [labels[batch[j]]];
    }
    assert batch[..|batch|] == batch;
  }

  /** What the client has done when it stops: the requests it wrote, its
      weights, and whether it ran to the end of the epoch. */
  datatype Outcome = Outcome(requests: seq<Request>, weights: seq<real>, completed: bool)

  predicate Dataset(data: seq<seq<real>>, labels: seq<real>, d: nat) {
    |labels| == |data| && AllLength(data, d)
  }

  /** The request for the batch at position `i`: its size and its gradient. */
  function BatchRequest(m: Model, data: seq<seq<real>>, labels: seq<real>, indices: seq<nat>, i: nat, w: seq<real>): (r: Request)
    requires Dataset(data, labels, |w|) && InRange(indices, |data|) && i < |indices|
    ensures 0 < r.batchSize <= TrainBatchSize(m) && |r.update| == |w|
  {
    var batch := Batch(indices, i, TrainBatchSize(m));
    Request(|batch|, Gradient(m, Select(data, batch), Select(labels, batch), w))
  }

  /** The batch loop from position `i` of the index list, with `input` the
      tokens still to be read and `sent` the requests already written. */
  function Session(m: Model, input: seq<Token>, data: seq<seq<real>>, labels: seq<real>, indices: seq<nat>,
                   i: nat, w: seq<real>, sent: seq<Request>): (r: Outcome)
    requires Dataset(data, labels, |w|) && InRange(indices, |data|)
    ensures |r.weights| == |w|
    ensures |sent| <= |r.requests| && (|r.requests| == |sent| <==> i >= |indices|)
    decreases |indices| - i
  {
    if i >= |indices| then Outcome(sent, w, true)
    else
      var r := BatchRequest(m, data, labels, indices, i, w);
      match ReadDbls(input, |w|)
      case Failed => Outcome(sent + [r], w, false)
      case Got(w', rest) => Session(m, rest, data, labels, indices, i + TrainBatchSize(m), w', sent + [r])
  }

  /** Each request of the session is one batch: a size between 1 and the
      training batch size, and a gradient as long as the weights. */
  lemma {:induction false} SessionRequests(m: Model, input: seq<Token>, data: seq<seq<real>>, labels: seq<real>, indices: seq<nat>,
                                           i: nat, w: seq<real>, sent: seq<Request>)
    requires Dataset(data, labels, |w|) && InRange(indices, |data|)
    requires forall k :: 0 <= k < |sent| ==> 0 < sent[k].batchSize <= TrainBatchSize(m) && |sent[k].update| == |w|
    ensures var o := Session(m, input, data, labels, indices, i, w, sent);
      |o.weights| == |w| && |sent| <= |o.requests| && o.requests[..|sent|] == sent &&
      forall k :: 0 <= k < |o.requests| ==> 0 < o.requests[k].batchSize <= TrainBatchSize(m) && |o.requests[k].update| == |w|
    decreases |indices| - i
  {
    if i < |indices| {
      var r := BatchRequest(m, data, labels, indices, i, w);
      var sent' := sent + [r];
      assert forall k :: 0 <= k < |sent'| ==> 0 < sent'[k].batchSize <= TrainBatchSize(m) && |sent'[k].update| == |w|;
      match ReadDbls(input, |w|)
      case Failed =>
        assert sent'[..|sent|] == sent;
      case Got(w', rest) =>
        SessionRequests(m, rest, data, labels, indices, i + TrainBatchSize(m), w', sent');
        var o := Session(m, rest, data, labels, indices, i + TrainBatchSize(m), w', sent');
        assert o.requests[..|sent'|][..|sent|] == o.requests[..|sent|];
    }
  }

  /** The number of batches, `ceil((n - i) / size)`. */
  function BatchesFrom(n: nat, i: nat, size: nat): nat
    requires size > 0
    decreases n - i
  {
    if i >= n then 0 else 1 + BatchesFrom(n, i + size, size)
  }

  /** When every reply arrives the client sends one request per batch and
      reports the epoch complete. */
  lemma {:induction false} SessionCompletes(m: Model, input: seq<Token>, data: seq<seq<real>>, labels: seq<real>, indices: seq<nat>,
                                            i: nat, w: seq<real>, sent: seq<Request>)
    requires Dataset(data, labels, |w|) && InRange(indices, |data|)
    requires |input| >= BatchesFrom(|indices|, i, TrainBatchSize(m)) * |w| && AllDbl(input)
    ensures Session(m, input, data, labels, indices, i, w, sent).completed
    ensures |Session(m, input, data, labels, indices, i, w, sent).requests| == |sent| + BatchesFrom(|indices|, i, TrainBatchSize(m))
    decreases |indices| - i
  {
    if i < |indices| {
      var size, d := TrainBatchSize(m), |w|;
      var left := BatchesFrom(|indices|, i + size, size);
      assert |input| >= d + left * d by {
        assert BatchesFrom(|indices|, i, size) == 1 + left;
        SuccessorTimes(left, d);
      }
      var reply := ReadDbls(input, d);
      assert reply.Got? && |reply.value| == d && |reply.rest| >= left * d && AllDbl(reply.rest) by {
        assert AllDbl(input[..d]);
        assert reply == Got(Values(input[..d]), input[d..]);
      }
      var r := BatchRequest(m, data, labels, indices, i, w);
      SessionStep(m, input, data, labels, indices, i, w, sent, r);
      SessionCompletes(m, reply.rest, data, labels, indices, i + size, reply.value, sent + [r]);
    }
  }

  lemma SuccessorTimes(a: nat, d: nat)
    ensures (1 + a) * d == d + a * d
  {
  }

  /** The session ends early, after writing one request, when the reply to it
      is cut short. */
  lemma SessionStopsOnClosedInput(m: Model, data: seq<seq<real>>, labels: seq<real>, indices: seq<nat>, w: seq<real>, partial: seq<real>)
    requires Dataset(data, labels, |w|) && InRange(indices, |data|)
    requires 0 < |indices| && |partial| < |w|
    ensures !Session(m, Dbls(partial), data, labels, indices, 0, w, []).completed
    ensures |Session(m, Dbls(partial), data, labels, indices, 0, w, []).requests| == 1
    ensures Session(m, Dbls(partial), data, labels, indices, 0, w, []).weights == w
  {
  }

  /** The tokens of a list of requests. */
  function Written(rs: seq<Request>): seq<Token> {
    GradientStep.Requests(rs)
  }

  lemma {:induction false} WrittenSnoc(rs: seq<Request>, r: Request)
    ensures Written(rs + [r]) == Written(rs) + Frame(BatchAndSize, r)
  {
    if rs == [] {
      assert [] + [r] == [r];
      assert Frame(BatchAndSize, r) + [] == Frame(BatchAndSize, r);
    } else {
      assert (rs + [r])[1..] == rs[1..] + [r];
      WrittenSnoc(rs[1..], r);
      assert Written(rs + [r]) == Frame(BatchAndSize, rs[0]) + Written(rs[1..] + [r]);
    }
  }

  /** One step of the session at position `i`, as the loop takes it. */
  lemma SessionStep(m: Model, input: seq<Token>, data: seq<seq<real>>, labels: seq<real>, indices: seq<nat>,
                    i: nat, w: seq<real>, sent: seq<Request>, r: Request)
    requires Dataset(data, labels, |w|) && InRange(indices, |data|) && i < |indices|
    requires r == BatchRequest(m, data, labels, indices, i, w)
    ensures ReadDbls(input, |w|).Failed? ==> Session(m, input, data, labels, indices, i, w, sent) == Outcome(sent + [r], w, false)
    ensures ReadDbls(input, |w|).Got? ==>
      Session(m, input, data, labels, indices, i, w, sent)
      == Session(m, ReadDbls(input, |w|).rest, data, labels, indices, i + TrainBatchSize(m), ReadDbls(input, |w|).value, sent + [r])
  {
  }

  /** The body of the batch loop up to the reply: gather the batch, compute
      its gradient, write the batch size, the feature count and the gradient
      in writes of at most 100 values. */
  method SendBatch(m: Model, data: seq<seq<real>>, labels: seq<real>, indices: seq<nat>, i: nat, weights: seq<real>, nFeatures: int)
    returns (tokens: seq<Token>)
    requires Dataset(data, labels, |weights|) && InRange(indices, |data|) && i < |indices| && nFeatures == |weights|
    ensures tokens == Frame(BatchAndSize, BatchRequest(m, data, labels, indices, i, weights))
  {
    var batchSize := Min(TrainBatchSize(m), |indices| - i);
    var batch := indices[i .. i + batchSize];
    var xs, ys := GatherBatch(data, labels, batch);
    var gradient := ComputeGradient(m, xs, ys, weights);
    var writes := SendInBatches(gradient, NetworkBatchSize);
    tokens := [Int(batchSize), Int(nFeatures)] + Dbls(Concat(writes));
    ghost var r := BatchRequest(m, data, labels, indices, i, weights);
    assert batch == Batch(indices, i, TrainBatchSize(m));
    assert r == Request(batchSize, gradient);
    assert Prefix(BatchAndSize, batchSize, |gradient|) == [Int(batchSize), Int(nFeatures)];
  }

  /** `train_and_send_batches` for one epoch over the shuffled `indices`
      (any list of row indices as long as the data will do).  It returns the tokens written, the final weights and whether every
      batch was answered; all three are those of `Session`. */
  method TrainAndSendBatches(m: Model, input: seq<Token>, data: seq<seq<real>>, labels: seq<real>, indices: seq<nat>, weights: seq<real>)
    returns (written: seq<Token>, finalWeights: seq<real>, completed: bool)
    requires Dataset(data, labels, |weights|) && |indices| == |data| && InRange(indices, |data|)
    ensures var o := Session(m, input, data, labels, indices, 0, weights, []);
      written == Written(o.requests) && finalWeights == o.weights && completed == o.completed
  {
    var nSamples := |data|;
    var nFeatures := if nSamples > 0 then |data[0]| else |weights|;
    var trainBatchSize := TrainBatchSize(m);
    ghost var goal := Session(m, input, data, labels, indices, 0, weights, []);
    ghost var sent: seq<Request> := [];
    written, finalWeights := [], weights;
    var rest := input;
    var i := 0;
    while i < nSamples
      invariant |finalWeights| == |weights|
      invariant Session(m, rest, data, labels, indices, i, finalWeights, sent) == goal
      invariant written == Written(sent)
      decreases nSamples - i
    {
      var tokens := SendBatch(m, data, labels, indices, i, finalWeights, nFeatures);
      ghost var r := BatchRequest(m, data, labels, indices, i, finalWeights);
      assert written + tokens == Written(sent + [r]) by {
        WrittenSnoc(sent, r);
      }
      written := written + tokens;
      var reply := ReadDbls(rest, |finalWeights|);
      if reply.Failed? {
        assert goal == Outcome(sent + [r], finalWeights, false) by {
          SessionStep(m, rest, data, labels, indices, i, finalWeights, sent, r);
        }
        sent := sent + [r];
        completed := false;
        return;
      }
      assert Session(m, reply.rest, data, labels, indices, i + trainBatchSize, reply.value, sent + [r]) == goal by {
        SessionStep(m, rest, data, labels, indices, i, finalWeights, sent, r);
      }
      sent := sent + [r];
      finalWeights, rest := reply.value, reply.rest;
      i := i + trainBatchSize;
    }
    completed := true;
  }

  /** What the client writes is what a gradient server reads: a server of
      Logistic_Regression/server.cpp, LSVM/server.cpp or
      Linear_Regression/server.cpp that receives the client's tokens takes
      one step per request, in order, and replies after each. */
  lemma ServerReadsClient(m: Model, input: seq<Token>, data: seq<seq<real>>, labels: seq<real>, indices: seq<nat>, weights: seq<real>,
                          rule: GradientStep.Rule, s: GradientStep.State, tail: seq<Token>)
    requires Dataset(data, labels, |weights|) && Shuffled(indices, |data|)
    requires ValidSize(|weights|, GradientStep.MaxVectorSize)
    requires GradientStep.Steppable(rule, s, Session(m, input, data, labels, indices, 0, weights, []).requests, |weights|)
    ensures var rs := Session(m, input, data, labels, indices, 0, weights, []).requests;
      GradientStep.Run(rule, s, Written(rs) + tail, [])
      == GradientStep.Run(rule, GradientStep.ApplyAll(rule, s, rs, |weights|), tail, GradientStep.Replies(rule, s, rs, |weights|))
  {
    var rs := Session(m, input, data, labels, indices, 0, weights, []).requests;
    GradientStep.SessionOfRequests(rule, s, rs, |weights|, tail, []);
    assert [] + GradientStep.Replies(rule, s, rs, |weights|) == GradientStep.Replies(rule, s, rs, |weights|);
  }
}
