/** Naive_Bayes/client.cpp: the local data is cut into batches of 100
    rows; for every batch the client computes, class by class, the mean
    and the (population) variance of every feature and the share of all
    local rows the class holds in the batch, sends them to the server and
    reads the server's whole table back. */
module NaiveBayesClient {
  import opened Wire
  import opened Vec
  import opened Moments
  import opened NaiveBayesServer

  /** `COMPUTE_BATCH_SIZE`. */
  const ComputeBatchSize := 100

  // ---------------------------------------------------------------------------
  // The rows of one class (`class_indices`, `class_data`)

  /** The positions whose label is `c`, in increasing order. */
  function Indices(labels: seq<real>, c: int): (ix: seq<nat>)
    ensures forall j :: 0 <= j < |ix| ==> ix[j] < |labels|
    decreases |labels|
  {
    if labels == [] then []
    else
      var n := |labels| - 1;
      Indices(labels[..n], c) + (if labels[n] == c as real then [n] else [])
  }

  /** A position is listed exactly when its label is `c`, and the list is
      strictly increasing, so every such row is taken once, in order. */
  lemma {:induction false} IndicesExact(labels: seq<real>, c: int)
    ensures forall i :: 0 <= i < |labels| ==> (i in Indices(labels, c) <==> labels[i] == c as real)
    ensures forall j, j' :: 0 <= j < j' < |Indices(labels, c)| ==> Indices(labels, c)[j] < Indices(labels, c)[j']
    decreases |labels|
  {
    if labels != [] {
      var n := |labels| - 1;
      var prefix := labels[..n];
      IndicesExact(prefix, c);
      forall i | 0 <= i < n ensures labels[i] == prefix[i] {
      }
    }
  }

  /** The rows of `rows` whose label is `c`, in order. */
  function ClassRows(rows: seq<seq<real>>, labels: seq<real>, c: int, d: nat): (cls: seq<seq<real>>)
    requires AllLength(rows, d) && |labels| == |rows|
    ensures AllLength(cls, d) && |cls| == |Indices(labels, c)|
    ensures forall j :: 0 <= j < |cls| ==> cls[j] == rows[Indices(labels, c)[j]]
  {
    var ix := Indices(labels, c);
    seq(|ix|, j requires 0 <= j < |ix| => rows[ix[j]])
  }

  // ---------------------------------------------------------------------------
  // The statistics of one class (`compute_class_statistics`)

  /** `(class_data.rowwise() - mean).array().square()`. */
  function SquaredDeviations(rows: seq<seq<real>>, m: seq<real>, d: nat): (sq: seq<seq<real>>)
    requires AllLength(rows, d) && |m| == d
    ensures |sq| == |rows| && AllLength(sq, d)
  {
    seq(|rows|, i requires 0 <= i < |rows| =>
      seq(d, k requires 0 <= k < d => (rows[i][k] - m[k]) * (rows[i][k] - m[k])))
  }

  /** `.colwise().mean()` of the squared deviations from the column means. */
  function ColumnVariances(rows: seq<seq<real>>, d: nat): (v: seq<real>)
    requires AllLength(rows, d) && |rows| > 0
    ensures |v| == d
  {
    Mean(SquaredDeviations(rows, Mean(rows, d), d), d)
  }

  /** Class `c`'s prior, means and variances for one batch: an absent class
      gets zero means, unit variances and prior zero. */
  function ClassStatsOf(rows: seq<seq<real>>, labels: seq<real>, c: int, total: int, d: nat): (s: ClassStats)
    requires AllLength(rows, d) && |labels| == |rows| && total != 0
    ensures |s.mean| == d && |s.variance| == d
  {
    var cls := ClassRows(rows, labels, c, d);
    if cls == [] then ClassStats(0.0, Zeros(d), Ones(d))
    else ClassStats(|cls| as real / total as real, Mean(cls, d), ColumnVariances(cls, d))
  }

  /** All classes `0 .. numClasses - 1` of one batch. */
  function Statistics(rows: seq<seq<real>>, labels: seq<real>, total: int, numClasses: nat, d: nat): (stats: seq<ClassStats>)
    requires AllLength(rows, d) && |labels| == |rows| && total != 0
    ensures |stats| == numClasses
    ensures forall c :: 0 <= c < numClasses ==> |stats[c].mean| == d && |stats[c].variance| == d
  {
    seq(numClasses, c requires 0 <= c < numClasses => ClassStatsOf(rows, labels, c, total, d))
  }

  lemma {:induction false} SumAllColumn(rows: seq<seq<real>>, d: nat, k: nat)
    requires AllLength(rows, d) && k < d
    ensures SumAll(rows, d)[k] == Sum(Column(rows, k, d))
  {
    if rows != [] {
      SumAllColumn(rows[1..], d, k);
      assert Column(rows, k, d)[1..] == Column(rows[1..], k, d);
    } else {
      assert Column(rows, k, d) == [];
    }
  }

  lemma {:induction false} DeviationColumn(rows: seq<seq<real>>, m: seq<real>, d: nat, k: nat)
    requires AllLength(rows, d) && |m| == d && k < d
    ensures SumAll(SquaredDeviations(rows, m, d), d)[k] == Deviation(Column(rows, k, d), m[k])
  {
    if rows != [] {
      assert SquaredDeviations(rows, m, d)[1..] == SquaredDeviations(rows[1..], m, d);
      DeviationColumn(rows[1..], m, d, k);
      assert Column(rows, k, d)[1..] == Column(rows[1..], k, d);
    } else {
      assert Column(rows, k, d) == [];
    }
  }

  /** `colwise().mean()` is the mean of each column. */
  lemma MeanIsColumnMean(rows: seq<seq<real>>, d: nat, k: nat)
    requires AllLength(rows, d) && |rows| > 0 && k < d
    ensures Mean(rows, d)[k] == MeanOf(Column(rows, k, d))
  {
    SumAllColumn(rows, d, k);
  }

  /** The variances are the population variance of each column. */
  lemma VarianceIsColumnVariance(rows: seq<seq<real>>, d: nat, k: nat)
    requires AllLength(rows, d) && |rows| > 0 && k < d
    ensures ColumnVariances(rows, d)[k] == PopulationVariance(Column(rows, k, d))
  {
    var col := Column(rows, k, d);
    var m := Mean(rows, d);
    MeanIsColumnMean(rows, d, k);
    DeviationColumn(rows, m, d, k);
    M2IsDeviation(col);
    var sd := SumAll(SquaredDeviations(rows, m, d), d)[k];
    var v := ColumnVariances(rows, d)[k];
    assert v == sd / |rows| as real;
    assert v == PopulationVariance(col);
  }

  /** The server recovers a class's row count from its prior: the prior is
      `count / total` and the server truncates `prior * total`. */
  lemma PriorRecoversCount(count: nat, total: int)
    requires total != 0
    ensures BatchSize(count as real / total as real, total) == count
  {
    var p := count as real / total as real;
    assert p * total as real == count as real;
    TruncateInt(count);
  }

  /** A class present in the batch is sent as the population summary of its
      rows, with a prior from which the server gets back its row count. */
  lemma ClassStatsSummarise(rows: seq<seq<real>>, labels: seq<real>, c: int, total: int, d: nat)
    requires AllLength(rows, d) && |labels| == |rows| && total != 0
    requires ClassRows(rows, labels, c, d) != []
    ensures PopulationSummary(ClassStatsOf(rows, labels, c, total, d).mean, ClassStatsOf(rows, labels, c, total, d).variance,
                              |ClassRows(rows, labels, c, d)|, ClassRows(rows, labels, c, d), d)
    ensures BatchSize(ClassStatsOf(rows, labels, c, total, d).prior, total) == |ClassRows(rows, labels, c, d)|
  {
    var cls := ClassRows(rows, labels, c, d);
    var s := ClassStatsOf(rows, labels, c, total, d);
    forall k | 0 <= k < d
      ensures s.mean[k] == MeanOf(Column(cls, k, d)) && s.variance[k] == PopulationVariance(Column(cls, k, d))
    {
      MeanIsColumnMean(cls, d, k);
      VarianceIsColumnVariance(cls, d, k);
    }
    PriorRecoversCount(|cls|, total);
  }

  /** The scan for `class_indices`: every position labelled `c`, in order. */
  method ClassIndices(batchLabels: seq<real>, c: int) returns (classIndices: seq<nat>)
    ensures classIndices == Indices(batchLabels, c)
  {
    classIndices := [];
    var i := 0;
    while i < |batchLabels|
      invariant 0 <= i <= |batchLabels|
      invariant classIndices == Indices(batchLabels[..i], c)
    {
      assert batchLabels[..i + 1][..i] == batchLabels[..i];
      if batchLabels[i] == c as real {
        classIndices := classIndices + [i];
      }
      i := i + 1;
    }
    assert batchLabels[..i] == batchLabels;
  }

  /** The copy of the selected rows into `class_data`. */
  method GatherRows(batchData: seq<seq<real>>, classIndices: seq<nat>) returns (classData: seq<seq<real>>)
    requires forall l :: 0 <= l < |classIndices| ==> classIndices[l] < |batchData|
    ensures |classData| == |classIndices|
    ensures forall l :: 0 <= l < |classIndices| ==> classData[l] == batchData[classIndices[l]]
  {
    classData := [];
    var j := 0;
    while j < |classIndices|
      invariant 0 <= j <= |classIndices| && |classData| == j
      invariant forall l :: 0 <= l < j ==> classData[l] == batchData[classIndices[l]]
    {
      classData := classData + [batchData[classIndices[j]]];
      j := j + 1;
    }
  }

  /** `compute_class_statistics`: the resize to zero means, zero variances
      and zero priors, then class after class the index scan, the gather of
      the class's rows and its statistics. */
  method ComputeClassStatistics(batchData: seq<seq<real>>, batchLabels: seq<real>, totalSamples: int, numClasses: nat, d: nat)
    returns (stats: seq<ClassStats>)
    requires AllLength(batchData, d) && |batchLabels| == |batchData| && totalSamples != 0
    ensures stats == Statistics(batchData, batchLabels, totalSamples, numClasses, d)
  {
    stats := seq(numClasses, _ => ClassStats(0.0, Zeros(d), Zeros(d)));
    var c := 0;
    while c < numClasses
      invariant 0 <= c <= numClasses && |stats| == numClasses
      invariant forall j :: 0 <= j < c ==> stats[j] == ClassStatsOf(batchData, batchLabels, j, totalSamples, d)
    {
      var classIndices := ClassIndices(batchLabels, c);
      if |classIndices| > 0 {
        var classData := GatherRows(batchData, classIndices);
        assert classData == ClassRows(batchData, batchLabels, c, d);
        var means := Mean(classData, d);
        var variances := ColumnVariances(classData, d);
        var prior := |classData| as real / totalSamples as real;
        stats := stats[c := ClassStats(prior, means, variances)];
      } else {
        assert ClassRows(batchData, batchLabels, c, d) == [];
        stats := stats[c := ClassStats(0.0, Zeros(d), Ones(d))];
      }
      c := c + 1;
    }
  }

  // ---------------------------------------------------------------------------
  // The batches (`num_batches`, `start_row`, `end_row`)

  /** `rows / 100 + (rows % 100 != 0)`. */
  function NumBatches(rows: nat): nat {
    rows / ComputeBatchSize + (if rows % ComputeBatchSize != 0 then 1 else 0)
  }

  /** Batch `b`'s rows, `block(start_row, 0, end_row - start_row, cols)`. */
  function BatchSlice<T>(v: seq<T>, b: nat): (w: seq<T>)
    requires b < NumBatches(|v|)
    ensures 0 < |w| <= ComputeBatchSize
  {
    v[b * ComputeBatchSize .. Min(|v|, b * ComputeBatchSize + ComputeBatchSize)]
  }

  /** The batches are the consecutive chunks of at most 100 rows, so
      together they hold every row exactly once, in order. */
  lemma BatchesAreChunks<T>(v: seq<T>)
    ensures NumBatches(|v|) == |Chunks(v, ComputeBatchSize)|
    ensures forall b :: 0 <= b < NumBatches(|v|) ==> BatchSlice(v, b) == Chunks(v, ComputeBatchSize)[b]
    ensures Concat(Chunks(v, ComputeBatchSize)) == v
  {
    ChunksShape(v, ComputeBatchSize);
    forall b | 0 <= b < NumBatches(|v|) ensures BatchSlice(v, b) == Chunks(v, ComputeBatchSize)[b] {
      ChunkAt(v, ComputeBatchSize, b);
    }
  }

  // ---------------------------------------------------------------------------
  // The messages

  /** The class part of a request: every class's prior, means and variances. */
  function ClassFrames(stats: seq<ClassStats>): seq<Token>
    decreases |stats|
  {
    if stats == [] then [] else ClassFrames(stats[..|stats| - 1]) + ClassFrame(stats[|stats| - 1])
  }

  lemma {:induction false} ClassFramesCons(stats: seq<ClassStats>)
    requires stats != []
    ensures ClassFrames(stats) == ClassFrame(stats[0]) + ClassFrames(stats[1..])
    decreases |stats|
  {
    var n := |stats| - 1;
    if n > 0 {
      ClassFramesCons(stats[..n]);
      assert stats[..n][1..] == stats[1..][..n - 1];
      assert stats[..n][0] == stats[0];
    } else {
      assert stats[1..] == [];
    }
  }

  /** One batch's request: the header and the classes. */
  function Request(h: BatchHeader, stats: seq<ClassStats>): seq<Token> {
    HeaderFrame(h) + ClassFrames(stats)
  }

  /** Reading one class of the reply: means, variances, prior. */
  function ReadClassReply(s: seq<Token>, numFeatures: nat): (r: Read<ClassStats>)
    ensures r.Got? ==> |r.value.mean| == numFeatures && |r.value.variance| == numFeatures
  {
    match ReadDbls(s, numFeatures)
    case Failed => Failed
    case Got(mean, s1) =>
      match ReadDbls(s1, numFeatures)
      case Failed => Failed
      case Got(variance, s2) =>
        match ReadDbl(s2)
        case Failed => Failed
        case Got(prior, s3) => Got(ClassStats(prior, mean, variance), s3)
  }

  /** Reading the reply for classes `0 .. n - 1`. */
  function ReadReply(s: seq<Token>, n: nat, numFeatures: nat): (r: Read<seq<ClassStats>>)
    ensures r.Got? ==> |r.value| == n
    decreases n
  {
    if n == 0 then Got([], s)
    else
      match ReadReply(s, n - 1, numFeatures)
      case Failed => Failed
      case Got(xs, s1) =>
        match ReadClassReply(s1, numFeatures)
        case Failed => Failed
        case Got(x, s2) => Got(xs + [x], s2)
  }

  /** Once a class of the reply fails to arrive, the whole reply fails. */
  lemma {:induction false} ReadReplyFails(s: seq<Token>, c: nat, n: nat, numFeatures: nat)
    requires c <= n && ReadReply(s, c, numFeatures).Failed?
    ensures ReadReply(s, n, numFeatures).Failed?
    decreases n
  {
    if c < n {
      ReadReplyFails(s, c, n - 1, numFeatures);
    }
  }

  // ---------------------------------------------------------------------------
  // One session (`send_batches_and_receive_updates`)

  /** What the client wrote, the last table it read, and whether every
      batch was answered. */
  datatype Outcome = Outcome(sent: seq<Token>, updated: seq<ClassStats>, completed: bool)

  /** The vectors before the first reply: empty means and variances, zero priors. */
  function Initial(numClasses: nat): (u: seq<ClassStats>)
    ensures |u| == numClasses
  {
    seq(numClasses, _ => ClassStats(0.0, [], []))
  }

  /** The request for batch `i` of the local data. */
  function BatchRequest(data: seq<seq<real>>, labels: seq<real>, i: nat, numClasses: nat, d: nat): seq<Token>
    requires AllLength(data, d) && |labels| == |data| && i < NumBatches(|data|)
  {
    Request(BatchHeader(|data|, numClasses, d),
            Statistics(BatchSlice(data, i), BatchSlice(labels, i), |data|, numClasses, d))
  }

  /** The requests of all batches of the local data, in batch order. */
  function Requests(data: seq<seq<real>>, labels: seq<real>, numClasses: nat, d: nat): (rs: seq<seq<Token>>)
    requires AllLength(data, d) && |labels| == |data|
    ensures |rs| == NumBatches(|data|)
  {
    seq(NumBatches(|data|), i requires 0 <= i < NumBatches(|data|) => BatchRequest(data, labels, i, numClasses, d))
  }

  /** The session from batch `i` of the current epoch, with `epochs`
      epochs left (the current one included): each batch's request is
      sent, then its reply of `numClasses` classes read; a failed read
      ends the session. */
  function Session(s: seq<Token>, requests: seq<seq<Token>>, numClasses: nat, d: nat,
                   i: nat, epochs: int, last: seq<ClassStats>, out: seq<Token>): (r: Outcome)
    requires i <= |requests|
    ensures r.updated == last || |r.updated| == numClasses
    decreases epochs, |requests| - i
  {
    if epochs <= 0 then Outcome(out, last, true)
    else if i == |requests| then Session(s, requests, numClasses, d, 0, epochs - 1, last, out)
    else
      var sent := out + requests[i];
      match ReadReply(s, numClasses, d)
      case Failed => Outcome(sent, last, false)
      case Got(u, rest) => Session(rest, requests, numClasses, d, i + 1, epochs, u, sent)
  }

  /** Batch `i` answered: the session goes on from the rest of the input. */
  lemma SessionAdvance(s: seq<Token>, requests: seq<seq<Token>>, numClasses: nat, d: nat,
                       i: nat, epochs: int, last: seq<ClassStats>, out: seq<Token>)
    requires i < |requests| && epochs > 0 && ReadReply(s, numClasses, d).Got?
    ensures Session(s, requests, numClasses, d, i, epochs, last, out) ==
            Session(ReadReply(s, numClasses, d).rest, requests, numClasses, d, i + 1, epochs,
                    ReadReply(s, numClasses, d).value, out + requests[i])
  {
  }

  /** Batch `i` unanswered: the session ends after its request. */
  lemma SessionHalts(s: seq<Token>, requests: seq<seq<Token>>, numClasses: nat, d: nat,
                     i: nat, epochs: int, last: seq<ClassStats>, out: seq<Token>)
    requires i < |requests| && epochs > 0 && ReadReply(s, numClasses, d).Failed?
    ensures Session(s, requests, numClasses, d, i, epochs, last, out) == Outcome(out + requests[i], last, false)
  {
  }

  /** The last batch of an epoch done: the next epoch starts at batch 0. */
  lemma SessionNextEpoch(s: seq<Token>, requests: seq<seq<Token>>, numClasses: nat, d: nat,
                         epochs: int, last: seq<ClassStats>, out: seq<Token>)
    requires epochs > 0
    ensures Session(s, requests, numClasses, d, |requests|, epochs, last, out) ==
            Session(s, requests, numClasses, d, 0, epochs - 1, last, out)
  {
  }

  /** The write loop over the classes of one batch. */
  method WriteClasses(stats: seq<ClassStats>) returns (frames: seq<Token>)
    ensures frames == ClassFrames(stats)
  {
    frames := [];
    var c := 0;
    while c < |stats|
      invariant 0 <= c <= |stats|
      invariant frames == ClassFrames(stats[..c])
    {
      assert stats[..c + 1][..c] == stats[..c];
      frames := frames + [Dbl(stats[c].prior)] + Dbls(stats[c].mean) + Dbls(stats[c].variance);
      c := c + 1;
    }
    assert stats[..c] == stats;
  }

  /** Reading one more class of the reply. */
  lemma ReadReplyNext(s: seq<Token>, c: nat, d: nat, xs: seq<ClassStats>, rest: seq<Token>)
    requires ReadReply(s, c, d) == Got(xs, rest)
    ensures ReadReply(s, c + 1, d) ==
              match ReadClassReply(rest, d)
              case Failed => Failed
              case Got(x, rest') => Got(xs + [x], rest')
  {
  }

  /** The three reads of one class of the reply. */
  method ReceiveClass(s: seq<Token>, d: nat) returns (r: Read<ClassStats>)
    ensures r == ReadClassReply(s, d)
  {
    var mean := ReadDbls(s, d);
    if mean.Failed? {
      return Failed;
    }
    var variance := ReadDbls(mean.rest, d);
    if variance.Failed? {
      return Failed;
    }
    var prior := ReadDbl(variance.rest);
    if prior.Failed? {
      return Failed;
    }
    return Got(ClassStats(prior.value, mean.value, variance.value), prior.rest);
  }

  /** The read loop over the classes of one reply: class `c`'s means,
      variances and prior overwrite entry `c` of `updated`. */
  method ReceiveUpdates(reply: seq<Token>, updated: seq<ClassStats>, d: nat)
    returns (received: seq<ClassStats>, rest: seq<Token>, ok: bool)
    ensures ok <==> ReadReply(reply, |updated|, d).Got?
    ensures ok ==> ReadReply(reply, |updated|, d) == Got(received, rest)
  {
    received := updated;
    rest := reply;
    var c := 0;
    while c < |updated|
      invariant 0 <= c <= |updated| && |received| == |updated|
      invariant ReadReply(reply, c, d) == Got(received[..c], rest)
    {
      ReadReplyNext(reply, c, d, received[..c], rest);
      var cls := ReceiveClass(rest, d);
      if cls.Failed? {
        ReadReplyFails(reply, c + 1, |updated|, d);
        return received, rest, false;
      }
      assert received[..c + 1][..c] == received[..c];
      received := received[c := cls.value];
      assert received[..c + 1] == received[..c] + [cls.value];
      rest := cls.rest;
      c := c + 1;
    }
    assert received[..c] == received;
    ok := true;
  }

  /** Entry `i` of `Requests` is the request of batch `i`. */
  lemma RequestAt(data: seq<seq<real>>, labels: seq<real>, numClasses: nat, d: nat, i: nat)
    requires AllLength(data, d) && |labels| == |data| && i < NumBatches(|data|)
    ensures Requests(data, labels, numClasses, d)[i] == BatchRequest(data, labels, i, numClasses, d)
  {
  }

  /** Lines 96-114 of one batch: slice the batch, compute its statistics
      and write the header and the class frames. */
  method BuildRequest(localData: seq<seq<real>>, localLabels: seq<real>, batchIndex: nat, numClasses: nat, d: nat)
    returns (request: seq<Token>)
    requires AllLength(localData, d) && |localLabels| == |localData| && batchIndex < NumBatches(|localData|)
    ensures request == BatchRequest(localData, localLabels, batchIndex, numClasses, d)
  {
    var startRow := batchIndex * ComputeBatchSize;
    var endRow := Min(|localData|, startRow + ComputeBatchSize);
    var batchData := localData[startRow..endRow];
    var batchLabels := localLabels[startRow..endRow];
    assert batchData == BatchSlice(localData, batchIndex) && batchLabels == BatchSlice(localLabels, batchIndex);
    var totalSamples := |localData|;
    var batchStats := ComputeClassStatistics(batchData, batchLabels, totalSamples, numClasses, d);
    var frames := WriteClasses(batchStats);
    request := [Int(totalSamples), Int(numClasses), Int(d)] + frames;
    assert request == Request(BatchHeader(totalSamples, numClasses, d), batchStats);
  }

  /** One batch of the exchange: its request is built and sent, then the
      reply of `numClasses` classes is read. */
  method ExchangeBatch(input: seq<Token>, localData: seq<seq<real>>, localLabels: seq<real>, batchIndex: nat,
                       numClasses: nat, d: nat, updated: seq<ClassStats>)
    returns (request: seq<Token>, received: seq<ClassStats>, rest: seq<Token>, ok: bool)
    requires AllLength(localData, d) && |localLabels| == |localData| && batchIndex < NumBatches(|localData|)
    requires |updated| == numClasses
    ensures request == Requests(localData, localLabels, numClasses, d)[batchIndex]
    ensures ok <==> ReadReply(input, numClasses, d).Got?
    ensures ok ==> ReadReply(input, numClasses, d) == Got(received, rest)
  {
    request := BuildRequest(localData, localLabels, batchIndex, numClasses, d);
    RequestAt(localData, localLabels, numClasses, d, batchIndex);
    received, rest, ok := ReceiveUpdates(input, updated, d);
  }

  /** One epoch of `send_batches_and_receive_updates`: the batch loop. */
  method SendEpoch(input: seq<Token>, localData: seq<seq<real>>, localLabels: seq<real>, d: nat, numClasses: nat,
                   epochs: int, updated: seq<ClassStats>, sent: seq<Token>)
    returns (rest: seq<Token>, received: seq<ClassStats>, written: seq<Token>, ok: bool)
    requires AllLength(localData, d) && |localLabels| == |localData| && epochs > 0 && |updated| == numClasses
    ensures |received| == numClasses
    ensures var requests := Requests(localData, localLabels, numClasses, d);
            var o := Session(input, requests, numClasses, d, 0, epochs, updated, sent);
            if ok then o == Session(rest, requests, numClasses, d, 0, epochs - 1, received, written)
            else o.sent == written && !o.completed
  {
    var numBatches := |localData| / ComputeBatchSize + (if |localData| % ComputeBatchSize != 0 then 1 else 0);
    ghost var requests := Requests(localData, localLabels, numClasses, d);
    ghost var goal := Session(input, requests, numClasses, d, 0, epochs, updated, sent);
    rest, received, written := input, updated, sent;
    var batchIndex := 0;
    while batchIndex < numBatches
      invariant 0 <= batchIndex <= numBatches && |received| == numClasses
      invariant Session(rest, requests, numClasses, d, batchIndex, epochs, received, written) == goal
    {
      var request, replied, unread, answered := ExchangeBatch(rest, localData, localLabels, batchIndex, numClasses, d, received);
      if !answered {
        SessionHalts(rest, requests, numClasses, d, batchIndex, epochs, received, written);
        written := written + request;
        return rest, received, written, false;
      }
      SessionAdvance(rest, requests, numClasses, d, batchIndex, epochs, received, written);
      written := written + request;
      received, rest := replied, unread;
      batchIndex := batchIndex + 1;
    }
    SessionNextEpoch(rest, requests, numClasses, d, epochs, received, written);
    ok := true;
  }

  /** `send_batches_and_receive_updates`: `num_epochs` passes over the
      batches; each batch's statistics are written, then every class of
      the reply is read into `updated`. */
  method SendBatchesAndReceiveUpdates(input: seq<Token>, localData: seq<seq<real>>, localLabels: seq<real>,
                                      numEpochs: int, numClasses: nat, d: nat)
    returns (sent: seq<Token>, updated: seq<ClassStats>, completed: bool)
    requires AllLength(localData, d) && |localLabels| == |localData|
    ensures var o := Session(input, Requests(localData, localLabels, numClasses, d), numClasses, d, 0, numEpochs,
                             Initial(numClasses), []);
            sent == o.sent && completed == o.completed && (completed ==> updated == o.updated)
  {
    ghost var requests := Requests(localData, localLabels, numClasses, d);
    ghost var goal := Session(input, requests, numClasses, d, 0, numEpochs, Initial(numClasses), []);
    updated := Initial(numClasses);
    sent := [];
    var rest := input;
    var epoch := 0;
    while epoch < numEpochs
      invariant 0 <= epoch && |updated| == numClasses
      invariant Session(rest, requests, numClasses, d, 0, numEpochs - epoch, updated, sent) == goal
    {
      var ok;
      rest, updated, sent, ok := SendEpoch(rest, localData, localLabels, d, numClasses, numEpochs - epoch, updated, sent);
      if !ok {
        completed := false;
        return;
      }
      epoch := epoch + 1;
    }
    completed := true;
  }

  // ---------------------------------------------------------------------------
  // The two sides agree

  /** The server's class loop over statistics that arrived intact. */
  function MergeAll(t: Table, stats: seq<ClassStats>, c: nat, total: int, tail: seq<Token>): (r: Classes)
    requires Valid(t) && c <= |stats|
    ensures Valid(r.table) && |r.table.counts| == |t.counts|
    ensures r.Merged? ==> r.rest == tail && (c < |stats| ==> |stats| <= |t.counts|)
    decreases |stats| - c
  {
    if c == |stats| then Merged(t, tail)
    else if c >= |t.counts| then Halted(t, ClassOutOfRange)
    else if !Fits(t, c, stats[c].mean, stats[c].variance) then Halted(t, DimensionMismatch)
    else if !NonDegenerate(t, c, BatchSize(stats[c].prior, total)) then Halted(t, Degenerate)
    else MergeAll(Merge(t, c, stats[c].mean, stats[c].variance, BatchSize(stats[c].prior, total)), stats, c + 1, total, tail)
  }

  /** The server reads back every class the client wrote, in order, and no
      read of the class loop fails. */
  lemma {:induction false} ServerReadsClasses(t: Table, stats: seq<ClassStats>, c: nat, h: BatchHeader, tail: seq<Token>)
    requires Valid(t) && h.numClasses == |stats| && h.numFeatures >= 0 && c <= |stats|
    requires forall i :: 0 <= i < |stats| ==> |stats[i].mean| == h.numFeatures && |stats[i].variance| == h.numFeatures
    ensures ReadClasses(t, ClassFrames(stats[c..]) + tail, c, h) == MergeAll(t, stats, c, h.total, tail)
    decreases |stats| - c
  {
    if c < |stats| {
      ClassFramesCons(stats[c..]);
      assert stats[c..][1..] == stats[c + 1..];
      var later := ClassFrames(stats[c + 1..]) + tail;
      assert ClassFrames(stats[c..]) + tail == ClassFrame(stats[c]) + later;
      ReadClassStatsOf(stats[c], h.numFeatures, later);
      if c < |t.counts| && Fits(t, c, stats[c].mean, stats[c].variance) &&
         NonDegenerate(t, c, BatchSize(stats[c].prior, h.total)) {
        ServerReadsClasses(Merge(t, c, stats[c].mean, stats[c].variance, BatchSize(stats[c].prior, h.total)),
                           stats, c + 1, h, tail);
      }
    } else {
      assert stats[c..] == [];
    }
  }

  /** One request handled by the server: it accepts the header, merges the
      classes as `MergeAll` says, and replies with the table's first
      `numClasses` classes. */
  lemma ServerAnswersRequest(t: Table, stats: seq<ClassStats>, h: BatchHeader, tail: seq<Token>)
    requires Valid(t) && h.numClasses == |stats| && h.numFeatures >= 0
    requires forall i :: 0 <= i < |stats| ==> |stats[i].mean| == h.numFeatures && |stats[i].variance| == h.numFeatures
    ensures Prepare(t, h).Opened?
    ensures Round(t, Request(h, stats) + tail) ==
              match MergeAll(Prepare(t, h).table, stats, 0, h.total, tail)
              case Halted(t', e) => Stop(t', e)
              case Merged(t', rest) => Next(t', Reply(t', h.numClasses), rest)
  {
    assert Request(h, stats) + tail == HeaderFrame(h) + (ClassFrames(stats) + tail);
    ReadBatchHeaderOf(h, ClassFrames(stats) + tail);
    assert stats[0..] == stats;
    ServerReadsClasses(Prepare(t, h).table, stats, 0, h, tail);
  }

  /** Classes `0 .. n - 1` of the table, as the client stores them. */
  function TableStats(t: Table, n: nat): (u: seq<ClassStats>)
    requires WellFormed(t) && n <= |t.counts|
    ensures |u| == n
  {
    seq(n, c requires 0 <= c < n => ClassStats(t.priors[c], t.means[c], t.variances[c]))
  }

  /** One class of the reply is read back as it was written. */
  lemma ReadClassReplyOf(cs: ClassStats, numFeatures: nat, tail: seq<Token>)
    requires |cs.mean| == numFeatures && |cs.variance| == numFeatures
    ensures ReadClassReply(Dbls(cs.mean) + Dbls(cs.variance) + [Dbl(cs.prior)] + tail, numFeatures) == Got(cs, tail)
  {
    var after := [Dbl(cs.prior)] + tail;
    assert Dbls(cs.mean) + Dbls(cs.variance) + [Dbl(cs.prior)] + tail == Dbls(cs.mean) + (Dbls(cs.variance) + after);
    ReadDblsOfDbls(cs.mean, Dbls(cs.variance) + after);
    ReadDblsOfDbls(cs.variance, after);
    ReadDblOf(cs.prior, tail);
  }

  /** The client reads the server's reply back as the server's table,
      whatever follows it. */
  lemma {:induction false} ClientReadsReply(t: Table, n: nat, numFeatures: nat, tail: seq<Token>)
    requires WellFormed(t) && n <= |t.counts|
    requires forall c :: 0 <= c < n ==> |t.means[c]| == numFeatures && |t.variances[c]| == numFeatures
    ensures ReadReply(Reply(t, n) + tail, n, numFeatures) == Got(TableStats(t, n), tail)
    decreases n
  {
    if n > 0 {
      var cs := ClassStats(t.priors[n - 1], t.means[n - 1], t.variances[n - 1]);
      var last := ClassReply(t, n - 1);
      var s := Reply(t, n) + tail;
      assert s == Reply(t, n - 1) + (last + tail);
      ClientReadsReply(t, n - 1, numFeatures, last + tail);
      ReadReplyNext(s, n - 1, numFeatures, TableStats(t, n - 1), last + tail);
      ReadClassReplyOf(cs, numFeatures, tail);
      TableStatsSnoc(t, n);
    }
  }

  lemma TableStatsSnoc(t: Table, n: nat)
    requires WellFormed(t) && 0 < n <= |t.counts|
    ensures TableStats(t, n) == TableStats(t, n - 1) + [ClassStats(t.priors[n - 1], t.means[n - 1], t.variances[n - 1])]
  {
  }

  /** With the corrected merge, a class summarising rows `xs` (or empty)
      that receives a batch's statistics for that class summarises `xs`
      followed by the batch's rows of that class. */
  lemma ClientBatchPooled(t: Table, c: nat, xs: seq<seq<real>>, rows: seq<seq<real>>, labels: seq<real>, total: int, d: nat)
    requires AllLength(rows, d) && |labels| == |rows| && total != 0
    requires WellFormed(t) && c < |t.counts|
    requires (xs == [] && t.counts[c] == 0) || PopulationSummary(t.means[c], t.variances[c], t.counts[c], xs, d)
    requires xs + ClassRows(rows, labels, c, d) != []
    ensures var s := ClassStatsOf(rows, labels, c, total, d);
            var ys := ClassRows(rows, labels, c, d);
            var b := if ys == [] then 0 else BatchSize(s.prior, total);
            var r := MergeCorrected(t, c, s.mean, s.variance, b);
            b == |ys| && Fits(t, c, s.mean, s.variance) && t.counts[c] + b != 0 &&
            PopulationSummary(r.means[c], r.variances[c], r.counts[c], xs + ys, d)
  {
    var ys := ClassRows(rows, labels, c, d);
    var s := ClassStatsOf(rows, labels, c, total, d);
    if ys != [] {
      ClassStatsSummarise(rows, labels, c, total, d);
    }
    MergeCorrectedIsPooled(t, c, xs, ys, s.mean, s.variance, d);
  }
}
