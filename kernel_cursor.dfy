/** The kernel-SVM client of temp/client.cpp.  It keeps one weight per
    training row.  A static cursor remembers where the previous call
    stopped.  A call trains on at most `n / 30` samples, one kernel hinge
    step per sample, with a gradient that is never reset within the call.
    After every 30 samples it sends a frame of batch size, vector size and
    weights, and overwrites the weights with the server's reply.  `main`
    makes at most three calls and stops early when a call reports the data
    exhausted.

    The RBF kernel (an exponential) is a parameter, with `gamma` folded in.
    The socket is a token sequence: the replies are read from `input`, and
    the frames written are returned. */
module KernelCursor {
  import opened Wire
  import opened Vec
  import opened Frames
  import Averaging
  import TempServer

  /** `TRAIN_BATCH_SIZE`: the divisor of the per-call sample count and the exchange period. */
  const TrainBatchSize := 30
  /** `NETWORK_BATCH_SIZE`. */
  const NetworkBatchSize := 30
  /** `MAX_EPOCHS`. */
  const MaxEpochs := 3
  /** `learning_rate` of `main`. */
  const LearningRate := 0.01

  function Weighted(a: real, b: real): real {
    a * b
  }

  /** `y * kernel_output`. */
  function Margin(y: real, output: real): real {
    y * output
  }

  /** `sum over j < m of K(x, row_j) * w_j`. */
  function KernelOutputOf(kernel: (seq<real>, seq<real>) -> real, data: seq<seq<real>>, x: seq<real>, w: seq<real>, m: nat): (r: real)
    requires m <= |w| <= |data|
  {
    if m == 0 then 0.0 else KernelOutputOf(kernel, data, x, w, m - 1) + Weighted(kernel(x, data[m - 1]), w[m - 1])
  }

  /** The gradient with its first `m` entries lowered by `y * K(row_j, x)`. */
  function Subtracted(kernel: (seq<real>, seq<real>) -> real, data: seq<seq<real>>, x: seq<real>, y: real, g: seq<real>, m: nat)
    : (r: seq<real>)
    requires m <= |g| <= |data|
    ensures |r| == |g|
  {
    if m == 0 then g
    else Subtracted(kernel, data, x, y, g, m - 1)[m - 1 := g[m - 1] + Weighted(-y, kernel(data[m - 1], x))]
  }

  /** Exactly the first `m` entries are lowered. */
  lemma {:induction false} SubtractedAt(kernel: (seq<real>, seq<real>) -> real, data: seq<seq<real>>, x: seq<real>, y: real,
                                        g: seq<real>, m: nat, j: nat)
    requires m <= |g| <= |data| && j < |g|
    ensures Subtracted(kernel, data, x, y, g, m)[j] == if j < m then g[j] + Weighted(-y, kernel(data[j], x)) else g[j]
  {
    if m > 0 {
      SubtractedAt(kernel, data, x, y, g, m - 1, j);
    }
  }

  /** The gradient after one sample: when the margin `y * kernel_output` is
      below 1, every entry `j` decreases by `y * K(row_j, x)`; otherwise it
      is unchanged. */
  function KernelGradient(kernel: (seq<real>, seq<real>) -> real, data: seq<seq<real>>, x: seq<real>, y: real, w: seq<real>, g: seq<real>)
    : (r: seq<real>)
    requires |g| == |w| <= |data|
    ensures |r| == |g|
  {
    if Margin(y, KernelOutputOf(kernel, data, x, w, |w|)) < 1.0 then Subtracted(kernel, data, x, y, g, |g|) else g
  }

  /** The hinge condition: a sample inside the margin lowers every entry
      `j` of the gradient by `y * K(row_j, x)`; any other sample leaves the
      gradient as it was. */
  lemma KernelGradientHinge(kernel: (seq<real>, seq<real>) -> real, data: seq<seq<real>>, x: seq<real>, y: real, w: seq<real>, g: seq<real>)
    requires |g| == |w| <= |data|
    ensures Margin(y, KernelOutputOf(kernel, data, x, w, |w|)) >= 1.0 ==> KernelGradient(kernel, data, x, y, w, g) == g
    ensures Margin(y, KernelOutputOf(kernel, data, x, w, |w|)) < 1.0 ==>
              forall j :: 0 <= j < |g| ==> KernelGradient(kernel, data, x, y, w, g)[j] == g[j] + Weighted(-y, kernel(data[j], x))
  {
    forall j | 0 <= j < |g| {
      SubtractedAt(kernel, data, x, y, g, |g|, j);
    }
  }

  /** Lines 50-51: the kernel output of a sample, one weight at a time. */
  method KernelOutput(kernel: (seq<real>, seq<real>) -> real, data: seq<seq<real>>, xi: seq<real>, weights: seq<real>)
    returns (kernelOutput: real)
    requires |weights| <= |data|
    ensures kernelOutput == KernelOutputOf(kernel, data, xi, weights, |weights|)
  {
    kernelOutput := 0.0;
    for j := 0 to |weights|
      invariant kernelOutput == KernelOutputOf(kernel, data, xi, weights, j)
    {
      kernelOutput := kernelOutput + Weighted(kernel(xi, data[j]), weights[j]);
    }
  }

  /** Lines 54-55: every gradient entry lowered by `yi * K(row_j, xi)`. */
  method SubtractKernels(kernel: (seq<real>, seq<real>) -> real, data: seq<seq<real>>, xi: seq<real>, yi: real, gradient: seq<real>)
    returns (lowered: seq<real>)
    requires |gradient| <= |data|
    ensures lowered == Subtracted(kernel, data, xi, yi, gradient, |gradient|)
  {
    lowered := gradient;
    for j := 0 to |gradient|
      invariant lowered == Subtracted(kernel, data, xi, yi, gradient, j)
    {
      SubtractedAt(kernel, data, xi, yi, gradient, j, j);
      lowered := lowered[j := lowered[j] + Weighted(-yi, kernel(data[j], xi))];
    }
  }

  /** Lines 46-58 for one sample: the hinge update of the gradient, then the
      step of the weights by the whole accumulated gradient. */
  method SampleUpdate(kernel: (seq<real>, seq<real>) -> real, data: seq<seq<real>>, xi: seq<real>, yi: real,
                      weights: seq<real>, gradient: seq<real>)
    returns (weights': seq<real>, gradient': seq<real>)
    requires |gradient| == |weights| <= |data|
    ensures gradient' == KernelGradient(kernel, data, xi, yi, weights, gradient)
    ensures weights' == NextWeights(weights, gradient')
  {
    var kernelOutput := KernelOutput(kernel, data, xi, weights);
    gradient' := gradient;
    if Margin(yi, kernelOutput) < 1.0 {
      gradient' := SubtractKernels(kernel, data, xi, yi, gradient);
    }
    weights' := Sub(weights, Scale(LearningRate, gradient'));
  }

  /** The gradient after sample `i`. */
  function NextGradient(kernel: (seq<real>, seq<real>) -> real, data: seq<seq<real>>, labels: seq<real>, i: nat,
                        w: seq<real>, g: seq<real>): (r: seq<real>)
    requires i < |data| == |labels| && |g| == |w| <= |data|
    ensures |r| == |g|
  {
    KernelGradient(kernel, data, data[i], labels[i], w, g)
  }

  /** `weights -= learning_rate * gradient`. */
  function NextWeights(w: seq<real>, g: seq<real>): (r: seq<real>)
    requires |g| == |w|
    ensures |r| == |w|
  {
    Sub(w, Scale(LearningRate, g))
  }

  /** How a call ends: `true` returned (`Exhausted`), `false` returned
      (`Paused`), or the read of the reply failed and threw (`Broken`). */
  datatype Status = Exhausted | Paused | Broken

  /** A call's outcome: how it ended, the weights, the cursor it leaves,
      the unread input and every weight vector written so far. */
  datatype Call = Call(status: Status, weights: seq<real>, cursor: nat, rest: seq<Token>, sent: seq<seq<real>>)

  /** The loop of `train_incrementally` from sample `current`, having
      processed `processed` of at most `iteration` samples in this call. */
  function Steps(kernel: (seq<real>, seq<real>) -> real, data: seq<seq<real>>, labels: seq<real>, last: nat,
                 current: nat, processed: nat, iteration: nat, w: seq<real>, g: seq<real>, input: seq<Token>,
                 sent: seq<seq<real>>): (c: Call)
    requires |labels| == |data| && |w| <= |data| && |g| == |w|
    ensures |c.weights| == |w| && sent <= c.sent
    ensures AllLength(sent, |w|) ==> AllLength(c.sent, |w|)
    decreases iteration - processed
  {
    if processed >= iteration then Call(Paused, w, current, input, sent)
    else if current >= |data| then Call(Exhausted, w, last, input, sent)
    else
      var g' := NextGradient(kernel, data, labels, current, w, g);
      var w' := NextWeights(w, g');
      var p := processed + 1;
      if p % TrainBatchSize != 0 then Steps(kernel, data, labels, last, current + 1, p, iteration, w', g', input, sent)
      else
        match ReadDbls(input, |w'|)
        case Failed => Call(Broken, w', last, input, sent + [w'])
        case Got(v, rest) => Steps(kernel, data, labels, last, current + 1, p, iteration, v, g', rest, sent + [w'])
  }

  /** One call of `train_incrementally` from cursor `last`: at most
      `n / 30` samples, starting from a zero gradient. */
  function TrainCall(kernel: (seq<real>, seq<real>) -> real, data: seq<seq<real>>, labels: seq<real>, last: nat,
                     w: seq<real>, input: seq<Token>, sent: seq<seq<real>>): (c: Call)
    requires |labels| == |data| && |w| <= |data|
    ensures |c.weights| == |w|
  {
    Steps(kernel, data, labels, last, last, 0, |data| / TrainBatchSize, w, Zeros(|w|), input, sent)
  }

  /** The count of multiples of 30 goes up by one exactly at a multiple. */
  lemma MultipleStep(p: nat)
    ensures (p + 1) % TrainBatchSize == 0 ==> (p + 1) / TrainBatchSize == p / TrainBatchSize + 1
    ensures (p + 1) % TrainBatchSize != 0 ==> (p + 1) / TrainBatchSize == p / TrainBatchSize
  {
  }

  /** How the loop ends, from sample `current == last + processed`: it
      reports exhaustion only when it runs out of rows before its quota,
      leaving the cursor where the call started; it pauses with the cursor
      advanced by the whole quota, and then every quota row existed.  Each
      30th sample sends one vector, so a pause has sent one per 30 samples. */
  lemma {:induction false} StepsOutcome(kernel: (seq<real>, seq<real>) -> real, data: seq<seq<real>>, labels: seq<real>, last: nat,
                                        current: nat, processed: nat, iteration: nat, w: seq<real>, g: seq<real>,
                                        input: seq<Token>, sent: seq<seq<real>>)
    requires |labels| == |data| && |w| <= |data| && |g| == |w|
    requires current == last + processed && processed <= iteration
    ensures Ends(Steps(kernel, data, labels, last, current, processed, iteration, w, g, input, sent), last, processed, iteration, |sent|, |data|)
    decreases iteration - processed
  {
    if processed < iteration && current < |data| {
      var g' := NextGradient(kernel, data, labels, current, w, g);
      var w' := NextWeights(w, g');
      var p := processed + 1;
      if p % TrainBatchSize != 0 {
        StepsQuiet(kernel, data, labels, last, current, processed, iteration, w, g, input, sent, w', g');
        StepsOutcome(kernel, data, labels, last, current + 1, p, iteration, w', g', input, sent);
        EndsQuiet(Steps(kernel, data, labels, last, current + 1, p, iteration, w', g', input, sent),
                  last, processed, p, iteration, |sent|, |data|);
      } else {
        StepsExchange(kernel, data, labels, last, current, processed, iteration, w, g, input, sent, w', g');
        var r := ReadDbls(input, |w'|);
        if r.Got? {
          var sent' := sent + [w'];
          StepsOutcome(kernel, data, labels, last, current + 1, p, iteration, r.value, g', r.rest, sent');
          EndsExchange(Steps(kernel, data, labels, last, current + 1, p, iteration, r.value, g', r.rest, sent'),
                       last, processed, p, iteration, |sent|, |sent'|, |data|);
        }
      }
    }
  }

  /** What `StepsOutcome` states of a call `c` made from cursor `last`
      after `processed` of `iteration` samples, with `before` vectors sent
      so far and `rows` rows of data. */
  predicate Ends(c: Call, last: nat, processed: nat, iteration: nat, before: nat, rows: nat) {
    (c.status == Exhausted ==> c.cursor == last && rows < last + iteration)
    && (c.status == Paused ==>
          c.cursor == last + iteration && (processed == iteration || last + iteration <= rows)
          && |c.sent| == before + iteration / TrainBatchSize - processed / TrainBatchSize)
    && (c.status == Broken ==> c.cursor == last)
  }

  /** A sample that sends nothing keeps the claim. */
  lemma EndsQuiet(c: Call, last: nat, processed: nat, p: nat, iteration: nat, before: nat, rows: nat)
    requires processed < iteration && last + processed < rows && p == processed + 1 && p % TrainBatchSize != 0
    requires Ends(c, last, p, iteration, before, rows)
    ensures Ends(c, last, processed, iteration, before, rows)
  {
    MultipleStep(processed);
  }

  /** A sample that sends one vector keeps the claim. */
  lemma EndsExchange(c: Call, last: nat, processed: nat, p: nat, iteration: nat, before: nat, after: nat, rows: nat)
    requires processed < iteration && last + processed < rows && p == processed + 1 && p % TrainBatchSize == 0
    requires after == before + 1
    requires Ends(c, last, p, iteration, after, rows)
    ensures Ends(c, last, processed, iteration, before, rows)
  {
    MultipleStep(processed);
  }

  /** The tokens written for a list of weight vectors: per vector, the
      batch size 30, the vector size and the weights. */
  function Written(sent: seq<seq<real>>): seq<Token> {
    Averaging.Updates(BatchAndSize, TrainBatchSize, sent)
  }

  lemma {:induction false} WrittenSnoc(sent: seq<seq<real>>, v: seq<real>)
    ensures Written(sent + [v]) == Written(sent) + Frame(BatchAndSize, Request(TrainBatchSize, v))
  {
    if sent == [] {
      assert [] + [v] == [v];
      assert Written([v]) == Frame(BatchAndSize, Request(TrainBatchSize, v)) + Written([]);
    } else {
      assert (sent + [v])[1..] == sent[1..] + [v];
      WrittenSnoc(sent[1..], v);
    }
  }

  /** Lines 63-67: the frame of one exchange. */
  method SendFrame(weights: seq<real>) returns (frame: seq<Token>)
    ensures frame == Frame(BatchAndSize, Request(TrainBatchSize, weights))
  {
    var batchSize := TrainBatchSize;
    var vectorSize := |weights|;
    var writes := Wire.SendInBatches(weights, NetworkBatchSize);
    frame := [Int(batchSize), Int(vectorSize)] + Dbls(Concat(writes));
  }

  /** One sample of `Steps` that sends no frame. */
  lemma StepsQuiet(kernel: (seq<real>, seq<real>) -> real, data: seq<seq<real>>, labels: seq<real>, last: nat,
                   current: nat, processed: nat, iteration: nat, w: seq<real>, g: seq<real>, input: seq<Token>,
                   sent: seq<seq<real>>, w': seq<real>, g': seq<real>)
    requires |labels| == |data| && |w| <= |data| && |g| == |w|
    requires processed < iteration && current < |data|
    requires g' == NextGradient(kernel, data, labels, current, w, g)
    requires w' == NextWeights(w, g')
    requires (processed + 1) % TrainBatchSize != 0
    ensures Steps(kernel, data, labels, last, current, processed, iteration, w, g, input, sent)
            == Steps(kernel, data, labels, last, current + 1, processed + 1, iteration, w', g', input, sent)
  {
  }

  /** One sample of `Steps` that sends a frame and reads the reply. */
  lemma StepsExchange(kernel: (seq<real>, seq<real>) -> real, data: seq<seq<real>>, labels: seq<real>, last: nat,
                      current: nat, processed: nat, iteration: nat, w: seq<real>, g: seq<real>, input: seq<Token>,
                      sent: seq<seq<real>>, w': seq<real>, g': seq<real>)
    requires |labels| == |data| && |w| <= |data| && |g| == |w|
    requires processed < iteration && current < |data|
    requires g' == NextGradient(kernel, data, labels, current, w, g)
    requires w' == NextWeights(w, g')
    requires (processed + 1) % TrainBatchSize == 0
    ensures ReadDbls(input, |w'|).Failed? ==>
              Steps(kernel, data, labels, last, current, processed, iteration, w, g, input, sent)
              == Call(Broken, w', last, input, sent + [w'])
    ensures ReadDbls(input, |w'|).Got? ==>
              Steps(kernel, data, labels, last, current, processed, iteration, w, g, input, sent)
              == Steps(kernel, data, labels, last, current + 1, processed + 1, iteration,
                       ReadDbls(input, |w'|).value, g', ReadDbls(input, |w'|).rest, sent + [w'])
  {
  }

  /** The static `last_sample`. */
  class Trainer {
    var lastSample: nat

    constructor ()
      ensures lastSample == 0
    {
      lastSample := 0;
    }

    /** `train_incrementally`, proved against `TrainCall`: `output` is what
        the socket carried before the call, the frames of `sent`. */
    method TrainIncrementally(kernel: (seq<real>, seq<real>) -> real, data: seq<seq<real>>, labels: seq<real>,
                              weights: seq<real>, input: seq<Token>, output: seq<Token>, ghost sent: seq<seq<real>>)
      returns (status: Status, updated: seq<real>, rest: seq<Token>, output': seq<Token>)
      requires |labels| == |data| && |weights| <= |data| && output == Written(sent)
      modifies this
      ensures status == TrainCall(kernel, data, labels, old(lastSample), weights, input, sent).status
      ensures updated == TrainCall(kernel, data, labels, old(lastSample), weights, input, sent).weights
      ensures rest == TrainCall(kernel, data, labels, old(lastSample), weights, input, sent).rest
      ensures lastSample == TrainCall(kernel, data, labels, old(lastSample), weights, input, sent).cursor
      ensures output' == Written(TrainCall(kernel, data, labels, old(lastSample), weights, input, sent).sent)
    {
      var nSamples := |data|;
      var gradient := Zeros(|weights|);
      var currentSample := lastSample;
      var processedSamples := 0;
      var iteration := nSamples / TrainBatchSize;
      updated, rest, output' := weights, input, output;
      ghost var written := sent;
      ghost var goal := Steps(kernel, data, labels, lastSample, currentSample, processedSamples, iteration, updated, gradient, rest, written);
      while processedSamples < iteration
        invariant lastSample == old(lastSample)
        invariant processedSamples <= iteration && currentSample == lastSample + processedSamples
        invariant |updated| == |weights| && |gradient| == |weights|
        invariant output' == Written(written)
        invariant Steps(kernel, data, labels, lastSample, currentSample, processedSamples, iteration, updated, gradient, rest, written) == goal
      {
        if currentSample >= nSamples {
          return Exhausted, updated, rest, output';
        }
        var xi := data[currentSample];
        var yi := labels[currentSample];
        ghost var w0, g0, p0 := updated, gradient, processedSamples;
        updated, gradient := SampleUpdate(kernel, data, xi, yi, updated, gradient);
        currentSample := currentSample + 1;
        processedSamples := processedSamples + 1;
        if processedSamples % TrainBatchSize == 0 {
          StepsExchange(kernel, data, labels, lastSample, currentSample - 1, p0, iteration, w0, g0, rest, written, updated, gradient);
          var frame := SendFrame(updated);
          WrittenSnoc(written, updated);
          output' := output' + frame;
          written := written + [updated];
          var reply := ReadDbls(rest, |updated|);
          if reply.Failed? {
            return Broken, updated, rest, output';
          }
          updated, rest := reply.value, reply.rest;
        } else {
          StepsQuiet(kernel, data, labels, lastSample, currentSample - 1, p0, iteration, w0, g0, rest, written, updated, gradient);
        }
      }
      lastSample := currentSample;
      return Paused, updated, rest, output';
    }
  }

  /** `epochs` more calls of `main`'s loop from cursor `last`, stopping after
      a call that reports exhaustion or throws. */
  function Epochs(kernel: (seq<real>, seq<real>) -> real, data: seq<seq<real>>, labels: seq<real>, last: nat,
                  w: seq<real>, input: seq<Token>, sent: seq<seq<real>>, epochs: nat): (c: Call)
    requires |labels| == |data| && |w| <= |data|
    ensures |c.weights| == |w|
    decreases epochs
  {
    if epochs == 0 then Call(Paused, w, last, input, sent)
    else
      var c := TrainCall(kernel, data, labels, last, w, input, sent);
      if c.status != Paused then c
      else Epochs(kernel, data, labels, c.cursor, c.weights, c.rest, c.sent, epochs - 1)
  }

  /** While `epochs` more quotas of `n / 30` rows fit from `last`, no call
      reports exhaustion and a run without a failed read ends with the
      cursor moved by all of them, having sent one vector per 30 samples. */
  lemma {:induction false} EpochsAdvance(kernel: (seq<real>, seq<real>) -> real, data: seq<seq<real>>, labels: seq<real>, last: nat,
                                         w: seq<real>, input: seq<Token>, sent: seq<seq<real>>, epochs: nat, reach: nat)
    requires |labels| == |data| && |w| <= |data|
    requires reach == last + epochs * (|data| / TrainBatchSize) <= |data|
    ensures var e := Epochs(kernel, data, labels, last, w, input, sent, epochs);
            e.status != Exhausted
            && (e.status == Paused ==> e.cursor == reach && |e.sent| == |sent| + epochs * (|data| / TrainBatchSize / TrainBatchSize))
    decreases epochs
  {
    if epochs > 0 {
      var iteration := |data| / TrainBatchSize;
      var c := CallOutcome(kernel, data, labels, last, w, input, sent);
      EpochsStep(kernel, data, labels, last, w, input, sent, epochs);
      MultiplyStep(epochs, iteration);
      if c.status == Paused {
        assert c.cursor + (epochs - 1) * iteration == reach;
        EpochsAdvance(kernel, data, labels, c.cursor, c.weights, c.rest, c.sent, epochs - 1, reach);
        MultiplyStep(epochs, iteration / TrainBatchSize);
      }
    }
  }

  lemma MultiplyStep(e: nat, k: nat)
    requires e > 0
    ensures e * k == (e - 1) * k + k && (e - 1) * k >= 0
  {
  }

  /** One call of `main`'s loop, then the remaining ones. */
  lemma EpochsStep(kernel: (seq<real>, seq<real>) -> real, data: seq<seq<real>>, labels: seq<real>, last: nat,
                   w: seq<real>, input: seq<Token>, sent: seq<seq<real>>, epochs: nat)
    requires |labels| == |data| && |w| <= |data| && epochs > 0
    ensures var c := TrainCall(kernel, data, labels, last, w, input, sent);
            Epochs(kernel, data, labels, last, w, input, sent, epochs)
            == if c.status != Paused then c else Epochs(kernel, data, labels, c.cursor, c.weights, c.rest, c.sent, epochs - 1)
  {
  }

  /** `StepsOutcome` for a whole call: an exhausted call had fewer than
      `n / 30` rows left; a paused one moved the cursor by `n / 30` and sent
      one vector per 30 samples. */
  lemma CallOutcome(kernel: (seq<real>, seq<real>) -> real, data: seq<seq<real>>, labels: seq<real>, last: nat,
                    w: seq<real>, input: seq<Token>, sent: seq<seq<real>>)
    returns (c: Call)
    requires |labels| == |data| && |w| <= |data|
    ensures c == TrainCall(kernel, data, labels, last, w, input, sent)
    ensures c.status == Exhausted ==> c.cursor == last && |data| < last + |data| / TrainBatchSize
    ensures c.status == Paused ==>
              c.cursor == last + |data| / TrainBatchSize && |c.sent| == |sent| + |data| / TrainBatchSize / TrainBatchSize
    ensures c.status == Broken ==> c.cursor == last
  {
    c := TrainCall(kernel, data, labels, last, w, input, sent);
    StepsOutcome(kernel, data, labels, last, last, 0, |data| / TrainBatchSize, w, Zeros(|w|), input, sent);
  }

  /** `main` after loading: the early exit never fires.  Three calls from
      row 0 take three quotas of `n / 30` rows, so a run without a failed
      read trains on rows `0 .. 3 * (n / 30)` only and leaves the cursor
      there. */
  lemma MainNeverExhausts(kernel: (seq<real>, seq<real>) -> real, data: seq<seq<real>>, labels: seq<real>, w: seq<real>, input: seq<Token>)
    requires |labels| == |data| && |w| <= |data|
    ensures Epochs(kernel, data, labels, 0, w, input, [], MaxEpochs).status != Exhausted
    ensures Epochs(kernel, data, labels, 0, w, input, [], MaxEpochs).status == Paused ==>
              Epochs(kernel, data, labels, 0, w, input, [], MaxEpochs).cursor == MaxEpochs * (|data| / TrainBatchSize)
  {
    EpochsAdvance(kernel, data, labels, 0, w, input, [], MaxEpochs, MaxEpochs * (|data| / TrainBatchSize));
  }

  /** With fewer than 30 rows a call trains on nothing and sends nothing. */
  lemma TooFewRows(kernel: (seq<real>, seq<real>) -> real, data: seq<seq<real>>, labels: seq<real>, last: nat,
                   w: seq<real>, input: seq<Token>, sent: seq<seq<real>>)
    requires |labels| == |data| < TrainBatchSize && |w| <= |data|
    ensures TrainCall(kernel, data, labels, last, w, input, sent) == Call(Paused, w, last, input, sent)
  {
  }

  /** The temp server, reading everything a run wrote, aggregates each sent
      vector in order and replies after each: the frames decode to exactly
      the vectors the client sent. */
  lemma ServerReadsClient(kernel: (seq<real>, seq<real>) -> real, data: seq<seq<real>>, labels: seq<real>, w: seq<real>,
                          input: seq<Token>, s: Averaging.State, tail: seq<Token>)
    requires |labels| == |data| && 0 < |w| <= |data| && |w| <= TempServer.MaxVectorSize
    requires |s.total| == 0 || |s.total| == |w|
    ensures var sent := Epochs(kernel, data, labels, 0, w, input, [], MaxEpochs).sent;
            AllLength(sent, |w|)
            && Averaging.Run(BatchAndSize, TempServer.MaxVectorSize, s, Written(sent) + tail, [])
               == Averaging.Run(BatchAndSize, TempServer.MaxVectorSize, Averaging.AggregateAll(s, sent, |w|), tail,
                                Averaging.Replies(s, sent, |w|))
  {
    var sent := Epochs(kernel, data, labels, 0, w, input, [], MaxEpochs).sent;
    EpochsSentLength(kernel, data, labels, 0, w, input, [], MaxEpochs);
    Averaging.SessionOfUpdates(BatchAndSize, TempServer.MaxVectorSize, TrainBatchSize, s, sent, |w|, tail, []);
    assert [] + Averaging.Replies(s, sent, |w|) == Averaging.Replies(s, sent, |w|);
  }

  /** Every vector a run sends has one entry per weight. */
  lemma {:induction false} EpochsSentLength(kernel: (seq<real>, seq<real>) -> real, data: seq<seq<real>>, labels: seq<real>, last: nat,
                                            w: seq<real>, input: seq<Token>, sent: seq<seq<real>>, epochs: nat)
    requires |labels| == |data| && |w| <= |data| && AllLength(sent, |w|)
    ensures AllLength(Epochs(kernel, data, labels, last, w, input, sent, epochs).sent, |w|)
    decreases epochs
  {
    if epochs > 0 {
      var c := TrainCall(kernel, data, labels, last, w, input, sent);
      if c.status == Paused {
        EpochsSentLength(kernel, data, labels, c.cursor, c.weights, c.rest, c.sent, epochs - 1);
      }
    }
  }

  /** `main` after loading: at most three calls, leaving the loop after a
      call that returns `true`, and leaving `main` when a read throws. */
  method RunClient(kernel: (seq<real>, seq<real>) -> real, data: seq<seq<real>>, labels: seq<real>, weights: seq<real>,
                   input: seq<Token>)
    returns (output: seq<Token>)
    requires |labels| == |data| && |weights| <= |data|
    ensures output == Written(Epochs(kernel, data, labels, 0, weights, input, [], MaxEpochs).sent)
  {
    var trainer := new Trainer();
    var localWeights, rest := weights, input;
    output := [];
    ghost var sent: seq<seq<real>> := [];
    ghost var left := MaxEpochs;
    ghost var goal := Epochs(kernel, data, labels, trainer.lastSample, localWeights, rest, sent, left);
    for epoch := 0 to MaxEpochs
      invariant |localWeights| == |weights| && left == MaxEpochs - epoch && output == Written(sent)
      invariant Epochs(kernel, data, labels, trainer.lastSample, localWeights, rest, sent, left) == goal
    {
      ghost var c := TrainCall(kernel, data, labels, trainer.lastSample, localWeights, rest, sent);
      var status;
      status, localWeights, rest, output := trainer.TrainIncrementally(kernel, data, labels, localWeights, rest, output, sent);
      sent := c.sent;
      if status != Paused {
        assert goal == c;
        return;
      }
      left := left - 1;
    }
  }
}
