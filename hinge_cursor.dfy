/** The incremental hinge-loss trainer shared, line for line, by
    RF/client.cpp and LSVM/client_updated.cpp.  A static cursor remembers
    where the previous call stopped; each call trains on the next 100 rows
    and sends the weights, or runs out of rows and reports that the data
    is exhausted.  The two `main`s differ only in what they send around
    the calls. */
module HingeCursor {
  import opened Wire
  import opened Vec

  /** `TRAIN_BATCH_SIZE`. */
  const TrainBatchSize := 100
  /** `NETWORK_BATCH_SIZE`. */
  const NetworkBatchSize := 100
  /** The step size of the per-sample update. */
  const StepSize := 0.01
  /** `MAX_EPOCHS` of RF/client.cpp. */
  const RfMaxEpochs := 3
  /** `MAX_EPOCHS` of LSVM/client_updated.cpp. */
  const LsvmMaxEpochs := 50

  /** The gradient after one sample: it gains `-y * x` when the margin
      `y * (x . w)` is below 1, and is unchanged otherwise. */
  function HingeGradient(x: seq<real>, y: real, w: seq<real>, g: seq<real>): (r: seq<real>)
    requires |x| == |w| == |g|
    ensures |r| == |g|
    ensures y * Dot(x, w) >= 1.0 ==> r == g
    ensures y * Dot(x, w) < 1.0 ==> forall k :: 0 <= k < |g| ==> r[k] == g[k] + -y * x[k]
  {
    if y * Dot(x, w) < 1.0 then Add(g, Scale(-y, x)) else g
  }

  /** Weights and accumulated gradient in the middle of a call. */
  datatype Progress = Progress(weights: seq<real>, gradient: seq<real>)

  /** Training on rows `lo` up to `hi`: per row, update the gradient,
      then step the weights by the whole accumulated gradient (it is
      never reset within a call). */
  function Pass(data: seq<seq<real>>, labels: seq<real>, lo: nat, hi: nat, w: seq<real>, g: seq<real>): (p: Progress)
    requires lo <= hi <= |data| && |labels| == |data| && AllLength(data, |w|) && |g| == |w|
    ensures |p.weights| == |w| && |p.gradient| == |w|
    decreases hi - lo
  {
    if lo == hi then Progress(w, g)
    else
      var g' := HingeGradient(data[lo], labels[lo], w, g);
      Pass(data, labels, lo + 1, hi, Sub(w, Scale(StepSize, g')), g')
  }

  /** Training from row `lo` on, with weights `w` and gradient `g`,
      still ends in `target`. */
  ghost predicate OnTrack(data: seq<seq<real>>, labels: seq<real>, lo: nat, hi: nat, w: seq<real>, g: seq<real>, target: Progress)
  {
    lo <= hi <= |data| && |labels| == |data| && AllLength(data, |w|) && |g| == |w|
    && Pass(data, labels, lo, hi, w, g) == target
  }

  /** One row of `Pass`: the hinge update keeps the pass on track. */
  lemma PassStep(data: seq<seq<real>>, labels: seq<real>, lo: nat, hi: nat, w: seq<real>, g: seq<real>,
                 w': seq<real>, g': seq<real>, target: Progress)
    requires OnTrack(data, labels, lo, hi, w, g, target) && lo < hi
    requires g' == HingeGradient(data[lo], labels[lo], w, g) && w' == Sub(w, Scale(StepSize, g'))
    ensures OnTrack(data, labels, lo + 1, hi, w', g', target)
  {
  }

  /** A pass that reached its end holds the target's weights. */
  lemma PassDone(data: seq<seq<real>>, labels: seq<real>, hi: nat, w: seq<real>, g: seq<real>, target: Progress)
    requires OnTrack(data, labels, hi, hi, w, g, target)
    ensures w == target.weights
  {
  }

  /** Where a call starting at `last` stops: after a full batch, or at the
      end of the data. */
  function Stop(last: nat, n: nat): nat {
    if last + TrainBatchSize <= n then last + TrainBatchSize else n
  }

  /** What a call starting at `last` does to the weights: nothing when no
      row is left, otherwise a pass over the rows up to `Stop`. */
  function Processed(data: seq<seq<real>>, labels: seq<real>, last: nat, w: seq<real>): (p: Progress)
    requires |labels| == |data| && AllLength(data, |w|)
    ensures |p.weights| == |w|
  {
    if last >= |data| then Progress(w, Zeros(|w|))
    else Pass(data, labels, last, Stop(last, |data|), w, Zeros(|w|))
  }

  /** Lines 49-53 for one sample: the hinge update of the gradient, then
      the step of the weights by the accumulated gradient. */
  method HingeUpdate(xi: seq<real>, yi: real, weights: seq<real>, gradient: seq<real>) returns (weights': seq<real>, gradient': seq<real>)
    requires |xi| == |weights| == |gradient|
    ensures gradient' == HingeGradient(xi, yi, weights, gradient)
    ensures weights' == Sub(weights, Scale(StepSize, gradient'))
  {
    gradient' := gradient;
    if yi * Dot(xi, weights) < 1.0 {
      gradient' := Add(gradient, Scale(-yi, xi));
    }
    weights' := Sub(weights, Scale(StepSize, gradient'));
  }

  /** What one call of `train_incrementally` does, from cursor `last`. */
  datatype Call = Call(finished: bool, weights: seq<real>, writes: seq<seq<real>>, cursor: nat)

  /** A call starting at `last`: with a full batch left it trains on it,
      sends the new weights once (in chunks of 100) and moves the cursor
      past it; otherwise it trains on the remaining rows, sends nothing,
      leaves the cursor where it was and reports the data exhausted. */
  function TrainCall(data: seq<seq<real>>, labels: seq<real>, last: nat, w: seq<real>): (c: Call)
    requires |labels| == |data| && AllLength(data, |w|)
    ensures |c.weights| == |w|
  {
    var p := Processed(data, labels, last, w).weights;
    if last + TrainBatchSize > |data| then Call(true, p, [], last)
    else Call(false, p, Chunks(p, NetworkBatchSize), last + TrainBatchSize)
  }

  /** A call reports exhaustion exactly when fewer than 100 rows remain;
      otherwise it sends the new weights whole, in chunks of at most 100,
      and the cursor moves by exactly one batch. */
  lemma TrainCallShape(data: seq<seq<real>>, labels: seq<real>, last: nat, w: seq<real>)
    requires |labels| == |data| && AllLength(data, |w|)
    ensures TrainCall(data, labels, last, w).finished <==> last + TrainBatchSize > |data|
    ensures TrainCall(data, labels, last, w).finished ==>
              TrainCall(data, labels, last, w).writes == [] && TrainCall(data, labels, last, w).cursor == last
    ensures !TrainCall(data, labels, last, w).finished ==>
              Concat(TrainCall(data, labels, last, w).writes) == TrainCall(data, labels, last, w).weights
              && TrainCall(data, labels, last, w).cursor == last + TrainBatchSize
              && (forall i :: 0 <= i < |TrainCall(data, labels, last, w).writes| ==>
                    0 < |TrainCall(data, labels, last, w).writes[i]| <= NetworkBatchSize)
  {
    var c := TrainCall(data, labels, last, w);
    if !c.finished {
      ChunksShape(c.weights, NetworkBatchSize);
    }
  }

  /** Within one call the count of processed rows is a multiple of the
      batch size only once the batch is complete. */
  lemma WholeBatch(processed: int)
    requires 0 < processed <= TrainBatchSize
    ensures processed % TrainBatchSize == 0 <==> processed == TrainBatchSize
  {
  }

  /** The static `last_sample`. */
  class Trainer {
    var lastSample: nat

    constructor ()
      ensures lastSample == 0
    {
      lastSample := 0;
    }

    /** `train_incrementally`, proved against `TrainCall`. */
    method TrainIncrementally(data: seq<seq<real>>, labels: seq<real>, weights: seq<real>)
      returns (finished: bool, updated: seq<real>, writes: seq<seq<real>>)
      requires |labels| == |data| && AllLength(data, |weights|)
      modifies this
      ensures Call(finished, updated, writes, lastSample) == TrainCall(data, labels, old(lastSample), weights)
    {
      var nSamples := |data|;
      var gradient := Zeros(|weights|);
      var processedSamples := 0;
      var currentSample := lastSample;
      updated, writes := weights, [];
      ghost var stop := Stop(lastSample, nSamples);
      ghost var target := Processed(data, labels, lastSample, weights);
      while processedSamples < TrainBatchSize
        invariant lastSample == old(lastSample)
        invariant 0 <= processedSamples <= TrainBatchSize && currentSample == lastSample + processedSamples
        invariant |updated| == |weights| && |gradient| == |weights|
        invariant processedSamples < TrainBatchSize ==> writes == []
        invariant processedSamples == TrainBatchSize ==> writes == Chunks(updated, NetworkBatchSize)
        invariant lastSample >= nSamples ==> processedSamples == 0 && updated == weights
        invariant lastSample < nSamples ==> OnTrack(data, labels, currentSample, stop, updated, gradient, target)
      {
        if currentSample >= nSamples {
          if lastSample < nSamples {
            PassDone(data, labels, currentSample, updated, gradient, target);
          }
          return true, updated, [];
        }
        var xi := data[currentSample];
        var yi := labels[currentSample];
        ghost var w0, g0 := updated, gradient;
        updated, gradient := HingeUpdate(xi, yi, updated, gradient);
        PassStep(data, labels, currentSample, stop, w0, g0, updated, gradient, target);
        currentSample := currentSample + 1;
        processedSamples := processedSamples + 1;
        WholeBatch(processedSamples);
        if processedSamples % TrainBatchSize == 0 {
          writes := SendInBatches(updated, NetworkBatchSize);
        }
      }
      PassDone(data, labels, currentSample, updated, gradient, target);
      lastSample := currentSample;
      finished := false;
    }
  }

  /** The writes of one call, as tokens. */
  function Written(writes: seq<seq<real>>): seq<Token> {
    Dbls(Concat(writes))
  }

  /** The output after one epoch: the size header when `header` is set,
      then the call's writes. */
  function Sent(out: seq<Token>, header: bool, w: seq<real>, c: Call): seq<Token> {
    if header then out + [Int(|w|)] + Written(c.writes) else out + Written(c.writes)
  }

  /** `epochs` more epochs from cursor `last`: each calls the trainer once,
      preceded by the size header when `header` is set; a call that finds
      the data exhausted ends the loop. */
  function Epochs(data: seq<seq<real>>, labels: seq<real>, last: nat, w: seq<real>, epochs: int, header: bool, out: seq<Token>)
    : (r: (seq<Token>, seq<real>, nat))
    requires |labels| == |data| && AllLength(data, |w|)
    ensures |r.1| == |w| && last <= r.2
    decreases epochs
  {
    if epochs <= 0 then (out, w, last)
    else
      var c := TrainCall(data, labels, last, w);
      var sent := Sent(out, header, w, c);
      if c.finished then (sent, c.weights, last)
      else Epochs(data, labels, c.cursor, c.weights, epochs - 1, header, sent)
  }

  /** One epoch of `Epochs`, given the trainer call's outcome `c`. */
  lemma EpochsStep(data: seq<seq<real>>, labels: seq<real>, last: nat, w: seq<real>, epochs: int, header: bool,
                   out: seq<Token>, c: Call)
    requires |labels| == |data| && AllLength(data, |w|) && epochs > 0
    requires c == TrainCall(data, labels, last, w)
    ensures c.finished ==>
              Epochs(data, labels, last, w, epochs, header, out) == (Sent(out, header, w, c), c.weights, last)
    ensures !c.finished ==>
              Epochs(data, labels, last, w, epochs, header, out)
              == Epochs(data, labels, c.cursor, c.weights, epochs - 1, header, Sent(out, header, w, c))
  {
  }

  /** The number of whole batches of 100 rows from cursor `last` of `n`. */
  function BatchesLeft(n: nat, last: nat): (k: nat)
    ensures last + TrainBatchSize * k <= n || (k == 0 && n < last)
    decreases n - last
  {
    if last + TrainBatchSize > n then 0 else 1 + BatchesLeft(n, last + TrainBatchSize)
  }

  /** `BatchesLeft` is the integer quotient of the rows left by 100. */
  lemma {:induction false} BatchesLeftQuotient(n: nat, last: nat)
    requires last <= n
    ensures BatchesLeft(n, last) == (n - last) / TrainBatchSize
    decreases n - last
  {
    if last + TrainBatchSize <= n {
      BatchesLeftQuotient(n, last + TrainBatchSize);
    }
  }

  /** The cursor moves by a whole batch per epoch for as long as a whole
      batch remains: consecutive, disjoint blocks of 100 rows. */
  lemma {:induction false} EpochsCursor(data: seq<seq<real>>, labels: seq<real>, last: nat, w: seq<real>, epochs: nat, header: bool, out: seq<Token>)
    requires |labels| == |data| && AllLength(data, |w|)
    ensures Epochs(data, labels, last, w, epochs, header, out).2
            == last + TrainBatchSize * Min(epochs, BatchesLeft(|data|, last))
    decreases epochs
  {
    if epochs > 0 {
      var c := TrainCall(data, labels, last, w);
      EpochsStep(data, labels, last, w, epochs, header, out, c);
      if !c.finished {
        EpochsCursor(data, labels, c.cursor, c.weights, epochs - 1, header, Sent(out, header, w, c));
      }
    }
  }

  /** RF/client.cpp `main` after loading: the size and the initial weights
      once, then at most three calls, stopping at the first that finds the
      data exhausted. */
  method RunRfClient(data: seq<seq<real>>, labels: seq<real>, weights: seq<real>) returns (out: seq<Token>, finalWeights: seq<real>)
    requires |labels| == |data| && AllLength(data, |weights|)
    ensures (out, finalWeights)
            == (Epochs(data, labels, 0, weights, RfMaxEpochs, false, [Int(|weights|)] + Dbls(weights)).0,
                Epochs(data, labels, 0, weights, RfMaxEpochs, false, [Int(|weights|)] + Dbls(weights)).1)
  {
    var trainer := new Trainer();
    var vectorSize := |weights|;
    out := [Int(vectorSize)] + Dbls(weights);
    finalWeights := weights;
    ghost var left := RfMaxEpochs;
    ghost var goal := Epochs(data, labels, trainer.lastSample, finalWeights, left, false, out);
    for epoch := 0 to RfMaxEpochs
      invariant |finalWeights| == |weights| && left == RfMaxEpochs - epoch
      invariant Epochs(data, labels, trainer.lastSample, finalWeights, left, false, out) == goal
    {
      ghost var last, before := trainer.lastSample, out;
      var finished, updated, writes := trainer.TrainIncrementally(data, labels, finalWeights);
      EpochsStep(data, labels, last, finalWeights, left, false, before, Call(finished, updated, writes, trainer.lastSample));
      out := out + Written(writes);
      finalWeights := updated;
      if finished {
        return;
      }
      left := left - 1;
    }
  }

  /** LSVM/client_updated.cpp `main` after loading: at most fifty epochs,
      each sending the size before its call, stopping at the first call
      that finds the data exhausted. */
  method RunLsvmClient(data: seq<seq<real>>, labels: seq<real>, weights: seq<real>) returns (out: seq<Token>, finalWeights: seq<real>)
    requires |labels| == |data| && AllLength(data, |weights|)
    ensures (out, finalWeights)
            == (Epochs(data, labels, 0, weights, LsvmMaxEpochs, true, []).0,
                Epochs(data, labels, 0, weights, LsvmMaxEpochs, true, []).1)
  {
    var trainer := new Trainer();
    out := [];
    finalWeights := weights;
    ghost var left := LsvmMaxEpochs;
    ghost var goal := Epochs(data, labels, trainer.lastSample, finalWeights, left, true, out);
    for epoch := 0 to LsvmMaxEpochs
      invariant |finalWeights| == |weights| && left == LsvmMaxEpochs - epoch
      invariant Epochs(data, labels, trainer.lastSample, finalWeights, left, true, out) == goal
    {
      ghost var last, before := trainer.lastSample, out;
      var vectorSize := |finalWeights|;
      out := out + [Int(vectorSize)];
      var finished, updated, writes := trainer.TrainIncrementally(data, labels, finalWeights);
      EpochsStep(data, labels, last, finalWeights, left, true, before, Call(finished, updated, writes, trainer.lastSample));
      out := out + Written(writes);
      finalWeights := updated;
      if finished {
        return;
      }
      left := left - 1;
    }
  }
}
