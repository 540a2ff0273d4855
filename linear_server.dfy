/** Linear_Regression/server.cpp: the gradient server that starts from
    zero weights while it has no clients and steps by a fixed learning
    rate times the accumulated gradient. */
module LinearServer {
  import opened Wire
  import opened Vec
  import opened Frames
  import opened GradientStep

  /** `BATCH_SIZE`: the longest read of the payload loop. */
  const BatchSize := 100
  /** `LEARNING_RATE`. */
  const LearningRateValue := 0.005

  /** Initialise while `client_count == 0`; scale by the learning rate. */
  const Policy := Rule(WhenNoClients, LearningRate(LearningRateValue))

  /** The server's globals. */
  class Server {
    var globalWeights: seq<real>
    var totalGradients: seq<real>
    var clientCount: nat
    var clientDataSizes: seq<int>

    function Current(): State
      reads this
    {
      State(globalWeights, totalGradients, clientCount, clientDataSizes)
    }

    ghost predicate Valid()
      reads this
    {
      Consistent(Policy, Current())
    }

    constructor ()
      ensures Current() == Initial && Valid()
    {
      globalWeights, totalGradients, clientCount, clientDataSizes := [], [], 0, [];
    }

    /** `apply_gradient_update`: reset to zeros on the first client, accumulate
        `batch_gradient * batch_size`, record the size (the sum of the sizes
        is computed but unused), and subtract the learning rate times the
        accumulated gradient. */
    method ApplyGradientUpdate(batchGradient: seq<real>, batchSize: int)
      requires Valid() && Fits(Policy, Current(), batchGradient) && Defined(Policy, Current(), batchSize)
      modifies this
      ensures Valid()
      ensures Current() == Apply(Policy, old(Current()), batchGradient, batchSize)
      ensures clientDataSizes == old(clientDataSizes) + [batchSize]
    {
      ghost var before := Current();
      ApplyConsistent(Policy, before, batchGradient, batchSize);
      var weights, totals := globalWeights, totalGradients;
      if clientCount == 0 {
        totals := Zeros(|batchGradient|);
        weights := Zeros(|batchGradient|);
      }
      totals := Add(totals, Scale(batchSize as real, batchGradient));
      var sizes := clientDataSizes + [batchSize];
      var totalDataPoints := SumInts(sizes);
      assert Policy.scaling == LearningRate(LearningRateValue);
      weights := Sub(weights, Scale(LearningRateValue, totals));
      globalWeights, totalGradients, clientCount, clientDataSizes := weights, Zeros(|totals|), clientCount + 1, sizes;
    }

    /** `handle_client`: rounds of header, gradient, step and reply until the
        stream ends, the size is refused or the payload breaks off. */
    method HandleClient(input: seq<Token>) returns (output: seq<Token>, end: End)
      requires Valid()
      modifies this
      ensures Valid()
      ensures (Current(), output, end) == Run(Policy, old(Current()), input, [])
    {
      output := [];
      var rest := input;
      while true
        invariant Valid()
        invariant Run(Policy, Current(), rest, output) == Run(Policy, old(Current()), input, [])
        decreases |rest|
      {
        var p := ReceiveRequest(rest, BatchAndSize, MaxVectorSize, BatchSize);
        if p.Rejected? {
          end := p.end;
          return;
        }
        var batchSize, batchGradient := p.request.batchSize, p.request.update;
        if !Fits(Policy, Current(), batchGradient) {
          end := DimensionMismatch;
          return;
        }
        if !Defined(Policy, Current(), batchSize) {
          end := ZeroTotal;
          return;
        }
        ApplyGradientUpdate(batchGradient, batchSize);
        output := output + Dbls(globalWeights);
        rest := p.rest;
      }
    }
  }
}
