/** LSVM/server.cpp: the gradient server that starts from zero weights
    while the weights are empty and steps by the accumulated gradient
    divided by the sum of every batch size received so far. */
module LsvmServer {
  import opened Wire
  import opened Vec
  import opened Frames
  import opened GradientStep

  /** `BATCH_SIZE`: the longest read of the payload loop. */
  const BatchSize := 100

  /** Initialise while the weights are empty; normalise by the batch sizes. */
  const Policy := Rule(WhenWeightsEmpty, Normalised)

  /** The server's globals. */
  class Server {
    var globalWeights: seq<real>
    var totalGradients: seq<real>
    var clientCount: nat
    var clientDataSizes: seq<int>

    function Current(): State
      reads this
    {
      State(globalWeights, totalGradients, clientCount, clientDataSizes)
    }

    ghost predicate Valid()
      reads this
    {
      Consistent(Policy, Current())
    }

    constructor ()
      ensures Current() == Initial && Valid()
    {
      globalWeights, totalGradients, clientCount, clientDataSizes := [], [], 0, [];
    }

    /** `apply_gradient_update`: zeros while the weights are empty, accumulate
        `batch_gradient * batch_size`, record the size, and subtract the
        accumulated gradient divided by the sum of all recorded sizes. */
    method ApplyGradientUpdate(batchGradient: seq<real>, batchSize: int)
      requires Valid() && Fits(Policy, Current(), batchGradient) && Defined(Policy, Current(), batchSize)
      modifies this
      ensures Valid()
      ensures Current() == Apply(Policy, old(Current()), batchGradient, batchSize)
      ensures clientDataSizes == old(clientDataSizes) + [batchSize]
    {
      ghost var before := Current();
      ApplyConsistent(Policy, before, batchGradient, batchSize);
      var weights, totals := globalWeights, totalGradients;
      if |weights| == 0 {
        weights := Zeros(|batchGradient|);
        totals := Zeros(|batchGradient|);
      }
      totals := Add(totals, Scale(batchSize as real, batchGradient));
      var sizes := clientDataSizes + [batchSize];
      var totalDataPoints := SumInts(sizes);
      weights := Sub(weights, Div(totals, totalDataPoints as real));
      globalWeights, totalGradients, clientCount, clientDataSizes := weights, Zeros(|totals|), clientCount + 1, sizes;
    }

    /** `handle_client`: rounds of header, gradient, step and reply until the
        stream ends, the size is refused or the payload breaks off. */
    method HandleClient(input: seq<Token>) returns (output: seq<Token>, end: End)
      requires Valid()
      modifies this
      ensures Valid()
      ensures (Current(), output, end) == Run(Policy, old(Current()), input, [])
    {
      output := [];
      var rest := input;
      while true
        invariant Valid()
        invariant Run(Policy, Current(), rest, output) == Run(Policy, old(Current()), input, [])
        decreases |rest|
      {
        var p := ReceiveRequest(rest, BatchAndSize, MaxVectorSize, BatchSize);
        if p.Rejected? {
          end := p.end;
          return;
        }
        var batchSize, batchGradient := p.request.batchSize, p.request.update;
        if !Fits(Policy, Current(), batchGradient) {
          end := DimensionMismatch;
          return;
        }
        if !Defined(Policy, Current(), batchSize) {
          end := ZeroTotal;
          return;
        }
        ApplyGradientUpdate(batchGradient, batchSize);
        output := output + Dbls(globalWeights);
        rest := p.rest;
      }
    }
  }
}
