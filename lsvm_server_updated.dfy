/** LSVM/server_updated.cpp: the averaging server whose header is the
    vector size alone, capped at 10^7, with payload reads of at most 100. */
module LsvmServerUpdated {
  import opened Wire
  import opened Vec
  import opened Frames
  import opened Averaging

  /** `BATCH_SIZE`: the longest read of the payload loop. */
  const BatchSize := 100
  /** The largest accepted `vector_size` (`1e7`). */
  const MaxVectorSize := 10_000_000

  /** The server's globals. */
  class Server {
    var globalWeights: seq<real>
    var totalWeights: seq<real>
    var clientCount: nat

    function Current(): State
      reads this
    {
      State(globalWeights, totalWeights, clientCount)
    }

    ghost predicate Valid()
      reads this
    {
      Consistent(Current())
    }

    constructor ()
      ensures Current() == Initial && Valid()
    {
      globalWeights, totalWeights, clientCount := [], [], 0;
    }

    /** `aggregate_model`: add the update to the total, count one more
        client, and set the global model to the running mean. */
    method AggregateModel(localUpdate: seq<real>)
      requires Valid() && Fits(Current(), localUpdate)
      modifies this
      ensures Valid()
      ensures Current() == Aggregate(old(Current()), localUpdate)
      ensures clientCount == old(clientCount) + 1
    {
      if |totalWeights| == 0 {
        totalWeights := Zeros(|localUpdate|);
      }
      totalWeights := Add(totalWeights, localUpdate);
      clientCount := clientCount + 1;
      globalWeights := Div(totalWeights, clientCount as real);
    }

    /** `handle_client`: rounds of size, payload, aggregate, reply until the
        stream ends, the size is refused or the payload breaks off. */
    method HandleClient(input: seq<Token>) returns (output: seq<Token>, end: End)
      requires Valid()
      modifies this
      ensures Valid()
      ensures (Current(), output, end) == Run(SizeOnly, MaxVectorSize, old(Current()), input, [])
    {
      output := [];
      var rest := input;
      while true
        invariant Valid()
        invariant Run(SizeOnly, MaxVectorSize, Current(), rest, output) == Run(SizeOnly, MaxVectorSize, old(Current()), input, [])
        decreases |rest|
      {
        var p := ReceiveRequest(rest, SizeOnly, MaxVectorSize, BatchSize);
        if p.Rejected? {
          end := p.end;
          return;
        }
        var localUpdate := p.request.update;
        if |totalWeights| != 0 && |localUpdate| != |totalWeights| {
          end := DimensionMismatch;
          return;
        }
        AggregateModel(localUpdate);
        output := output + Dbls(globalWeights);
        rest := p.rest;
      }
    }
  }
}
