/** RF/server.cpp: every connection carries one forest, which the server
    appends to its list of forests; nothing is written back. */
module RfServer {
  import opened Wire
  import opened ForestFrames

  class Server {
    /** `aggregated_forests`: one entry per connection that delivered a whole forest. */
    var aggregatedForests: seq<seq<Tree>>

    constructor ()
      ensures aggregatedForests == []
    {
      aggregatedForests := [];
    }

    /** `handle_client`: decode one forest and append it; a read that
        fails, or a negative count, ends the connection with the list
        untouched. */
    method HandleClient(input: seq<Token>) returns (received: bool)
      modifies this
      ensures received <==> ReadForest(input).Got?
      ensures received ==> aggregatedForests == old(aggregatedForests) + [ReadForest(input).value]
      ensures !received ==> aggregatedForests == old(aggregatedForests)
    {
      var r := ReceiveForest(input);
      if r.Failed? {
        return false;
      }
      var localForest := r.value;
      aggregatedForests := aggregatedForests + [localForest];
      received := true;
    }
  }
}
