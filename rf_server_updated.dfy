/** RF/server_updated.cpp: every connection carries one forest, which is
    handed to `aggregate_forests`; the server then answers with all trees
    of all aggregated forests as one forest frame.  `aggregate_forests` is
    only declared in the source, so it is a parameter here. */
module RfServerUpdated {
  import opened Wire
  import opened ForestFrames

  /** Tree `j` of forest `i` sits in the flattened list right after the
      trees of the earlier forests: forest by forest, tree by tree. */
  lemma FlattenOrder(forests: seq<seq<Tree>>, i: nat, j: nat)
    requires i < |forests| && j < |forests[i]|
    ensures |Concat(forests[..i])| + j < |Concat(forests)|
    ensures Concat(forests)[|Concat(forests[..i])| + j] == forests[i][j]
  {
    assert forests == forests[..i] + ([forests[i]] + forests[i + 1..]);
    ConcatAppend(forests[..i], [forests[i]] + forests[i + 1..]);
    assert Concat([forests[i]] + forests[i + 1..]) == forests[i] + Concat(forests[i + 1..]);
  }

  /** The flattening loops of `send_global_forest`: every tree of every
      forest, in order. */
  method FlattenForests(forests: seq<seq<Tree>>) returns (serializedForest: seq<Tree>)
    ensures serializedForest == Concat(forests)
  {
    serializedForest := [];
    for i := 0 to |forests|
      invariant serializedForest == Concat(forests[..i])
    {
      var forest := forests[i];
      for j := 0 to |forest|
        invariant serializedForest == Concat(forests[..i]) + forest[..j]
      {
        var serializedTree := forest[j];
        assert forest[..j + 1] == forest[..j] + [serializedTree];
        serializedForest := serializedForest + [serializedTree];
      }
      assert forest[..|forest|] == forest;
      ConcatSnoc(forests[..i], forest);
      assert forests[..i + 1] == forests[..i] + [forest];
    }
    assert forests[..|forests|] == forests;
  }

  class Server {
    /** `aggregated_forests`. */
    var aggregatedForests: seq<seq<Tree>>

    constructor ()
      ensures aggregatedForests == []
    {
      aggregatedForests := [];
    }

    /** `send_global_forest`: the flattened trees of every forest as one
        forest frame. */
    method SendGlobalForest() returns (out: seq<Token>)
      ensures out == ForestFrame(Concat(aggregatedForests))
    {
      var serializedForest := FlattenForests(aggregatedForests);
      out := SendForest(serializedForest);
    }

    /** `handle_client`: one request, then one reply.  A failed or refused
        read ends the connection with nothing aggregated and nothing sent. */
    method HandleClient(input: seq<Token>, aggregate: (seq<seq<Tree>>, seq<Tree>) -> seq<seq<Tree>>)
      returns (out: seq<Token>)
      modifies this
      ensures ReadForest(input).Failed? ==> aggregatedForests == old(aggregatedForests) && out == []
      ensures ReadForest(input).Got? ==>
                aggregatedForests == aggregate(old(aggregatedForests), ReadForest(input).value)
                && out == ForestFrame(Concat(aggregatedForests))
    {
      var r := ReceiveForest(input);
      if r.Failed? {
        return [];
      }
      var localForest := r.value;
      aggregatedForests := aggregate(aggregatedForests, localForest);
      out := SendGlobalForest();
    }
  }
}
