/** RF/client_updated.cpp: after sending its forest the client reads the
    global forest and appends its trees to its own.  `RandomForest` is not
    part of this model beyond its list of trees; training and
    `send_forest_to_server` are only declared in the source. */
module RfClientUpdated {
  import opened Wire
  import opened ForestFrames

  /** The `trees` list of a `RandomForest`. */
  class RandomForest {
    var trees: seq<Tree>

    constructor (trees: seq<Tree>)
      ensures this.trees == trees
    {
      this.trees := trees;
    }
  }

  /** `receive_global_forest`: decode a forest frame into `globalForest`,
      which then holds exactly as many trees as the frame announced. */
  method ReceiveGlobalForest(s: seq<Token>, globalForest: RandomForest) returns (r: Read<seq<Tree>>)
    modifies globalForest
    ensures r == ReadForest(s)
    ensures r.Got? ==> globalForest.trees == r.value && s[0] == Int(|globalForest.trees|)
  {
    r := ReceiveForest(s);
    if r.Got? {
      globalForest.trees := r.value;
    }
  }

  /** `integrate_global_model`: the local trees followed by the global ones;
      the global forest is left as it was. */
  method IntegrateGlobalModel(globalForest: RandomForest, localForest: RandomForest)
    requires globalForest != localForest
    modifies localForest
    ensures localForest.trees == old(localForest.trees) + globalForest.trees
    ensures globalForest.trees == old(globalForest.trees)
  {
    localForest.trees := localForest.trees + globalForest.trees;
  }

  /** `main` after sending: read the global forest into a fresh empty
      forest and append it to the local one.  A failed read throws, which
      ends `main` with the local forest unchanged. */
  method ReceiveAndIntegrate(reply: seq<Token>, localForest: RandomForest) returns (ok: bool)
    modifies localForest
    ensures ok <==> ReadForest(reply).Got?
    ensures ok ==> localForest.trees == old(localForest.trees) + ReadForest(reply).value
    ensures !ok ==> localForest.trees == old(localForest.trees)
  {
    var globalForest := new RandomForest([]);
    var r := ReceiveGlobalForest(reply, globalForest);
    if r.Failed? {
      return false;
    }
    IntegrateGlobalModel(globalForest, localForest);
    ok := true;
  }
}
