/** The random-forest frame of RF/server.cpp, RF/server_updated.cpp and
    RF/client_updated.cpp: a tree count, then every tree as its value
    count followed by its values.  The tree codec (`serialize_tree_node`,
    `deserialize_tree_node`) is only declared in the sources, so a tree is
    represented here by the values it is serialised as. */
module ForestFrames {
  import opened Wire

  /** A tree, as its serialised values. */
  type Tree = seq<real>

  /** One tree on the wire: its size, then its values. */
  function TreeFrame(t: Tree): seq<Token> {
    [Int(|t|)] + Dbls(t)
  }

  /** The trees one after another. */
  function TreesFrame(ts: seq<Tree>): seq<Token> {
    if ts == [] then [] else TreeFrame(ts[0]) + TreesFrame(ts[1..])
  }

  /** A whole forest: the tree count, then the trees. */
  function ForestFrame(ts: seq<Tree>): seq<Token> {
    [Int(|ts|)] + TreesFrame(ts)
  }

  lemma {:induction false} TreesFrameSnoc(ts: seq<Tree>, t: Tree)
    ensures TreesFrame(ts + [t]) == TreesFrame(ts) + TreeFrame(t)
  {
    if ts == [] {
      assert [] + [t] == [t];
      assert TreesFrame([t][1..]) == [];
    } else {
      assert (ts + [t])[1..] == ts[1..] + [t];
      TreesFrameSnoc(ts[1..], t);
    }
  }

  /** Reading one tree: its size, then that many values.  A negative size
      makes the `std::vector` constructor throw, which ends the exchange. */
  function ReadTree(s: seq<Token>): (r: Read<Tree>)
    ensures r.Got? ==> |r.rest| < |s|
  {
    match ReadInt(s)
    case Failed => Failed
    case Got(size, s1) => if size < 0 then Failed else ReadDbls(s1, size)
  }

  /** Reading `n` more trees after the trees `acc` already read. */
  function ReadTrees(s: seq<Token>, n: nat, acc: seq<Tree>): (r: Read<seq<Tree>>)
    ensures r.Got? ==> |r.value| == |acc| + n
    decreases n
  {
    if n == 0 then Got(acc, s)
    else
      match ReadTree(s)
      case Failed => Failed
      case Got(t, rest) => ReadTrees(rest, n - 1, acc + [t])
  }

  /** Reading a forest: the tree count, then that many trees.  The decoded
      forest has exactly as many trees as the count announced. */
  function ReadForest(s: seq<Token>): (r: Read<seq<Tree>>)
    ensures r.Got? ==> |s| > 0 && s[0] == Int(|r.value|)
  {
    match ReadInt(s)
    case Failed => Failed
    case Got(n, s1) => if n < 0 then Failed else ReadTrees(s1, n, [])
  }

  lemma {:induction false} ReadTreesOf(ts: seq<Tree>, acc: seq<Tree>, tail: seq<Token>)
    ensures ReadTrees(TreesFrame(ts) + tail, |ts|, acc) == Got(acc + ts, tail)
    decreases |ts|
  {
    if ts == [] {
      assert acc + ts == acc;
    } else {
      ReadTreesOf(ts[1..], acc + [ts[0]], tail);
      ReadTreesCons(ts, acc, tail);
    }
  }

  /** One tree of the induction of `ReadTreesOf`, given the rest. */
  lemma ReadTreesCons(ts: seq<Tree>, acc: seq<Tree>, tail: seq<Token>)
    requires ts != []
    requires ReadTrees(TreesFrame(ts[1..]) + tail, |ts[1..]|, acc + [ts[0]]) == Got(acc + [ts[0]] + ts[1..], tail)
    ensures ReadTrees(TreesFrame(ts) + tail, |ts|, acc) == Got(acc + ts, tail)
  {
    var t := ts[0];
    var s := TreesFrame(ts) + tail;
    var rest := TreesFrame(ts[1..]) + tail;
    assert ReadTrees(s, |ts|, acc) == ReadTrees(rest, |ts| - 1, acc + [t]) by {
      TreesFrameCons(ts, tail);
      ReadTreeOf(t, rest, s);
      ReadTreesStep(s, |ts|, acc, t, rest);
    }
    assert acc + [t] + ts[1..] == acc + ts by {
      assert ts == [t] + ts[1..];
      AppendAssoc(acc, [t], ts[1..]);
    }
  }

  lemma ReadTreesStep(s: seq<Token>, n: nat, acc: seq<Tree>, t: Tree, rest: seq<Token>)
    requires n > 0 && ReadTree(s) == Got(t, rest)
    ensures ReadTrees(s, n, acc) == ReadTrees(rest, n - 1, acc + [t])
  {
  }

  lemma TreesFrameCons(ts: seq<Tree>, tail: seq<Token>)
    requires ts != []
    ensures TreesFrame(ts) + tail == TreeFrame(ts[0]) + (TreesFrame(ts[1..]) + tail)
  {
    AppendAssoc(TreeFrame(ts[0]), TreesFrame(ts[1..]), tail);
  }

  /** A tree frame is read back as the same tree, whatever follows it. */
  lemma ReadTreeOf(t: Tree, rest: seq<Token>, s: seq<Token>)
    requires s == TreeFrame(t) + rest
    ensures ReadTree(s) == Got(t, rest)
  {
    assert s == [Int(|t|)] + (Dbls(t) + rest);
    ReadIntOf(|t|, Dbls(t) + rest);
    ReadDblsOfDbls(t, rest);
  }

  /** A forest frame is read back as the same trees, whatever follows it. */
  lemma ForestRoundTrip(ts: seq<Tree>, tail: seq<Token>)
    ensures ReadForest(ForestFrame(ts) + tail) == Got(ts, tail)
  {
    var s := ForestFrame(ts) + tail;
    var s1 := TreesFrame(ts) + tail;
    assert ReadInt(s) == Got(|ts|, s1) by {
      assert s == [Int(|ts|)] + s1;
      ReadIntOf(|ts|, s1);
    }
    assert ReadTrees(s1, |ts|, []) == Got(ts, tail) by {
      ReadTreesOf(ts, [], tail);
      assert [] + ts == ts;
    }
  }

  /** The decoding loop shared by the three `handle_client`/`receive_global_forest`
      copies: read the count, then every tree's size and values. */
  method ReceiveForest(s: seq<Token>) returns (r: Read<seq<Tree>>)
    ensures r == ReadForest(s)
  {
    var header := ReadInt(s);
    if header.Failed? || header.value < 0 {
      return Failed;
    }
    var forestSize := header.value;
    var forest: seq<Tree> := [];
    var rest := header.rest;
    for i := 0 to forestSize
      invariant |forest| == i
      invariant ReadTrees(header.rest, forestSize, []) == ReadTrees(rest, forestSize - i, forest)
    {
      var size := ReadInt(rest);
      if size.Failed? || size.value < 0 {
        return Failed;
      }
      var treeSize := size.value;
      var serializedTree := ReadDbls(size.rest, treeSize);
      if serializedTree.Failed? {
        return Failed;
      }
      forest := forest + [serializedTree.value];
      rest := serializedTree.rest;
    }
    r := Got(forest, rest);
  }

  /** The writing loop of `send_global_forest`: the count, then each tree's
      size and values. */
  method SendForest(trees: seq<Tree>) returns (out: seq<Token>)
    ensures out == ForestFrame(trees)
  {
    var forestSize := |trees|;
    out := [Int(forestSize)];
    for k := 0 to |trees|
      invariant out == [Int(forestSize)] + TreesFrame(trees[..k])
    {
      var tree := trees[k];
      var treeSize := |tree|;
      TreesFrameSnoc(trees[..k], tree);
      assert trees[..k + 1] == trees[..k] + [tree];
      out := out + [Int(treeSize)];
      out := out + Dbls(tree);
    }
    assert trees[..|trees|] == trees;
  }
}
