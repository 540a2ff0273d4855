/** The socket as a sequence of tokens.

    Every value the clients and servers exchange is either a 4-byte `int`
    or an 8-byte `double`; the byte layout is abstracted to one token per
    value.  Encoders produce token sequences, decoders consume a prefix
    of one and hand back the rest.  A read that runs out of tokens, or
    meets a token of the other kind, fails as a whole, as
    `boost::asio::read` does when the peer closes or the connection breaks. */
module Wire {

  datatype Token = Int(i: int) | Dbl(r: real)

  /** The outcome of one blocking read: the value and the unread suffix, or a failure. */
  datatype Read<T> = Got(value: T, rest: seq<Token>) | Failed

  function Min(a: int, b: int): int {
    if a < b then a else b
  }

  /** The tokens written for a buffer of doubles. */
  function Dbls(v: seq<real>): (t: seq<Token>)
    ensures |t| == |v|
  {
    seq(|v|, k requires 0 <= k < |v| => Dbl(v[k]))
  }

  predicate AllDbl(s: seq<Token>) {
    forall k :: 0 <= k < |s| ==> s[k].Dbl?
  }

  function Values(s: seq<Token>): (v: seq<real>)
    requires AllDbl(s)
    ensures |v| == |s|
  {
    seq(|s|, k requires 0 <= k < |s| => s[k].r)
  }

  /** Reading one `int`. */
  function ReadInt(s: seq<Token>): (r: Read<int>)
    ensures r.Got? ==> |s| > 0 && r.rest == s[1..]
  {
    if |s| > 0 && s[0].Int? then Got(s[0].i, s[1..]) else Failed
  }

  /** Reading one `double`. */
  function ReadDbl(s: seq<Token>): (r: Read<real>)
    ensures r.Got? ==> |s| > 0 && r.rest == s[1..]
  {
    if |s| > 0 && s[0].Dbl? then Got(s[0].r, s[1..]) else Failed
  }

  /** Reading a buffer of `n` doubles in one call. */
  function ReadDbls(s: seq<Token>, n: nat): (r: Read<seq<real>>)
    ensures r.Got? ==> |r.value| == n && n <= |s| && r.rest == s[n..]
  {
    if n <= |s| && AllDbl(s[..n]) then Got(Values(s[..n]), s[n..]) else Failed
  }

  lemma DblsValues(v: seq<real>)
    ensures AllDbl(Dbls(v)) && Values(Dbls(v)) == v
  {
  }

  /** A buffer written as doubles is read back unchanged, whatever follows it. */
  lemma {:induction false} ReadDblsOfDbls(v: seq<real>, tail: seq<Token>)
    ensures ReadDbls(Dbls(v) + tail, |v|) == Got(v, tail)
  {
    var s := Dbls(v) + tail;
    assert s[..|v|] == Dbls(v);
    assert s[|v|..] == tail;
    DblsValues(v);
  }

  lemma ReadIntOf(x: int, tail: seq<Token>)
    ensures ReadInt([Int(x)] + tail) == Got(x, tail)
  {
    assert ([Int(x)] + tail)[1..] == tail;
  }

  lemma ReadDblOf(x: real, tail: seq<Token>)
    ensures ReadDbl([Dbl(x)] + tail) == Got(x, tail)
  {
    assert ([Dbl(x)] + tail)[1..] == tail;
  }

  /** Concatenation is associative. */
  lemma AppendAssoc<T>(a: seq<T>, b: seq<T>, c: seq<T>)
    ensures a + b + c == a + (b + c)
  {
  }

  /** The concatenation of a list of buffers. */
  function Concat<T>(cs: seq<seq<T>>): seq<T> {
    if cs == [] then [] else cs[0] + Concat(cs[1..])
  }

  lemma {:induction false} ConcatSnoc<T>(cs: seq<seq<T>>, c: seq<T>)
    ensures Concat(cs + [c]) == Concat(cs) + c
  {
    if cs == [] {
      assert [] + [c] == [c];
    } else {
      assert (cs + [c])[1..] == cs[1..] + [c];
      ConcatSnoc(cs[1..], c);
    }
  }

  lemma {:induction false} ConcatAppend<T>(a: seq<seq<T>>, b: seq<seq<T>>)
    ensures Concat(a + b) == Concat(a) + Concat(b)
  {
    if a == [] {
      assert a + b == b;
    } else {
      assert (a + b)[1..] == a[1..] + b;
      ConcatAppend(a[1..], b);
    }
  }

  /** The buffers a vector is written in when each write carries at most
      `chunk` values: consecutive slices, all full except possibly the last. */
  function Chunks<T>(v: seq<T>, chunk: nat): seq<seq<T>>
    requires chunk > 0
    decreases |v|
  {
    if |v| == 0 then []
    else if |v| <= chunk then [v]
    else [v[..chunk]] + Chunks(v[chunk..], chunk)
  }

  /** There are ceil(|v| / chunk) chunks, each non-empty and at most `chunk`
      long, and together they are the whole vector. */
  lemma ChunksShape<T>(v: seq<T>, chunk: nat)
    requires chunk > 0
    ensures |v| == 0 ==> Chunks(v, chunk) == []
    ensures |v| > 0 ==> (|Chunks(v, chunk)| - 1) * chunk < |v| <= |Chunks(v, chunk)| * chunk
    ensures Concat(Chunks(v, chunk)) == v
    ensures forall k :: 0 <= k < |Chunks(v, chunk)| ==> 0 < |Chunks(v, chunk)[k]| <= chunk
  {
    ChunksCount(v, chunk);
    ChunksConcat(v, chunk);
    ChunksSizes(v, chunk);
  }

  lemma {:induction false} ChunksCount<T>(v: seq<T>, chunk: nat)
    requires chunk > 0
    ensures |v| > 0 ==> (|Chunks(v, chunk)| - 1) * chunk < |v| <= |Chunks(v, chunk)| * chunk
    decreases |v|
  {
    if chunk < |v| {
      var tail := v[chunk..];
      ChunksCount(tail, chunk);
      var m := |Chunks(tail, chunk)|;
      assert |Chunks(v, chunk)| == m + 1;
      assert (m + 1) * chunk == m * chunk + chunk;
    }
  }

  lemma {:induction false} ChunksConcat<T>(v: seq<T>, chunk: nat)
    requires chunk > 0
    ensures Concat(Chunks(v, chunk)) == v
    decreases |v|
  {
    if chunk < |v| {
      var tail := v[chunk..];
      ChunksConcat(tail, chunk);
      var cs := Chunks(v, chunk);
      assert cs == [v[..chunk]] + Chunks(tail, chunk);
      assert cs[1..] == Chunks(tail, chunk);
      assert v[..chunk] + tail == v;
    } else if |v| > 0 {
      assert Concat([v]) == v + Concat([v][1..]);
    }
  }

  lemma {:induction false} ChunksSizes<T>(v: seq<T>, chunk: nat)
    requires chunk > 0
    ensures forall k :: 0 <= k < |Chunks(v, chunk)| ==> 0 < |Chunks(v, chunk)[k]| <= chunk
    decreases |v|
  {
    if chunk < |v| {
      var tail := v[chunk..];
      ChunksSizes(tail, chunk);
      assert Chunks(v, chunk) == [v[..chunk]] + Chunks(tail, chunk);
    }
  }

  /** Chunk `k` starts at `k * chunk` and holds `min(chunk, |v| - k * chunk)` values. */
  lemma {:induction false} ChunkAt<T>(v: seq<T>, chunk: nat, k: nat)
    requires chunk > 0 && k < |Chunks(v, chunk)|
    ensures k * chunk < |v|
    ensures Chunks(v, chunk)[k] == v[k * chunk .. Min(|v|, k * chunk + chunk)]
    decreases k
  {
    if k == 0 {
    } else {
      var tail := v[chunk..];
      assert Chunks(v, chunk) == [v[..chunk]] + Chunks(tail, chunk);
      ChunkAt(tail, chunk, k - 1);
      var p := (k - 1) * chunk;
      var hi := Min(|tail|, p + chunk);
      assert k * chunk == p + chunk;
      assert Min(|v|, k * chunk + chunk) == hi + chunk;
      SliceOfSuffix(v, chunk, p, hi);
    }
  }

  lemma SliceOfSuffix<T>(v: seq<T>, c: nat, i: nat, j: nat)
    requires c <= |v| && i <= j <= |v| - c
    ensures v[c..][i..j] == v[c + i..c + j]
  {
  }

  /** `send_in_batches`: the vector is written in consecutive calls of at
      most `chunk` values each, until everything has been sent.  The result
      lists the buffer handed to each write call, in order. */
  method SendInBatches(data: seq<real>, chunk: nat) returns (writes: seq<seq<real>>)
    requires chunk > 0
    ensures writes == Chunks(data, chunk)
    ensures Concat(writes) == data
    ensures forall k :: 0 <= k < |writes| ==> 0 < |writes[k]| <= chunk
  {
    var total := |data|;
    var sent := 0;
    writes := [];
    while sent < total
      invariant 0 <= sent <= total
      invariant writes + Chunks(data[sent..], chunk) == Chunks(data, chunk)
      decreases total - sent
    {
      var batchSize := Min(chunk, total - sent);
      ghost var left := data[sent..];
      assert left[..batchSize] == data[sent..sent + batchSize];
      assert batchSize < |left| ==> left[batchSize..] == data[sent + batchSize..];
      if batchSize < |left| {
        assert Chunks(left, chunk) == [left[..chunk]] + Chunks(left[chunk..], chunk);
      } else {
        assert left == data[sent..sent + batchSize];
        assert data[sent + batchSize..] == [];
      }
      writes := writes + [data[sent..sent + batchSize]];
      sent := sent + batchSize;
    }
    ChunksShape(data, chunk);
  }

  /** The `received < vector_size` loops of the servers: `size` doubles are
      read in calls of at most `chunk` values; a failed call ends the read.
      Reading in chunks succeeds exactly when reading all `size` values at
      once does, and yields the same values and the same unread suffix. */
  method ReceiveInChunks(s: seq<Token>, size: nat, chunk: nat) returns (r: Read<seq<real>>)
    requires chunk > 0
    ensures r == ReadDbls(s, size)
  {
    var received := 0;
    var values: seq<real> := [];
    var rest := s;
    while received < size
      invariant 0 <= received <= size && received <= |s|
      invariant rest == s[received..]
      invariant AllDbl(s[..received]) && values == Values(s[..received])
      decreases size - received
    {
      var batchSize := Min(chunk, size - received);
      var got := ReadDbls(rest, batchSize);
      if got.Failed? {
        if size <= |s| {
          assert !AllDbl(rest[..batchSize]);
          var k :| 0 <= k < batchSize && !rest[..batchSize][k].Dbl?;
          assert s[..size][received + k] == rest[..batchSize][k];
        }
        return Failed;
      }
      assert batchSize <= |rest| && got.value == Values(rest[..batchSize]);
      assert s[..received + batchSize] == s[..received] + rest[..batchSize];
      values := values + got.value;
      rest := got.rest;
      received := received + batchSize;
    }
    assert received == size;
    r := Got(values, rest);
  }
}
