/** The averaging servers (LSVM/server_updated.cpp, temp/server.cpp): every
    update a client sends is added to a running total, and the global model
    is the total divided by the number of updates received so far, across
    all sessions.  The two servers differ only in the request header, the
    size cap and the chunk length, which are parameters here. */
module Averaging {
  import opened Wire
  import opened Vec
  import opened Frames

  datatype State = State(global: seq<real>, total: seq<real>, count: nat)

  /** The globals before any client: empty vectors and no clients. */
  const Initial := State([], [], 0)

  /** The update length matches the established dimension (the source does
      not check this; Eigen's `+=` on vectors of different lengths is undefined). */
  predicate Fits(s: State, u: seq<real>) {
    |s.total| == 0 || |u| == |s.total|
  }

  /** `total_weights` as `aggregate_model` adds to it: zeros while still empty. */
  function Base(s: State, d: nat): (b: seq<real>)
    requires |s.total| == 0 || |s.total| == d
    ensures |b| == d
  {
    if |s.total| == 0 then Zeros(d) else s.total
  }

  /** `aggregate_model`. */
  function Aggregate(s: State, u: seq<real>): (r: State)
    requires Fits(s, u)
    ensures r.count == s.count + 1 && |r.total| == |u| && Consistent(r)
  {
    var total := Add(Base(s, |u|), u);
    State(Div(total, (s.count + 1) as real), total, s.count + 1)
  }

  /** The invariant of the globals: no total before the first client, and
      afterwards the global model is the total over the client count. */
  predicate Consistent(s: State) {
    (s.count == 0 ==> s.total == []) && (s.count > 0 ==> s.global == Div(s.total, s.count as real))
  }

  lemma AggregateConsistent(s: State, u: seq<real>)
    requires Consistent(s) && Fits(s, u)
    ensures Consistent(Aggregate(s, u))
    ensures Aggregate(s, u).count == s.count + 1 && |Aggregate(s, u).total| == |u|
  {
  }

  /** Aggregating several updates in order. */
  function AggregateAll(s: State, us: seq<seq<real>>, d: nat): State
    requires AllLength(us, d) && (|s.total| == 0 || |s.total| == d)
    decreases |us|
  {
    if us == [] then s else AggregateAll(Aggregate(s, us[0]), us[1..], d)
  }

  /** After aggregating `us`, the total is the old total plus the sum of `us`,
      the count has grown by `|us|`, and the global model is total / count. */
  lemma AggregateAllTotals(s: State, us: seq<seq<real>>, d: nat)
    requires AllLength(us, d) && (|s.total| == 0 || |s.total| == d)
    ensures AggregateAll(s, us, d).count == s.count + |us|
    ensures AggregateAll(s, us, d).total == (if us == [] then s.total else Add(Base(s, d), SumAll(us, d)))
    ensures us != [] ==> AggregateAll(s, us, d).global == Div(AggregateAll(s, us, d).total, (s.count + |us|) as real)
  {
    AggregateAllCount(s, us, d);
    AggregateAllTotal(s, us, d);
    if us != [] {
      AggregateAllGlobal(s, us, d);
    }
  }

  lemma {:induction false} AggregateAllCount(s: State, us: seq<seq<real>>, d: nat)
    requires AllLength(us, d) && (|s.total| == 0 || |s.total| == d)
    ensures AggregateAll(s, us, d).count == s.count + |us|
    decreases |us|
  {
    if us != [] {
      AggregateAllCount(Aggregate(s, us[0]), us[1..], d);
    }
  }

  lemma {:induction false} AggregateAllTotal(s: State, us: seq<seq<real>>, d: nat)
    requires AllLength(us, d) && (|s.total| == 0 || |s.total| == d)
    ensures AggregateAll(s, us, d).total == (if us == [] then s.total else Add(Base(s, d), SumAll(us, d)))
    decreases |us|
  {
    if us != [] {
      var s', rest := Aggregate(s, us[0]), us[1..];
      AggregateAllTotal(s', rest, d);
      var b, sr := Base(s, d), SumAll(rest, d);
      assert s'.total == Add(b, us[0]);
      assert SumAll(us, d) == Add(us[0], sr);
      if rest != [] {
        assert Base(s', d) == s'.total;
        AddAssoc(b, us[0], sr);
      } else {
        assert Add(us[0], sr) == us[0];
      }
    }
  }

  lemma {:induction false} AggregateAllGlobal(s: State, us: seq<seq<real>>, d: nat)
    requires AllLength(us, d) && (|s.total| == 0 || |s.total| == d) && us != []
    ensures AggregateAll(s, us, d).global == Div(AggregateAll(s, us, d).total, (s.count + |us|) as real)
    decreases |us|
  {
    var s', rest := Aggregate(s, us[0]), us[1..];
    if rest != [] {
      AggregateAllGlobal(s', rest, d);
      assert s'.count + |rest| == s.count + |us|;
    }
  }

  /** Starting from no clients, the global model is the element-wise mean of
      every update received. */
  lemma MeanOfAllUpdates(us: seq<seq<real>>, d: nat)
    requires AllLength(us, d) && |us| > 0
    ensures AggregateAll(Initial, us, d) == State(Mean(us, d), SumAll(us, d), |us|)
  {
    AggregateAllTotals(Initial, us, d);
    assert Add(Zeros(d), SumAll(us, d)) == SumAll(us, d);
  }

  /** The order in which clients' updates arrive does not change the model. */
  lemma OrderIndependent(us: seq<seq<real>>, ws: seq<seq<real>>, d: nat)
    requires AllLength(us, d) && |us| > 0 && multiset(us) == multiset(ws)
    ensures AllLength(ws, d) && |ws| == |us|
    ensures AggregateAll(Initial, us, d) == AggregateAll(Initial, ws, d)
  {
    SumAllPermutation(us, ws, d);
    assert |ws| == |multiset(ws)| == |us|;
    MeanOfAllUpdates(us, d);
    MeanOfAllUpdates(ws, d);
  }

  datatype Step = Next(state: State, reply: seq<real>, rest: seq<Token>) | Stop(end: End)

  /** One round of `handle_client`: read a request, aggregate its update
      and reply with the full global model. */
  function Round(header: Header, cap: int, s: State, input: seq<Token>): (r: Step)
    ensures r.Next? ==> |r.rest| < |input|
  {
    match ReadRequest(input, header, cap)
    case Rejected(e) => Stop(e)
    case Parsed(req, rest) =>
      if !Fits(s, req.update) then Stop(DimensionMismatch)
      else
        var s' := Aggregate(s, req.update);
        Next(s', s'.global, rest)
  }

  /** A whole session: the final globals, everything written back, and why it ended. */
  function Run(header: Header, cap: int, s: State, input: seq<Token>, out: seq<Token>): (r: (State, seq<Token>, End))
    ensures s.count <= r.0.count
    decreases |input|
  {
    match Round(header, cap, s, input)
    case Stop(e) => (s, out, e)
    case Next(s', reply, rest) => Run(header, cap, s', rest, out + Dbls(reply))
  }

  /** The tokens of a client sending each of `us` in turn, every header
      carrying the same batch size. */
  function Updates(header: Header, batch: int, us: seq<seq<real>>): seq<Token> {
    if us == [] then [] else Frame(header, Request(batch, us[0])) + Updates(header, batch, us[1..])
  }

  /** What the server writes back for `us`: the global model after each aggregate. */
  function Replies(s: State, us: seq<seq<real>>, d: nat): seq<Token>
    requires AllLength(us, d) && (|s.total| == 0 || |s.total| == d)
    decreases |us|
  {
    if us == [] then [] else Dbls(Aggregate(s, us[0]).global) + Replies(Aggregate(s, us[0]), us[1..], d)
  }

  /** The updates of length `d` a client may send under this header and cap. */
  predicate Sendables(header: Header, cap: int, batch: int, us: seq<seq<real>>, d: nat) {
    AllLength(us, d) && ValidSize(d, cap) && (header.SizeOnly? ==> batch == 0)
  }

  /** A session that receives valid updates `us` aggregates each of them in
      order and replies after each, then carries on with what follows. */
  lemma {:induction false} SessionOfUpdates(header: Header, cap: int, batch: int, s: State, us: seq<seq<real>>, d: nat,
                                            tail: seq<Token>, out: seq<Token>)
    requires Sendables(header, cap, batch, us, d) && (|s.total| == 0 || |s.total| == d)
    ensures Run(header, cap, s, Updates(header, batch, us) + tail, out)
            == Run(header, cap, AggregateAll(s, us, d), tail, out + Replies(s, us, d))
    decreases |us|
  {
    if us == [] {
      assert Updates(header, batch, us) + tail == tail;
      assert out + Replies(s, us, d) == out;
    } else {
      var s' := Aggregate(s, us[0]);
      var frame := Frame(header, Request(batch, us[0]));
      var later := Updates(header, batch, us[1..]) + tail;
      assert Updates(header, batch, us) + tail == frame + later;
      ReadFrame(header, cap, Request(batch, us[0]), later);
      SessionOfUpdates(header, cap, batch, s', us[1..], d, tail, out + Dbls(s'.global));
      assert out + Dbls(s'.global) + Replies(s', us[1..], d) == out + Replies(s, us, d);
    }
  }

  /** A closed stream ends the session at once, changing nothing. */
  lemma RunClosed(header: Header, cap: int, s: State, out: seq<Token>)
    ensures Run(header, cap, s, [], out) == (s, out, HeaderFailed)
  {
    ReadClosed(header, cap);
  }

  /** A client that sends valid updates and then closes the connection leaves
      a fresh server at the mean of its updates, having read each reply. */
  lemma FreshSessionThenClose(header: Header, cap: int, batch: int, us: seq<seq<real>>, d: nat)
    requires Sendables(header, cap, batch, us, d) && |us| > 0
    ensures Run(header, cap, Initial, Updates(header, batch, us), [])
            == (State(Mean(us, d), SumAll(us, d), |us|), Replies(Initial, us, d), HeaderFailed)
  {
    SessionOfUpdates(header, cap, batch, Initial, us, d, [], []);
    assert Updates(header, batch, us) + [] == Updates(header, batch, us);
    RunClosed(header, cap, AggregateAll(Initial, us, d), [] + Replies(Initial, us, d));
    assert [] + Replies(Initial, us, d) == Replies(Initial, us, d);
    MeanOfAllUpdates(us, d);
  }

  /** A client that disconnects in the middle of a payload leaves the server
      with exactly the updates it completed. */
  lemma DisconnectMidPayload(header: Header, cap: int, batch: int, s: State, us: seq<seq<real>>, d: nat, partial: seq<real>)
    requires Sendables(header, cap, batch, us, d) && (|s.total| == 0 || |s.total| == d)
    requires |partial| < d
    ensures Run(header, cap, s, Updates(header, batch, us) + (Prefix(header, batch, d) + Dbls(partial)), [])
            == (AggregateAll(s, us, d), Replies(s, us, d), PayloadFailed)
  {
    SessionOfUpdates(header, cap, batch, s, us, d, Prefix(header, batch, d) + Dbls(partial), []);
    ReadTruncated(header, cap, batch, d, partial);
    assert [] + Replies(s, us, d) == Replies(s, us, d);
  }

  /** A session ending for any reason leaves the globals consistent. */
  lemma {:induction false} RunConsistent(header: Header, cap: int, s: State, input: seq<Token>, out: seq<Token>)
    requires Consistent(s)
    ensures Consistent(Run(header, cap, s, input, out).0)
    decreases |input|
  {
    match Round(header, cap, s, input)
    case Stop(e) =>
    case Next(s', reply, rest) =>
      var req := ReadRequest(input, header, cap).request;
      AggregateConsistent(s, req.update);
      RunConsistent(header, cap, s', rest, out + Dbls(reply));
  }
}
