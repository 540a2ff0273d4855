/** Logistic_Regression/server_updated.cpp: an averaging server that reads
    the vector size once per connection, restarts the totals when it has no
    clients yet, and zeroes the global model when the average is not finite.
    Whether a vector is finite (Eigen's `allFinite`) is a property of IEEE
    doubles, so it is a parameter here. */
module LogisticServerUpdated {
  import opened Wire
  import opened Vec
  import opened Frames
  import Averaging

  type State = Averaging.State

  /** `BATCH_SIZE`: the longest read of the payload loop. */
  const BatchSize := 100
  /** The largest accepted `vector_size` (`1e7`). */
  const MaxVectorSize := 10_000_000

  const Initial: State := Averaging.State([], [], 0)

  /** The update length matches the established dimension once there are clients. */
  predicate Fits(s: State, u: seq<real>) {
    s.count == 0 || |u| == |s.total|
  }

  /** `aggregate_model` with the finiteness test `allFinite`. */
  function Aggregate(s: State, u: seq<real>, allFinite: seq<real> -> bool): (r: State)
    requires Fits(s, u)
    ensures r.count == s.count + 1 && |r.total| == |u| && |r.global| == |u|
    ensures r.global == Div(r.total, r.count as real) || r.global == Zeros(|u|)
  {
    var total := Add(if s.count == 0 then Zeros(|u|) else s.total, u);
    var average := Div(total, (s.count + 1) as real);
    Averaging.State(if allFinite(average) then average else Zeros(|u|), total, s.count + 1)
  }

  /** The invariant of the globals: once there are clients, the global model
      is the running mean when that is finite, and all zeros otherwise. */
  predicate Consistent(s: State, allFinite: seq<real> -> bool) {
    s.count > 0 ==>
      var average := Div(s.total, s.count as real);
      s.global == (if allFinite(average) then average else Zeros(|s.total|))
  }

  lemma AggregateConsistent(s: State, u: seq<real>, allFinite: seq<real> -> bool)
    requires Fits(s, u)
    ensures Consistent(Aggregate(s, u, allFinite), allFinite)
    ensures |Aggregate(s, u, allFinite).total| == |u|
  {
  }

  /** Aggregating several updates in order. */
  function AggregateAll(s: State, us: seq<seq<real>>, d: nat, allFinite: seq<real> -> bool): State
    requires AllLength(us, d) && (s.count == 0 || |s.total| == d)
    decreases |us|
  {
    if us == [] then s else AggregateAll(Aggregate(s, us[0], allFinite), us[1..], d, allFinite)
  }

  /** Whatever the finiteness test says, the total and the count record every
      update: from no clients, the total is the sum of the updates; and the
      global model is their mean unless that mean is not finite. */
  lemma AggregateAllTotals(s: State, us: seq<seq<real>>, d: nat, allFinite: seq<real> -> bool)
    requires AllLength(us, d) && (s.count == 0 || |s.total| == d)
    ensures AggregateAll(s, us, d, allFinite).count == s.count + |us|
    ensures us != [] ==>
      AggregateAll(s, us, d, allFinite).total == Add(if s.count == 0 then Zeros(d) else s.total, SumAll(us, d))
    ensures us != [] ==> Consistent(AggregateAll(s, us, d, allFinite), allFinite)
  {
    AggregateAllCount(s, us, d, allFinite);
    if us != [] {
      AggregateAllTotal(s, us, d, allFinite);
      AggregateAllConsistent(s, us, d, allFinite);
    }
  }

  lemma {:induction false} AggregateAllCount(s: State, us: seq<seq<real>>, d: nat, allFinite: seq<real> -> bool)
    requires AllLength(us, d) && (s.count == 0 || |s.total| == d)
    ensures AggregateAll(s, us, d, allFinite).count == s.count + |us|
    decreases |us|
  {
    if us != [] {
      AggregateAllCount(Aggregate(s, us[0], allFinite), us[1..], d, allFinite);
    }
  }

  lemma {:induction false} AggregateAllTotal(s: State, us: seq<seq<real>>, d: nat, allFinite: seq<real> -> bool)
    requires AllLength(us, d) && (s.count == 0 || |s.total| == d) && us != []
    ensures AggregateAll(s, us, d, allFinite).total == Add(if s.count == 0 then Zeros(d) else s.total, SumAll(us, d))
    decreases |us|
  {
    var s', rest := Aggregate(s, us[0], allFinite), us[1..];
    var b, sr := if s.count == 0 then Zeros(d) else s.total, SumAll(rest, d);
    assert s'.total == Add(b, us[0]);
    assert SumAll(us, d) == Add(us[0], sr);
    if rest != [] {
      AggregateAllTotal(s', rest, d, allFinite);
      AddAssoc(b, us[0], sr);
    } else {
      assert Add(us[0], sr) == us[0];
    }
  }

  lemma {:induction false} AggregateAllConsistent(s: State, us: seq<seq<real>>, d: nat, allFinite: seq<real> -> bool)
    requires AllLength(us, d) && (s.count == 0 || |s.total| == d) && us != []
    ensures Consistent(AggregateAll(s, us, d, allFinite), allFinite)
    decreases |us|
  {
    var s', rest := Aggregate(s, us[0], allFinite), us[1..];
    AggregateConsistent(s, us[0], allFinite);
    if rest != [] {
      AggregateAllConsistent(s', rest, d, allFinite);
    }
  }

  /** From no clients, with every average finite, the global model is the
      mean of all updates. */
  lemma MeanOfAllUpdates(us: seq<seq<real>>, d: nat, allFinite: seq<real> -> bool)
    requires AllLength(us, d) && |us| > 0
    requires allFinite(Mean(us, d))
    ensures AggregateAll(Initial, us, d, allFinite) == Averaging.State(Mean(us, d), SumAll(us, d), |us|)
  {
    AggregateAllTotals(Initial, us, d, allFinite);
    assert Add(Zeros(d), SumAll(us, d)) == SumAll(us, d);
  }

  datatype Step = Next(state: State, reply: seq<real>, rest: seq<Token>) | Stop(end: End)

  /** One round: exactly `size` doubles, aggregate, reply with the global model. */
  function Round(s: State, size: nat, input: seq<Token>, allFinite: seq<real> -> bool): (r: Step)
    requires size > 0
    ensures r.Next? ==> |r.rest| < |input|
  {
    match ReadDbls(input, size)
    case Failed => Stop(PayloadFailed)
    case Got(u, rest) =>
      if !Fits(s, u) then Stop(DimensionMismatch)
      else
        var s' := Aggregate(s, u, allFinite);
        Next(s', s'.global, rest)
  }

  /** The rounds after the size: each reads `size` doubles; the first read
      that fails, or an update that does not fit, ends the session. */
  function Rounds(s: State, size: nat, input: seq<Token>, out: seq<Token>, allFinite: seq<real> -> bool): (r: (State, seq<Token>, End))
    requires size > 0
    ensures out <= r.1 && s.count <= r.0.count && (r.2.PayloadFailed? || r.2.DimensionMismatch?)
    decreases |input|
  {
    match Round(s, size, input, allFinite)
    case Stop(e) => (s, out, e)
    case Next(s', reply, rest) => Rounds(s', size, rest, out + Dbls(reply), allFinite)
  }

  /** A whole session: the size once, then rounds until a read fails. */
  function Run(s: State, input: seq<Token>, allFinite: seq<real> -> bool): (r: (State, seq<Token>, End))
    ensures s.count <= r.0.count
    ensures (r.2.HeaderFailed? || r.2.InvalidSize?) ==> r.0 == s && r.1 == []
  {
    match ReadInt(input)
    case Failed => (s, [], HeaderFailed)
    case Got(size, rest) =>
      if !ValidSize(size, MaxVectorSize) then (s, [], InvalidSize(size))
      else Rounds(s, size, rest, [], allFinite)
  }

  /** A size outside 1..10^7 ends the session before anything is aggregated or written. */
  lemma RefusedSize(s: State, size: int, tail: seq<Token>, allFinite: seq<real> -> bool)
    requires !ValidSize(size, MaxVectorSize)
    ensures Run(s, [Int(size)] + tail, allFinite) == (s, [], InvalidSize(size))
  {
    ReadIntOf(size, tail);
  }

  /** The payloads of the rounds, back to back. */
  function Payloads(us: seq<seq<real>>): seq<Token> {
    if us == [] then [] else Dbls(us[0]) + Payloads(us[1..])
  }

  function Replies(s: State, us: seq<seq<real>>, d: nat, allFinite: seq<real> -> bool): seq<Token>
    requires AllLength(us, d) && (s.count == 0 || |s.total| == d)
    decreases |us|
  {
    if us == [] then []
    else
      var s' := Aggregate(s, us[0], allFinite);
      Dbls(s'.global) + Replies(s', us[1..], d, allFinite)
  }

  lemma {:induction false} RoundsOfUpdates(s: State, us: seq<seq<real>>, d: nat, tail: seq<Token>, out: seq<Token>,
                                           allFinite: seq<real> -> bool)
    requires AllLength(us, d) && d > 0 && (s.count == 0 || |s.total| == d)
    ensures Rounds(s, d, Payloads(us) + tail, out, allFinite)
            == Rounds(AggregateAll(s, us, d, allFinite), d, tail, out + Replies(s, us, d, allFinite), allFinite)
    decreases |us|
  {
    if us == [] {
      assert Payloads(us) + tail == tail;
      assert out + Replies(s, us, d, allFinite) == out;
    } else {
      var s' := Aggregate(s, us[0], allFinite);
      var out' := out + Dbls(s'.global);
      RestFits(s, us, d, allFinite, s');
      RoundsOfUpdates(s', us[1..], d, tail, out', allFinite);
      RoundsCons(s, us, d, tail, out, allFinite, s', out');
    }
  }

  /** The inductive step of `RoundsOfUpdates`, given the rounds after the
      first update. */
  lemma RoundsCons(s: State, us: seq<seq<real>>, d: nat, tail: seq<Token>, out: seq<Token>, allFinite: seq<real> -> bool,
                   s': State, out': seq<Token>)
    requires AllLength(us, d) && d > 0 && (s.count == 0 || |s.total| == d) && us != []
    requires s' == Aggregate(s, us[0], allFinite) && out' == out + Dbls(s'.global)
    requires AllLength(us[1..], d) && (s'.count == 0 || |s'.total| == d)
    requires Rounds(s', d, Payloads(us[1..]) + tail, out', allFinite)
             == Rounds(AggregateAll(s', us[1..], d, allFinite), d, tail, out' + Replies(s', us[1..], d, allFinite), allFinite)
    ensures Rounds(s, d, Payloads(us) + tail, out, allFinite)
            == Rounds(AggregateAll(s, us, d, allFinite), d, tail, out + Replies(s, us, d, allFinite), allFinite)
  {
    RoundsHead(s, us, d, tail, out, allFinite, s', out');
    AggregateAllHead(s, us, d, allFinite, s');
    RepliesHead(s, us, d, out, allFinite, s', out');
  }

  /** The first update of `us` is one round. */
  lemma RoundsHead(s: State, us: seq<seq<real>>, d: nat, tail: seq<Token>, out: seq<Token>, allFinite: seq<real> -> bool,
                   s': State, out': seq<Token>)
    requires AllLength(us, d) && d > 0 && (s.count == 0 || |s.total| == d) && us != []
    requires s' == Aggregate(s, us[0], allFinite) && out' == out + Dbls(s'.global)
    ensures Rounds(s, d, Payloads(us) + tail, out, allFinite) == Rounds(s', d, Payloads(us[1..]) + tail, out', allFinite)
  {
    var later := Payloads(us[1..]) + tail;
    assert Payloads(us) + tail == Dbls(us[0]) + later;
    RoundsStep(s, d, us[0], later, out, allFinite, s', out');
  }

  /** After the first update, the rest still fit the totals. */
  lemma RestFits(s: State, us: seq<seq<real>>, d: nat, allFinite: seq<real> -> bool, s': State)
    requires AllLength(us, d) && (s.count == 0 || |s.total| == d) && us != []
    requires s' == Aggregate(s, us[0], allFinite)
    ensures AllLength(us[1..], d) && (s'.count == 0 || |s'.total| == d)
  {
  }

  /** The totals of `us` are those of its first update, then of the rest. */
  lemma AggregateAllHead(s: State, us: seq<seq<real>>, d: nat, allFinite: seq<real> -> bool, s': State)
    requires AllLength(us, d) && (s.count == 0 || |s.total| == d) && us != []
    requires s' == Aggregate(s, us[0], allFinite)
    requires AllLength(us[1..], d) && (s'.count == 0 || |s'.total| == d)
    ensures AggregateAll(s, us, d, allFinite) == AggregateAll(s', us[1..], d, allFinite)
  {
  }

  /** The replies to `us` are the reply to its first update, then those to the rest. */
  lemma RepliesHead(s: State, us: seq<seq<real>>, d: nat, out: seq<Token>, allFinite: seq<real> -> bool,
                    s': State, out': seq<Token>)
    requires AllLength(us, d) && (s.count == 0 || |s.total| == d) && us != []
    requires s' == Aggregate(s, us[0], allFinite) && out' == out + Dbls(s'.global)
    requires AllLength(us[1..], d) && (s'.count == 0 || |s'.total| == d)
    ensures out + Replies(s, us, d, allFinite) == out' + Replies(s', us[1..], d, allFinite)
  {
    var rest := Replies(s', us[1..], d, allFinite);
    assert Replies(s, us, d, allFinite) == Dbls(s'.global) + rest;
    AppendAssoc(out, Dbls(s'.global), rest);
  }

  /** One round on an update of the announced size. */
  lemma RoundsStep(s: State, d: nat, u: seq<real>, later: seq<Token>, out: seq<Token>, allFinite: seq<real> -> bool,
                   s': State, out': seq<Token>)
    requires d > 0 && |u| == d && (s.count == 0 || |s.total| == d)
    requires s' == Aggregate(s, u, allFinite) && out' == out + Dbls(s'.global)
    ensures Rounds(s, d, Dbls(u) + later, out, allFinite) == Rounds(s', d, later, out', allFinite)
  {
    ReadDblsOfDbls(u, later);
  }

  /** A client that announces size `d`, sends updates `us` and closes leaves
      the totals holding every update, a global model consistent with them,
      and has been sent the global model after each update. */
  lemma SessionOfUpdates(s: State, us: seq<seq<real>>, d: nat, allFinite: seq<real> -> bool)
    requires AllLength(us, d) && ValidSize(d, MaxVectorSize) && (s.count == 0 || |s.total| == d)
    ensures Run(s, [Int(d)] + Payloads(us), allFinite)
            == (AggregateAll(s, us, d, allFinite), Replies(s, us, d, allFinite), PayloadFailed)
  {
    ReadIntOf(d, Payloads(us));
    RoundsOfUpdates(s, us, d, [], [], allFinite);
    assert Payloads(us) + [] == Payloads(us);
    assert [] + Replies(s, us, d, allFinite) == Replies(s, us, d, allFinite);
  }

  class Server {
    var globalWeights: seq<real>
    var totalWeights: seq<real>
    var clientCount: nat

    function Current(): State
      reads this
    {
      Averaging.State(globalWeights, totalWeights, clientCount)
    }

    constructor ()
      ensures Current() == Initial
    {
      globalWeights, totalWeights, clientCount := [], [], 0;
    }

    /** `aggregate_model`: restart from zeros when there are no clients, add
        the update, count it, average, and zero the average if it is not finite. */
    method AggregateModel(localUpdate: seq<real>, allFinite: seq<real> -> bool)
      requires Fits(Current(), localUpdate)
      modifies this
      ensures Current() == Aggregate(old(Current()), localUpdate, allFinite)
      ensures Consistent(Current(), allFinite)
    {
      if clientCount == 0 {
        globalWeights := Zeros(|localUpdate|);
        totalWeights := Zeros(|localUpdate|);
      }
      totalWeights := Add(totalWeights, localUpdate);
      clientCount := clientCount + 1;
      globalWeights := Div(totalWeights, clientCount as real);
      if !allFinite(globalWeights) {
        globalWeights := Zeros(|globalWeights|);
      }
    }

    /** `handle_client`: the size once, then rounds of payload, aggregate and
        reply until a read fails. */
    method HandleClient(input: seq<Token>, allFinite: seq<real> -> bool) returns (output: seq<Token>, end: End)
      modifies this
      ensures (Current(), output, end) == Run(old(Current()), input, allFinite)
    {
      output := [];
      var header := ReadInt(input);
      if header.Failed? {
        return [], HeaderFailed;
      }
      var vectorSize := header.value;
      if vectorSize <= 0 || vectorSize > MaxVectorSize {
        return [], InvalidSize(vectorSize);
      }
      var rest := header.rest;
      while true
        invariant Rounds(Current(), vectorSize, rest, output, allFinite) == Run(old(Current()), input, allFinite)
        decreases |rest|
      {
        var payload := ReceiveInChunks(rest, vectorSize, BatchSize);
        if payload.Failed? {
          end := PayloadFailed;
          return;
        }
        var localUpdate := payload.value;
        if clientCount != 0 && |localUpdate| != |totalWeights| {
          end := DimensionMismatch;
          return;
        }
        AggregateModel(localUpdate, allFinite);
        output := output + Dbls(globalWeights);
        rest := payload.rest;
      }
    }
  }
}
