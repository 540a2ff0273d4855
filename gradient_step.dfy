/** The gradient servers (Logistic_Regression/server.cpp, LSVM/server.cpp,
    Linear_Regression/server.cpp): each request carries a batch gradient and
    the batch size; the server scales the gradient by the batch size, takes
    one descent step on the global weights and replies with them.  The three
    differ on purpose in when they initialise and in how the step is scaled,
    which are the two parts of a `Rule` here. */
module GradientStep {
  import opened Wire
  import opened Vec
  import opened Frames

  /** When the weights are (re)initialised to zeros: while there are no
      clients (`client_count == 0`), or while the weights are empty
      (`global_weights.size() == 0`). */
  datatype Init = WhenNoClients | WhenWeightsEmpty

  /** How the accumulated gradient is turned into a step: divided by the sum
      of every batch size received so far, or multiplied by a fixed rate. */
  datatype Scaling = Normalised | LearningRate(rate: real)

  datatype Rule = Rule(init: Init, scaling: Scaling)

  /** The largest accepted `vector_size` (`1e7`) of all three servers. */
  const MaxVectorSize := 10_000_000

  datatype State = State(global: seq<real>, total: seq<real>, count: nat, sizes: seq<int>)

  const Initial := State([], [], 0, [])

  predicate Starts(rule: Rule, s: State) {
    match rule.init
    case WhenNoClients => s.count == 0
    case WhenWeightsEmpty => |s.global| == 0
  }

  /** The gradient has the length of the weights (unchecked in the source). */
  predicate Fits(rule: Rule, s: State, g: seq<real>) {
    Starts(rule, s) || (|g| == |s.global| && |g| == |s.total|)
  }

  /** The normalised step divides by the new sum of batch sizes, which must not be 0. */
  predicate Defined(rule: Rule, s: State, b: int) {
    rule.scaling.Normalised? ==> SumInts(s.sizes + [b]) != 0
  }

  /** `apply_gradient_update(batch_gradient, batch_size)`. */
  function Apply(rule: Rule, s: State, g: seq<real>, b: int): (r: State)
    requires Fits(rule, s, g) && Defined(rule, s, b)
    ensures r.count == s.count + 1 && |r.sizes| == |s.sizes| + 1
    ensures r.total == Zeros(|g|) && |r.global| == |g|
  {
    var start := Starts(rule, s);
    var weights := if start then Zeros(|g|) else s.global;
    var total := Add(if start then Zeros(|g|) else s.total, Scale(b as real, g));
    var sizes := s.sizes + [b];
    var step := match rule.scaling
      case Normalised => Div(total, SumInts(sizes) as real)
      case LearningRate(rate) => Scale(rate, total);
    State(Sub(weights, step), Zeros(|total|), s.count + 1, sizes)
  }

  /** The invariant of the globals: one recorded batch size per call, the
      gradient accumulator zero between calls, and equal lengths once the
      weights are initialised. */
  predicate Consistent(rule: Rule, s: State) {
    s.count == |s.sizes| && s.total == Zeros(|s.total|) && (!Starts(rule, s) ==> |s.total| == |s.global|)
  }

  /** The weights a step starts from. */
  function Before(rule: Rule, s: State, d: nat): (w: seq<real>)
    requires Starts(rule, s) || |s.global| == d
    ensures |w| == d
  {
    if Starts(rule, s) then Zeros(d) else s.global
  }

  /** The step a batch contributes, with `sum` the batch sizes so far. */
  function Delta(rule: Rule, g: seq<real>, b: int, sum: int): seq<real>
    requires rule.scaling.Normalised? ==> sum != 0
  {
    match rule.scaling
    case Normalised => Div(Scale(b as real, g), sum as real)
    case LearningRate(rate) => Scale(rate * b as real, g)
  }

  /** A call keeps the invariant of the globals. */
  lemma ApplyConsistent(rule: Rule, s: State, g: seq<real>, b: int)
    requires Consistent(rule, s) && Fits(rule, s, g) && Defined(rule, s, b)
    ensures Consistent(rule, Apply(rule, s, g, b))
  {
    assert Apply(rule, s, g, b).total == Zeros(|g|);
  }

  /** One call records the batch size, leaves the accumulator at zero, and
      moves the weights by this batch's gradient alone: `b * g / (sum of all
      batch sizes so far)` when normalised, `rate * b * g` otherwise. */
  lemma ApplyStep(rule: Rule, s: State, g: seq<real>, b: int)
    requires Consistent(rule, s) && Fits(rule, s, g) && Defined(rule, s, b)
    ensures Consistent(rule, Apply(rule, s, g, b))
    ensures Apply(rule, s, g, b).sizes == s.sizes + [b]
    ensures Apply(rule, s, g, b).count == s.count + 1
    ensures Apply(rule, s, g, b).total == Zeros(|g|)
    ensures Apply(rule, s, g, b).global == Sub(Before(rule, s, |g|), Delta(rule, g, b, SumInts(s.sizes + [b])))
  {
    var r := Apply(rule, s, g, b);
    var w := Before(rule, s, |g|);
    var total := Scale(b as real, g);
    assert Add(if Starts(rule, s) then Zeros(|g|) else s.total, total) == total;
    var step := Delta(rule, g, b, SumInts(s.sizes + [b]));
    match rule.scaling
    case Normalised =>
    case LearningRate(rate) =>
      assert r.global == Sub(w, Scale(rate, total));
      forall k | 0 <= k < |g|
        ensures Scale(rate, total)[k] == step[k]
      {
        MulAssoc(rate, b as real, g[k]);
      }
      assert Scale(rate, total) == step;
  }

  lemma MulAssoc(a: real, b: real, c: real)
    ensures (a * b) * c == a * (b * c)
  {
  }

  /** With a learning rate the step ignores every earlier batch size: the
      sizes recorded so far do not change the new weights. */
  lemma LearningRateIgnoresHistory(rate: real, init: Init, s: State, sizes: seq<int>, g: seq<real>, b: int)
    requires Fits(Rule(init, LearningRate(rate)), s, g)
    ensures Fits(Rule(init, LearningRate(rate)), s.(sizes := sizes), g)
    ensures Apply(Rule(init, LearningRate(rate)), s, g, b).global
            == Apply(Rule(init, LearningRate(rate)), s.(sizes := sizes), g, b).global
  {
  }

  /** The first normalised step of a fresh server moves the weights by
      exactly minus the gradient, whatever the (non-zero) batch size. */
  lemma FirstNormalisedStep(init: Init, g: seq<real>, b: int)
    requires b != 0
    ensures Fits(Rule(init, Normalised), Initial, g) && Defined(Rule(init, Normalised), Initial, b)
    ensures Apply(Rule(init, Normalised), Initial, g, b).global == Scale(-1.0, g)
  {
    assert Initial.sizes + [b] == [b];
    assert SumInts([b]) == b;
    var r := Apply(Rule(init, Normalised), Initial, g, b);
    forall k | 0 <= k < |g| ensures r.global[k] == -1.0 * g[k] {
      calc {
        r.global[k];
        0.0 - (b as real * g[k]) / (b as real);
        -1.0 * g[k];
      }
    }
  }

  /** Applying several requests in order. */
  function ApplyAll(rule: Rule, s: State, rs: seq<Request>, d: nat): State
    requires Steppable(rule, s, rs, d)
    decreases |rs|
  {
    if rs == [] then s
    else
      SteppableNext(rule, s, rs, d);
      ApplyAll(rule, Apply(rule, s, rs[0].update, rs[0].batchSize), rs[1..], d)
  }

  /** Requests with gradients of length `d` and positive batch sizes, sent to a
      server whose recorded sizes have a non-negative sum. */
  predicate Steppable(rule: Rule, s: State, rs: seq<Request>, d: nat) {
    (Starts(rule, s) || (|s.global| == d && |s.total| == d)) && SumInts(s.sizes) >= 0 &&
    forall i :: 0 <= i < |rs| ==> |rs[i].update| == d && rs[i].batchSize > 0
  }

  lemma SteppableNext(rule: Rule, s: State, rs: seq<Request>, d: nat)
    requires Steppable(rule, s, rs, d) && rs != []
    ensures Fits(rule, s, rs[0].update) && Defined(rule, s, rs[0].batchSize)
    ensures Steppable(rule, Apply(rule, s, rs[0].update, rs[0].batchSize), rs[1..], d)
  {
    SumIntsSnoc(s.sizes, rs[0].batchSize);
  }

  datatype Step = Next(state: State, reply: seq<real>, rest: seq<Token>) | Stop(end: End)

  /** One round of `handle_client`: header (batch size, vector size), the
      gradient, one step, and the full weights written back. */
  function Round(rule: Rule, s: State, input: seq<Token>): (r: Step)
    ensures r.Next? ==> |r.rest| < |input|
  {
    match ReadRequest(input, BatchAndSize, MaxVectorSize)
    case Rejected(e) => Stop(e)
    case Parsed(req, rest) =>
      if !Fits(rule, s, req.update) then Stop(DimensionMismatch)
      else if !Defined(rule, s, req.batchSize) then Stop(ZeroTotal)
      else
        var s' := Apply(rule, s, req.update, req.batchSize);
        Next(s', s'.global, rest)
  }

  function Run(rule: Rule, s: State, input: seq<Token>, out: seq<Token>): (r: (State, seq<Token>, End))
    ensures s.count <= r.0.count
    decreases |input|
  {
    match Round(rule, s, input)
    case Stop(e) => (s, out, e)
    case Next(s', reply, rest) => Run(rule, s', rest, out + Dbls(reply))
  }

  function Requests(rs: seq<Request>): seq<Token> {
    if rs == [] then [] else Frame(BatchAndSize, rs[0]) + Requests(rs[1..])
  }

  function Replies(rule: Rule, s: State, rs: seq<Request>, d: nat): seq<Token>
    requires Steppable(rule, s, rs, d)
    decreases |rs|
  {
    if rs == [] then []
    else
      SteppableNext(rule, s, rs, d);
      var s' := Apply(rule, s, rs[0].update, rs[0].batchSize);
      Dbls(s'.global) + Replies(rule, s', rs[1..], d)
  }

  /** A framed request is read, stepped and answered in one round. */
  lemma RunOfRequest(rule: Rule, s: State, r: Request, tail: seq<Token>, out: seq<Token>)
    requires Sendable(BatchAndSize, MaxVectorSize, r)
    requires Fits(rule, s, r.update) && Defined(rule, s, r.batchSize)
    ensures Run(rule, s, Frame(BatchAndSize, r) + tail, out)
            == Run(rule, Apply(rule, s, r.update, r.batchSize), tail, out + Dbls(Apply(rule, s, r.update, r.batchSize).global))
  {
    ReadFrame(BatchAndSize, MaxVectorSize, r, tail);
  }

  lemma UnfoldRequests(rule: Rule, s: State, rs: seq<Request>, d: nat)
    requires Steppable(rule, s, rs, d) && rs != []
    ensures Fits(rule, s, rs[0].update) && Defined(rule, s, rs[0].batchSize)
    ensures Steppable(rule, Apply(rule, s, rs[0].update, rs[0].batchSize), rs[1..], d)
    ensures ApplyAll(rule, s, rs, d) == ApplyAll(rule, Apply(rule, s, rs[0].update, rs[0].batchSize), rs[1..], d)
    ensures Replies(rule, s, rs, d)
            == Dbls(Apply(rule, s, rs[0].update, rs[0].batchSize).global) + Replies(rule, Apply(rule, s, rs[0].update, rs[0].batchSize), rs[1..], d)
  {
    SteppableNext(rule, s, rs, d);
  }

  /** A session receiving well-formed requests takes one step per request, in
      order, replying after each, then carries on with what follows. */
  lemma {:induction false} SessionOfRequests(rule: Rule, s: State, rs: seq<Request>, d: nat, tail: seq<Token>, out: seq<Token>)
    requires ValidSize(d, MaxVectorSize) && Steppable(rule, s, rs, d)
    ensures Run(rule, s, Requests(rs) + tail, out) == Run(rule, ApplyAll(rule, s, rs, d), tail, out + Replies(rule, s, rs, d))
    decreases |rs|
  {
    if rs == [] {
      assert Requests(rs) + tail == tail;
      assert out + Replies(rule, s, rs, d) == out;
    } else {
      SteppableNext(rule, s, rs, d);
      var s' := Apply(rule, s, rs[0].update, rs[0].batchSize);
      SessionOfRequests(rule, s', rs[1..], d, tail, out + Dbls(s'.global));
      SessionCons(rule, s, rs, d, tail, out);
    }
  }

  /** The inductive step of `SessionOfRequests`, given the claim for the later requests. */
  lemma SessionCons(rule: Rule, s: State, rs: seq<Request>, d: nat, tail: seq<Token>, out: seq<Token>)
    requires ValidSize(d, MaxVectorSize) && Steppable(rule, s, rs, d) && rs != []
    requires
      var s' := Apply(rule, s, rs[0].update, rs[0].batchSize);
      Run(rule, s', Requests(rs[1..]) + tail, out + Dbls(s'.global))
      == Run(rule, ApplyAll(rule, s', rs[1..], d), tail, out + Dbls(s'.global) + Replies(rule, s', rs[1..], d))
    ensures Run(rule, s, Requests(rs) + tail, out) == Run(rule, ApplyAll(rule, s, rs, d), tail, out + Replies(rule, s, rs, d))
  {
    UnfoldRequests(rule, s, rs, d);
    var s' := Apply(rule, s, rs[0].update, rs[0].batchSize);
    SessionHead(rule, s, rs, d, tail, out);
    AppendAssoc(out, Dbls(s'.global), Replies(rule, s', rs[1..], d));
    var after, written := ApplyAll(rule, s', rs[1..], d), out + Dbls(s'.global) + Replies(rule, s', rs[1..], d);
    assert after == ApplyAll(rule, s, rs, d) && written == out + Replies(rule, s, rs, d);
  }

  /** The first request of a session is read, stepped and answered. */
  lemma SessionHead(rule: Rule, s: State, rs: seq<Request>, d: nat, tail: seq<Token>, out: seq<Token>)
    requires ValidSize(d, MaxVectorSize) && Steppable(rule, s, rs, d) && rs != []
    ensures Fits(rule, s, rs[0].update) && Defined(rule, s, rs[0].batchSize)
    ensures Run(rule, s, Requests(rs) + tail, out)
            == Run(rule, Apply(rule, s, rs[0].update, rs[0].batchSize), Requests(rs[1..]) + tail,
                   out + Dbls(Apply(rule, s, rs[0].update, rs[0].batchSize).global))
  {
    SteppableNext(rule, s, rs, d);
    RequestsCons(rs, tail);
    RunOfRequest(rule, s, rs[0], Requests(rs[1..]) + tail, out);
  }

  lemma RequestsCons(rs: seq<Request>, tail: seq<Token>)
    requires rs != []
    ensures Requests(rs) + tail == Frame(BatchAndSize, rs[0]) + (Requests(rs[1..]) + tail)
  {
  }

  /** A session ending for any reason leaves the globals consistent. */
  lemma {:induction false} RunConsistent(rule: Rule, s: State, input: seq<Token>, out: seq<Token>)
    requires Consistent(rule, s)
    ensures Consistent(rule, Run(rule, s, input, out).0)
    decreases |input|
  {
    match Round(rule, s, input)
    case Stop(e) =>
    case Next(s', reply, rest) =>
      var req := ReadRequest(input, BatchAndSize, MaxVectorSize).request;
      ApplyConsistent(rule, s, req.update, req.batchSize);
      RunConsistent(rule, s', rest, out + Dbls(reply));
  }
}
