/** KMeans/server.cpp: every received centroid matrix is added to a running
    sum shared by all sessions (the very first one is adopted as the sum),
    and each round is answered with the sum divided by the number of
    matrices received so far.  A session lasts at most 100 rounds. */
module KMeansServer {
  import opened Wire
  import opened Vec
  import opened Matrices

  /** The rounds of one `handle_client`. */
  const Rounds := 100

  datatype End = ReadFailed(failure: Failure) | DimensionMismatch | RoundsDone

  /** `global_centroids` (the running sum) and `clients_count`. */
  datatype State = State(sum: Matrix, count: nat)

  const Initial := State(Matrix(0, 0, []), 0)

  predicate SameShape(a: Matrix, b: Matrix) {
    a.rows == b.rows && a.cols == b.cols
  }

  predicate Consistent(s: State) {
    Shaped(s.sum)
  }

  /** The matrix can be added to the sum (Eigen leaves a mismatch undefined). */
  predicate Fits(s: State, m: Matrix) {
    s.count == 0 || SameShape(s.sum, m)
  }

  /** One aggregation: adopt the first matrix, add every later one. */
  function Merge(s: State, m: Matrix): (r: State)
    requires Consistent(s) && Shaped(m) && Fits(s, m)
    ensures Consistent(r) && SameShape(r.sum, m) && r.count == s.count + 1
  {
    if s.count == 0 then State(m, 1)
    else State(Matrix(m.rows, m.cols, Add(s.sum.data, m.data)), s.count + 1)
  }

  /** `global_centroids / clients_count`. */
  function Average(s: State): (a: Matrix)
    requires Consistent(s) && s.count > 0
    ensures Shaped(a) && SameShape(a, s.sum)
  {
    Matrix(s.sum.rows, s.sum.cols, Div(s.sum.data, s.count as real))
  }

  /** Matrices that all have shape `r` by `c`. */
  predicate AllShaped(ms: seq<Matrix>, r: nat, c: nat) {
    forall i :: 0 <= i < |ms| ==> Shaped(ms[i]) && ms[i].rows == r && ms[i].cols == c
  }

  /** A state that accepts matrices of shape `r` by `c`. */
  predicate Accepts(s: State, r: nat, c: nat) {
    Consistent(s) && (s.count == 0 || (s.sum.rows == r && s.sum.cols == c))
  }

  function Datas(ms: seq<Matrix>): (ds: seq<seq<real>>)
    ensures |ds| == |ms| && forall i :: 0 <= i < |ms| ==> ds[i] == ms[i].data
  {
    seq(|ms|, i requires 0 <= i < |ms| => ms[i].data)
  }

  function MergeAll(s: State, ms: seq<Matrix>, r: nat, c: nat): (t: State)
    requires Accepts(s, r, c) && AllShaped(ms, r, c)
    ensures Accepts(t, r, c) && t.count == s.count + |ms|
    decreases |ms|
  {
    if ms == [] then s else MergeAll(Merge(s, ms[0]), ms[1..], r, c)
  }

  /** After merging more matrices into a non-empty sum, the sum has grown by
      their element-wise total. */
  lemma {:induction false} MergeAllSum(s: State, ms: seq<Matrix>, r: nat, c: nat)
    requires Accepts(s, r, c) && AllShaped(ms, r, c) && s.count > 0
    ensures AllLength(Datas(ms), Area(r, c))
    ensures MergeAll(s, ms, r, c).sum == Matrix(r, c, Add(s.sum.data, SumAll(Datas(ms), Area(r, c))))
    decreases |ms|
  {
    var ds := Datas(ms);
    if ms == [] {
      assert s.sum.data == Add(s.sum.data, Zeros(Area(r, c)));
    } else {
      var s' := Merge(s, ms[0]);
      MergeAllSum(s', ms[1..], r, c);
      assert Datas(ms[1..]) == ds[1..];
      var rest := SumAll(ds[1..], Area(r, c));
      assert Add(s'.sum.data, rest) == Add(s.sum.data, Add(ms[0].data, rest));
    }
  }

  /** From a fresh server, the sum is the element-wise total of every matrix
      received and the reply is their element-wise mean. */
  lemma MeanOfAllMatrices(ms: seq<Matrix>, r: nat, c: nat)
    requires AllShaped(ms, r, c) && ms != []
    ensures AllLength(Datas(ms), Area(r, c))
    ensures MergeAll(Initial, ms, r, c).count == |ms|
    ensures MergeAll(Initial, ms, r, c).sum == Matrix(r, c, SumAll(Datas(ms), Area(r, c)))
    ensures Average(MergeAll(Initial, ms, r, c)) == Matrix(r, c, Mean(Datas(ms), Area(r, c)))
  {
    var s := Merge(Initial, ms[0]);
    MergeAllSum(s, ms[1..], r, c);
    assert Datas(ms[1..]) == Datas(ms)[1..];
  }

  datatype Step = Next(state: State, reply: seq<Token>, rest: seq<Token>) | Stop(end: End)

  /** One round: receive a matrix, merge it, send back the average. */
  function Round(s: State, input: seq<Token>): (r: Step)
    requires Consistent(s)
    ensures r.Next? ==> Consistent(r.state) && |r.rest| < |input|
  {
    match ReadMatrix(input)
    case Refused(f) => Stop(ReadFailed(f))
    case Received(m, rest) =>
      if !Fits(s, m) then Stop(DimensionMismatch)
      else
        var s' := Merge(s, m);
        Next(s', MatrixFrame(Average(s')), rest)
  }

  /** `handle_client` with `rounds` rounds left. */
  function Run(s: State, input: seq<Token>, rounds: nat, out: seq<Token>): (r: (State, seq<Token>, End))
    requires Consistent(s)
    ensures Consistent(r.0) && out <= r.1 && s.count <= r.0.count
    decreases rounds
  {
    if rounds == 0 then (s, out, RoundsDone)
    else
      match Round(s, input)
      case Stop(e) => (s, out, e)
      case Next(s', reply, rest) => Run(s', rest, rounds - 1, out + reply)
  }

  function Requests(ms: seq<Matrix>): seq<Token> {
    if ms == [] then [] else MatrixFrame(ms[0]) + Requests(ms[1..])
  }

  function Replies(s: State, ms: seq<Matrix>, r: nat, c: nat): seq<Token>
    requires Accepts(s, r, c) && AllShaped(ms, r, c)
    decreases |ms|
  {
    if ms == [] then []
    else
      var s' := Merge(s, ms[0]);
      MatrixFrame(Average(s')) + Replies(s', ms[1..], r, c)
  }

  /** A session receiving matrices of one shape, no more than it has rounds
      for, merges them in order and answers each with the running average;
      `left` rounds remain for what follows. */
  lemma {:induction false} SessionOfMatrices(s: State, ms: seq<Matrix>, r: nat, c: nat, tail: seq<Token>, rounds: nat, left: nat, out: seq<Token>)
    requires Accepts(s, r, c) && AllShaped(ms, r, c) && rounds == |ms| + left
    ensures SessionClaim(s, ms, r, c, tail, rounds, left, out)
    decreases |ms|
  {
    if ms == [] {
      SessionEmpty(s, ms, r, c, tail, rounds, left, out);
    } else {
      var s' := Merge(s, ms[0]);
      var frame := MatrixFrame(Average(s'));
      var rest := ms[1..];
      var rounds', out' := rounds - 1, out + frame;
      SessionOfMatrices(s', rest, r, c, tail, rounds', left, out');
      SessionCons(s, ms, r, c, tail, rounds, left, out, s', frame, rest, rounds', out');
    }
  }

  /** The claim of `SessionOfMatrices`: reading the matrices' requests from
      `s` with `rounds` rounds left merges them all, answers each in turn,
      and leaves `left` rounds for `tail`. */
  predicate SessionClaim(s: State, ms: seq<Matrix>, r: nat, c: nat, tail: seq<Token>, rounds: nat, left: nat, out: seq<Token>) {
    Accepts(s, r, c) && AllShaped(ms, r, c)
    && Run(s, Requests(ms) + tail, rounds, out) == Run(MergeAll(s, ms, r, c), tail, left, out + Replies(s, ms, r, c))
  }

  lemma SessionEmpty(s: State, ms: seq<Matrix>, r: nat, c: nat, tail: seq<Token>, rounds: nat, left: nat, out: seq<Token>)
    requires Accepts(s, r, c) && AllShaped(ms, r, c) && ms == [] && rounds == left
    ensures SessionClaim(s, ms, r, c, tail, rounds, left, out)
  {
    assert Requests(ms) + tail == tail;
    assert out + Replies(s, ms, r, c) == out;
  }

  /** The inductive step of `SessionOfMatrices`, given the claim for the
      later matrices `rest` from the state `s'` after the first one, whose
      reply is `frame`. */
  lemma SessionCons(s: State, ms: seq<Matrix>, r: nat, c: nat, tail: seq<Token>, rounds: nat, left: nat, out: seq<Token>,
                    s': State, frame: seq<Token>, rest: seq<Matrix>, rounds': nat, out': seq<Token>)
    requires Accepts(s, r, c) && AllShaped(ms, r, c) && ms != [] && rounds == |ms| + left
    requires s' == Merge(s, ms[0]) && frame == MatrixFrame(Average(s')) && rest == ms[1..]
    requires rounds' == rounds - 1 && out' == out + frame
    requires SessionClaim(s', rest, r, c, tail, rounds', left, out')
    ensures SessionClaim(s, ms, r, c, tail, rounds, left, out)
  {
    RunOfFirst(s, ms, r, c, tail, rounds, out, s', frame, rest, rounds', out');
    UnfoldMatrices(s, ms, r, c, s', frame, rest);
    AppendAssoc(out, frame, Replies(s', rest, r, c));
  }

  /** The first round of a session reads, merges and answers the first matrix. */
  lemma RunOfFirst(s: State, ms: seq<Matrix>, r: nat, c: nat, tail: seq<Token>, rounds: nat, out: seq<Token>,
                   s': State, frame: seq<Token>, rest: seq<Matrix>, rounds': nat, out': seq<Token>)
    requires Accepts(s, r, c) && AllShaped(ms, r, c) && ms != [] && rounds > 0
    requires s' == Merge(s, ms[0]) && frame == MatrixFrame(Average(s')) && rest == ms[1..]
    requires rounds' == rounds - 1 && out' == out + frame
    ensures Run(s, Requests(ms) + tail, rounds, out) == Run(s', Requests(rest) + tail, rounds', out')
  {
    RequestsCons(ms, tail);
    ReadMatrixFrame(ms[0], Requests(rest) + tail);
  }

  lemma UnfoldMatrices(s: State, ms: seq<Matrix>, r: nat, c: nat, s': State, frame: seq<Token>, rest: seq<Matrix>)
    requires Accepts(s, r, c) && AllShaped(ms, r, c) && ms != []
    requires s' == Merge(s, ms[0]) && frame == MatrixFrame(Average(s')) && rest == ms[1..]
    ensures MergeAll(s, ms, r, c) == MergeAll(s', rest, r, c)
    ensures Replies(s, ms, r, c) == frame + Replies(s', rest, r, c)
  {
  }

  lemma RequestsCons(ms: seq<Matrix>, tail: seq<Token>)
    requires ms != []
    ensures Requests(ms) + tail == MatrixFrame(ms[0]) + (Requests(ms[1..]) + tail)
  {
  }

  /** A session that has used up its rounds ends whatever else the client
      sends: as many matrices as rounds are merged and answered, and the
      session stops with `RoundsDone`. */
  lemma SessionEndsAfterLastRound(s: State, ms: seq<Matrix>, r: nat, c: nat, tail: seq<Token>, rounds: nat, out: seq<Token>)
    requires Accepts(s, r, c) && AllShaped(ms, r, c) && rounds == |ms|
    ensures Run(s, Requests(ms) + tail, rounds, out) == (MergeAll(s, ms, r, c), out + Replies(s, ms, r, c), RoundsDone)
  {
    SessionOfMatrices(s, ms, r, c, tail, rounds, 0, out);
  }

  /** The server's globals. */
  class Server {
    var globalCentroids: Matrix
    var clientsCount: nat

    function Current(): State
      reads this
    {
      State(globalCentroids, clientsCount)
    }

    ghost predicate Valid()
      reads this
    {
      Consistent(Current())
    }

    constructor ()
      ensures Current() == Initial && Valid()
    {
      globalCentroids, clientsCount := Matrix(0, 0, []), 0;
    }

    /** The locked block of one round: merge the matrix, count it, and
        return the average to send. */
    method Aggregate(localCentroids: Matrix) returns (avgCentroids: Matrix)
      requires Valid() && Shaped(localCentroids) && Fits(Current(), localCentroids)
      modifies this
      ensures Valid()
      ensures Current() == Merge(old(Current()), localCentroids)
      ensures avgCentroids == Average(Current())
    {
      if clientsCount == 0 {
        globalCentroids := localCentroids;
      } else {
        globalCentroids := Matrix(globalCentroids.rows, globalCentroids.cols, Add(globalCentroids.data, localCentroids.data));
      }
      clientsCount := clientsCount + 1;
      avgCentroids := Matrix(globalCentroids.rows, globalCentroids.cols, Div(globalCentroids.data, clientsCount as real));
    }

    /** `handle_client`: up to 100 rounds of receive, merge and reply. */
    method HandleClient(input: seq<Token>) returns (output: seq<Token>, end: End)
      requires Valid()
      modifies this
      ensures Valid()
      ensures (Current(), output, end) == Run(old(Current()), input, Rounds, [])
    {
      output := [];
      var rest := input;
      for round := 0 to Rounds
        invariant Valid()
        invariant Run(Current(), rest, Rounds - round, output) == Run(old(Current()), input, Rounds, [])
      {
        var received := ReadMatrix(rest);
        if received.Refused? {
          end := ReadFailed(received.failure);
          return;
        }
        var localCentroids := received.m;
        if !Fits(Current(), localCentroids) {
          end := DimensionMismatch;
          return;
        }
        var avgCentroids := Aggregate(localCentroids);
        output := output + MatrixFrame(avgCentroids);
        rest := received.rest;
      }
      end := RoundsDone;
    }
  }
}
