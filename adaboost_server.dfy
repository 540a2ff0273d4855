/** Adaboost/server.cpp: every session appends the learners a client sends
    to one global list shared by all sessions, and answers each round with
    the (at most) 20 learners of largest vote weight in the whole list. */
module AdaBoostServer {
  import opened Wire
  import opened Vec
  import opened Stumps

  /** The number of learners a reply carries at most. */
  const TopCount := 20

  // ---------------------------------------------------------------------------
  // Decoding a request

  /** `deserialize_learners(serialized, num_learners)`: learner `i` is read
      from values `3i .. 3i + 2`, for every `i` below `num_learners` (none
      when it is negative).  The buffer must hold all of them. */
  method DeserializeLearners(serialized: seq<real>, numLearners: int) returns (learners: seq<WeakLearner>)
    requires 3 * numLearners <= |serialized|
    ensures learners == Learners(serialized, if numLearners < 0 then 0 else numLearners)
  {
    learners := [];
    var i := 0;
    while i < numLearners
      invariant 0 <= i <= (if numLearners < 0 then 0 else numLearners) && 3 * i <= |serialized|
      invariant learners == Learners(serialized, i)
      decreases numLearners - i
    {
      var learner := WeakLearner(TruncateToInt(serialized[3 * i]), serialized[3 * i + 1], serialized[3 * i + 2]);
      learners := learners + [learner];
      i := i + 1;
    }
  }

  // ---------------------------------------------------------------------------
  // Ranking by vote weight

  /** Non-increasing in `alpha`, the order `std::sort` with `a.alpha > b.alpha` produces. */
  predicate SortedByAlpha(ls: seq<WeakLearner>) {
    forall i, j :: 0 <= i < j < |ls| ==> ls[i].alpha >= ls[j].alpha
  }

  /** Inserting one learner into a list sorted by weight, before the
      first learner it weighs at least as much as. */
  function Insert(l: WeakLearner, ls: seq<WeakLearner>): seq<WeakLearner> {
    if ls == [] || l.alpha >= ls[0].alpha then [l] + ls else [ls[0]] + Insert(l, ls[1..])
  }

  /** Insertion keeps a list sorted and adds exactly the one learner. */
  lemma {:induction false} InsertSorted(l: WeakLearner, ls: seq<WeakLearner>)
    requires SortedByAlpha(ls)
    ensures SortedByAlpha(Insert(l, ls))
    ensures multiset(Insert(l, ls)) == multiset(ls) + multiset{l}
    ensures Insert(l, ls)[0] == l || (ls != [] && Insert(l, ls)[0] == ls[0])
  {
    if ls == [] || l.alpha >= ls[0].alpha {
      SortedCons(l, ls);
    } else {
      var tail := ls[1..];
      InsertSorted(l, tail);
      var r' := Insert(l, tail);
      assert ls == [ls[0]] + tail;
      assert tail != [] ==> tail[0] == ls[1];
      SortedCons(ls[0], r');
    }
  }

  /** A learner weighing at least as much as the head of a sorted list can go in front of it. */
  lemma SortedCons(l: WeakLearner, ls: seq<WeakLearner>)
    requires SortedByAlpha(ls) && (ls != [] ==> l.alpha >= ls[0].alpha)
    ensures SortedByAlpha([l] + ls)
  {
    var r := [l] + ls;
    forall i, j | 0 <= i < j < |r| ensures r[i].alpha >= r[j].alpha {
      if i == 0 && j > 1 {
        assert ls[0].alpha >= ls[j - 1].alpha;
      }
    }
  }

  /** One ordering of the learners by non-increasing weight.  Learners of
      equal weight may come in any order from `std::sort`; this is one of
      them, and `TopLearners` holds for every other one as well. */
  function SortByAlpha(ls: seq<WeakLearner>): (r: seq<WeakLearner>)
    ensures SortedByAlpha(r) && multiset(r) == multiset(ls)
  {
    if ls == [] then []
    else
      var sorted := SortByAlpha(ls[1..]);
      InsertSorted(ls[0], sorted);
      assert ls == [ls[0]] + ls[1..];
      Insert(ls[0], sorted)
  }

  /** `top_N_learners`: the first `min(20, n)` learners of the sorted list. */
  function TopN(sorted: seq<WeakLearner>): seq<WeakLearner> {
    sorted[..Min(TopCount, |sorted|)]
  }

  /** Whatever order `std::sort` leaves equal weights in, the reply holds
      `min(20, n)` of the aggregated learners, sorted by weight, and no
      learner left out outweighs one that is sent. */
  lemma TopLearners(aggregated: seq<WeakLearner>, sorted: seq<WeakLearner>)
    requires SortedByAlpha(sorted) && multiset(sorted) == multiset(aggregated)
    ensures |TopN(sorted)| == Min(TopCount, |aggregated|)
    ensures SortedByAlpha(TopN(sorted))
    ensures multiset(TopN(sorted)) <= multiset(aggregated)
    ensures forall x, y :: x in multiset(aggregated) - multiset(TopN(sorted)) && y in TopN(sorted) ==> x.alpha <= y.alpha
  {
    assert |sorted| == |multiset(sorted)| == |aggregated|;
    var n := Min(TopCount, |sorted|);
    var top, left := sorted[..n], sorted[n..];
    assert sorted == top + left;
    assert multiset(aggregated) - multiset(top) == multiset(left);
    PrefixDominates(sorted, n);
  }

  /** In a sorted list, nothing after position `n` outweighs anything before it. */
  lemma PrefixDominates(sorted: seq<WeakLearner>, n: nat)
    requires SortedByAlpha(sorted) && n <= |sorted|
    ensures forall x, y :: x in multiset(sorted[n..]) && y in sorted[..n] ==> x.alpha <= y.alpha
  {
    var top, left := sorted[..n], sorted[n..];
    forall x: WeakLearner, y: WeakLearner | x in multiset(left) && y in top ensures x.alpha <= y.alpha {
      var j :| 0 <= j < |left| && left[j] == x;
      var i :| 0 <= i < |top| && top[i] == y;
      assert sorted[i] == y && sorted[n + j] == x;
    }
  }

  // ---------------------------------------------------------------------------
  // Prediction

  /** Every learner tests a feature the sample has. */
  predicate InRange(ls: seq<WeakLearner>, d: nat) {
    forall k :: 0 <= k < |ls| ==> 0 <= ls[k].featureIndex < d
  }

  /** One learner's weighted vote on the sample. */
  function Term(sample: seq<real>, l: WeakLearner): real
    requires 0 <= l.featureIndex < |sample|
  {
    l.alpha * Vote(sample[l.featureIndex], l.threshold)
  }

  /** The total learner weight, the sum of `|alpha|` over the list. */
  function AlphaMass(ls: seq<WeakLearner>): (m: real)
    ensures m >= 0.0
  {
    if ls == [] then 0.0
    else AlphaMass(ls[..|ls| - 1]) + (if ls[|ls| - 1].alpha < 0.0 then -ls[|ls| - 1].alpha else ls[|ls| - 1].alpha)
  }

  /** The weighted vote `sum of alpha * stump`, accumulated in list order;
      each stump votes +1 or -1, so the score never leaves the range
      spanned by the total learner weight. */
  function Score(sample: seq<real>, ls: seq<WeakLearner>): (r: real)
    requires InRange(ls, |sample|)
    ensures -AlphaMass(ls) <= r <= AlphaMass(ls)
  {
    if ls == [] then 0.0 else Score(sample, ls[..|ls| - 1]) + Term(sample, ls[|ls| - 1])
  }

  /** `predict_adaboost`: +1 when the weighted vote is non-negative, -1 otherwise. */
  method PredictAdaboost(sample: seq<real>, learners: seq<WeakLearner>) returns (result: real)
    requires InRange(learners, |sample|)
    ensures result == 1.0 <==> Score(sample, learners) >= 0.0
    ensures result == 1.0 || result == -1.0
  {
    var prediction := 0.0;
    for k := 0 to |learners|
      invariant prediction == Score(sample, learners[..k])
    {
      var learner := learners[k];
      assert learners[..k + 1][..k] == learners[..k];
      var stump := if sample[learner.featureIndex] <= learner.threshold then 1.0 else -1.0;
      assert learner.alpha * stump == Term(sample, learner);
      prediction := prediction + learner.alpha * stump;
    }
    assert learners[..|learners|] == learners;
    result := if prediction >= 0.0 then 1.0 else -1.0;
  }

  /** The vote of two lists is the sum of their votes. */
  lemma {:induction false} ScoreAppend(sample: seq<real>, a: seq<WeakLearner>, b: seq<WeakLearner>)
    requires InRange(a, |sample|) && InRange(b, |sample|)
    ensures InRange(a + b, |sample|)
    ensures Score(sample, a + b) == Score(sample, a) + Score(sample, b)
    decreases |b|
  {
    var ab := a + b;
    if b == [] {
      assert ab == a;
    } else {
      var init := b[..|b| - 1];
      assert ab[..|ab| - 1] == a + init;
      ScoreAppend(sample, a, init);
    }
  }

  /** The prediction does not depend on the order of the learners: any
      rearrangement of a list scores the same. */
  lemma {:induction false} ScorePermutation(sample: seq<real>, a: seq<WeakLearner>, b: seq<WeakLearner>)
    requires InRange(a, |sample|) && multiset(a) == multiset(b)
    ensures InRange(b, |sample|)
    ensures Score(sample, a) == Score(sample, b)
    decreases |a|
  {
    InRangePermutation(sample, a, b);
    if a == [] {
      assert |b| == |multiset(b)| == 0;
    } else {
      var x := a[|a| - 1];
      var a' := a[..|a| - 1];
      MultisetRemove(a, |a| - 1);
      assert a[..|a| - 1] + a[|a|..] == a';
      assert x in multiset(b);
      var i :| 0 <= i < |b| && b[i] == x;
      var b' := b[..i] + b[i + 1..];
      MultisetRemove(b, i);
      ScorePermutation(sample, a', b');
      ScoreRemove(sample, b, i);
      ScoreLast(sample, a);
      var sa, sb, sa', sb', sx := Score(sample, a), Score(sample, b), Score(sample, a'), Score(sample, b'), Score(sample, [x]);
      assert sa == sa' + sx && sb == sb' + sx && sa' == sb';
    }
  }

  lemma ScoreLast(sample: seq<real>, a: seq<WeakLearner>)
    requires InRange(a, |sample|) && a != []
    ensures InRange([a[|a| - 1]], |sample|)
    ensures Score(sample, a) == Score(sample, a[..|a| - 1]) + Score(sample, [a[|a| - 1]])
  {
    var y := a[|a| - 1];
    assert [y][..0] == [];
  }

  lemma InRangePermutation(sample: seq<real>, a: seq<WeakLearner>, b: seq<WeakLearner>)
    requires InRange(a, |sample|) && multiset(a) == multiset(b)
    ensures InRange(b, |sample|)
  {
    forall k | 0 <= k < |b| ensures 0 <= b[k].featureIndex < |sample| {
      assert b[k] in multiset(a);
    }
  }

  /** Taking learner `i` out of a list takes its term out of the vote. */
  lemma ScoreRemove(sample: seq<real>, b: seq<WeakLearner>, i: nat)
    requires InRange(b, |sample|) && i < |b|
    ensures InRange(b[..i] + b[i + 1..], |sample|)
    ensures Score(sample, b) == Score(sample, b[..i] + b[i + 1..]) + Score(sample, [b[i]])
  {
    var before, x, after := b[..i], [b[i]], b[i + 1..];
    assert b == before + x + after;
    ScoreAppend(sample, before, after);
    ScoreAppend(sample, before, x);
    ScoreAppend(sample, before + x, after);
  }

  // ---------------------------------------------------------------------------
  // Sessions (`handle_client`)

  /** The reply: the number of values, then the values of the learners. */
  function ReplyFrame(ls: seq<WeakLearner>): seq<Token> {
    [Int(|Serialized(ls)|)] + Dbls(Serialized(ls))
  }

  /** Why a session ends: the client closed the connection before a new
      round; a later read of the round failed; the announced size is
      negative (the buffer cannot be allocated); or the count names more
      learners than the buffer holds. */
  datatype End = Closed | HeaderFailed | NegativeSize | PayloadFailed | OutOfRange

  datatype Step = Next(aggregated: seq<WeakLearner>, reply: seq<Token>, rest: seq<Token>) | Stop(end: End)

  /** One round: read the learners, append them, answer with the top 20. */
  function Round(aggregated: seq<WeakLearner>, s: seq<Token>): (r: Step)
    ensures r.Next? ==> |r.rest| < |s|
    ensures r.Next? ==> |aggregated| <= |r.aggregated| && r.aggregated[..|aggregated|] == aggregated
  {
    match ReadInt(s)
    case Failed => Stop(Closed)
    case Got(numLearners, s1) =>
      match ReadInt(s1)
      case Failed => Stop(HeaderFailed)
      case Got(vecSize, s2) =>
        if vecSize < 0 then Stop(NegativeSize)
        else
          match ReadDbls(s2, vecSize)
          case Failed => Stop(PayloadFailed)
          case Got(serialized, rest) =>
            if 3 * numLearners > vecSize then Stop(OutOfRange)
            else
              var next := aggregated + Learners(serialized, if numLearners < 0 then 0 else numLearners);
              assert next[..|aggregated|] == aggregated;
              Next(next, ReplyFrame(TopN(SortByAlpha(next))), rest)
  }

  /** The whole session: rounds until one ends it.  The learners of every
      completed round stay in the list, which only ever grows at its end. */
  function Run(aggregated: seq<WeakLearner>, s: seq<Token>, out: seq<Token>): (r: (seq<WeakLearner>, seq<Token>, End))
    ensures |aggregated| <= |r.0| && r.0[..|aggregated|] == aggregated
    decreases |s|
  {
    match Round(aggregated, s)
    case Stop(e) => (aggregated, out, e)
    case Next(next, reply, rest) =>
      var r := Run(next, rest, out + reply);
      assert r.0[..|aggregated|] == r.0[..|next|][..|aggregated|];
      r
  }

  /** Lines 78-93: sort a copy, keep the first `min(20, n)`, write them. */
  method Reply(aggregated: seq<WeakLearner>) returns (reply: seq<Token>)
    ensures reply == ReplyFrame(TopN(SortByAlpha(aggregated)))
  {
    var topLearners := SortByAlpha(aggregated);
    var n := Min(TopCount, |topLearners|);
    var topNLearners := topLearners[..n];
    var globalSerialized := SerializeLearners(topNLearners);
    var globalVecSize := |globalSerialized|;
    reply := [Int(globalVecSize)] + Dbls(globalSerialized);
  }

  /** The global `aggregated_learners`. */
  class Server {
    var aggregatedLearners: seq<WeakLearner>

    constructor ()
      ensures aggregatedLearners == []
    {
      aggregatedLearners := [];
    }

    /** `handle_client`: rounds until the client closes the connection or a read fails. */
    method HandleClient(input: seq<Token>) returns (output: seq<Token>, end: End)
      modifies this
      ensures (aggregatedLearners, output, end) == Run(old(aggregatedLearners), input, [])
    {
      output := [];
      var rest := input;
      while true
        invariant Run(aggregatedLearners, rest, output) == Run(old(aggregatedLearners), input, [])
        decreases |rest|
      {
        var header := ReadInt(rest);
        if header.Failed? {
          return output, Closed;
        }
        var numLearners := header.value;
        var size := ReadInt(header.rest);
        if size.Failed? {
          return output, HeaderFailed;
        }
        var vecSize := size.value;
        if vecSize < 0 {
          return output, NegativeSize;
        }
        var payload := ReadDbls(size.rest, vecSize);
        if payload.Failed? {
          return output, PayloadFailed;
        }
        if 3 * numLearners > vecSize {
          return output, OutOfRange;
        }
        var learners := DeserializeLearners(payload.value, numLearners);
        aggregatedLearners := aggregatedLearners + learners;
        var reply := Reply(aggregatedLearners);
        output := output + reply;
        rest := payload.rest;
      }
    }
  }
}
