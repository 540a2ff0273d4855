/** The weak learners of federated AdaBoost: decision stumps on one
    feature, with the vote weight `alpha` the client computed for them,
    and the flat list of doubles both sides exchange them as (three
    values per learner: feature index, threshold, alpha). */
module Stumps {
  import opened Wire

  datatype WeakLearner = WeakLearner(featureIndex: int, threshold: real, alpha: real)

  /** The stump's vote on a feature value: +1 at or below the threshold,
      -1 above it. */
  function Vote(x: real, threshold: real): (v: real)
    ensures v == 1.0 || v == -1.0
    ensures v == 1.0 <==> x <= threshold
  {
    if x <= threshold then 1.0 else -1.0
  }

  /** `static_cast<int>` of a double: truncation toward zero. */
  function TruncateToInt(x: real): (n: int)
    ensures 0.0 <= x ==> 0 <= n && n as real <= x < n as real + 1.0
    ensures x < 0.0 ==> n <= 0 && n as real - 1.0 < x <= n as real
  {
    if 0.0 <= x then x.Floor else -((-x).Floor)
  }

  /** The three values one learner is written as. */
  function Triple(l: WeakLearner): seq<real> {
    [l.featureIndex as real, l.threshold, l.alpha]
  }

  /** `serialize_learners`: the triples of the learners, in order. */
  function Serialized(ls: seq<WeakLearner>): (v: seq<real>)
    ensures |v| == 3 * |ls|
  {
    if ls == [] then [] else Serialized(ls[..|ls| - 1]) + Triple(ls[|ls| - 1])
  }

  /** Value `3k + j` of the serialisation is field `j` of learner `k`. */
  lemma {:induction false} SerializedAt(ls: seq<WeakLearner>, k: nat)
    requires k < |ls|
    ensures Serialized(ls)[3 * k] == ls[k].featureIndex as real
    ensures Serialized(ls)[3 * k + 1] == ls[k].threshold
    ensures Serialized(ls)[3 * k + 2] == ls[k].alpha
    decreases |ls|
  {
    var init := ls[..|ls| - 1];
    assert Serialized(ls) == Serialized(init) + Triple(ls[|ls| - 1]);
    if k < |ls| - 1 {
      SerializedAt(init, k);
    }
  }

  /** The learner held in values `3k`, `3k + 1` and `3k + 2`. */
  function LearnerAt(v: seq<real>, k: nat): (l: WeakLearner)
    requires 3 * k + 2 < |v|
    ensures l.threshold == v[3 * k + 1] && l.alpha == v[3 * k + 2]
  {
    WeakLearner(TruncateToInt(v[3 * k]), v[3 * k + 1], v[3 * k + 2])
  }

  /** The first `n` learners held in `v`. */
  function Learners(v: seq<real>, n: nat): (ls: seq<WeakLearner>)
    requires 3 * n <= |v|
    ensures |ls| == n
    ensures forall k :: 0 <= k < n ==> ls[k] == LearnerAt(v, k)
  {
    seq(n, k requires 0 <= k < n => LearnerAt(v, k))
  }

  /** Decoding the serialisation of a list of learners gives the list back. */
  lemma RoundTrip(ls: seq<WeakLearner>)
    ensures Learners(Serialized(ls), |ls|) == ls
  {
    var v := Serialized(ls);
    forall k | 0 <= k < |ls| ensures LearnerAt(v, k) == ls[k] {
      SerializedAt(ls, k);
    }
  }

  /** Reading as many whole triples as a buffer holds ignores a trailing
      partial triple: the learners come back whatever one or two values follow. */
  lemma RoundTripWithTrailer(ls: seq<WeakLearner>, extra: seq<real>)
    requires |extra| < 3
    ensures |Serialized(ls) + extra| / 3 == |ls|
    ensures Learners(Serialized(ls) + extra, |Serialized(ls) + extra| / 3) == ls
  {
    var v := Serialized(ls);
    var w := v + extra;
    assert |w| == 3 * |ls| + |extra|;
    forall k | 0 <= k < |ls| ensures LearnerAt(w, k) == ls[k] {
      SerializedAt(ls, k);
      assert w[3 * k] == v[3 * k] && w[3 * k + 1] == v[3 * k + 1] && w[3 * k + 2] == v[3 * k + 2];
    }
  }

  /** `serialize_learners`: one `push_back` per field, learner by learner. */
  method SerializeLearners(learners: seq<WeakLearner>) returns (serialized: seq<real>)
    ensures serialized == Serialized(learners)
  {
    serialized := [];
    for k := 0 to |learners|
      invariant serialized == Serialized(learners[..k])
    {
      var learner := learners[k];
      assert learners[..k + 1][..k] == learners[..k];
      serialized := serialized + [learner.featureIndex as real];
      serialized := serialized + [learner.threshold];
      serialized := serialized + [learner.alpha];
    }
    assert learners[..|learners|] == learners;
  }
}
