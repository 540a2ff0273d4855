/** Dense real vectors (Eigen's `VectorXd`) as sequences, with the
    element-wise operations the aggregators and clients use. */
module Vec {

  function Zeros(n: nat): (z: seq<real>)
    ensures |z| == n && forall k :: 0 <= k < n ==> z[k] == 0.0
  {
    seq(n, _ => 0.0)
  }

  function Ones(n: nat): (z: seq<real>)
    ensures |z| == n && forall k :: 0 <= k < n ==> z[k] == 1.0
  {
    seq(n, _ => 1.0)
  }

  function Add(a: seq<real>, b: seq<real>): (r: seq<real>)
    requires |a| == |b|
    ensures |r| == |a| && forall k :: 0 <= k < |a| ==> r[k] == a[k] + b[k]
  {
    seq(|a|, k requires 0 <= k < |a| => a[k] + b[k])
  }

  lemma AddAssoc(a: seq<real>, b: seq<real>, c: seq<real>)
    requires |a| == |b| == |c|
    ensures Add(Add(a, b), c) == Add(a, Add(b, c))
  {
  }

  function Sub(a: seq<real>, b: seq<real>): (r: seq<real>)
    requires |a| == |b|
    ensures |r| == |a| && forall k :: 0 <= k < |a| ==> r[k] == a[k] - b[k]
  {
    seq(|a|, k requires 0 <= k < |a| => a[k] - b[k])
  }

  function Scale(c: real, a: seq<real>): (r: seq<real>)
    ensures |r| == |a| && forall k :: 0 <= k < |a| ==> r[k] == c * a[k]
  {
    seq(|a|, k requires 0 <= k < |a| => c * a[k])
  }

  function Div(a: seq<real>, c: real): (r: seq<real>)
    requires c != 0.0
    ensures |r| == |a| && forall k :: 0 <= k < |a| ==> r[k] == a[k] / c
  {
    seq(|a|, k requires 0 <= k < |a| => a[k] / c)
  }

  function Dot(a: seq<real>, b: seq<real>): real
    requires |a| == |b|
  {
    if a == [] then 0.0 else a[0] * b[0] + Dot(a[1..], b[1..])
  }

  function Sum(xs: seq<real>): real {
    if xs == [] then 0.0 else xs[0] + Sum(xs[1..])
  }

  /** Dividing every element divides the sum. */
  lemma {:induction false} SumDiv(a: seq<real>, c: real)
    requires c != 0.0
    ensures Sum(Div(a, c)) == Sum(a) / c
  {
    if a != [] {
      SumDiv(a[1..], c);
      assert Div(a, c)[1..] == Div(a[1..], c);
      var x, y := a[0], Sum(a[1..]);
      assert x / c + y / c == (x + y) / c;
    }
  }

  /** The sum of a list of `int`s, accumulated from the left as `std::accumulate` does. */
  function SumInts(xs: seq<int>): int {
    if xs == [] then 0 else SumInts(xs[..|xs| - 1]) + xs[|xs| - 1]
  }

  lemma SumIntsSnoc(xs: seq<int>, x: int)
    ensures SumInts(xs + [x]) == SumInts(xs) + x
  {
    assert (xs + [x])[..|xs|] == xs;
  }

  predicate AllLength(vs: seq<seq<real>>, d: nat) {
    forall i :: 0 <= i < |vs| ==> |vs[i]| == d
  }

  /** The element-wise sum of a list of vectors of length `d`. */
  function SumAll(vs: seq<seq<real>>, d: nat): (r: seq<real>)
    requires AllLength(vs, d)
    ensures |r| == d
  {
    if vs == [] then Zeros(d) else Add(vs[0], SumAll(vs[1..], d))
  }

  /** The element-wise mean of a non-empty list of vectors of length `d`. */
  function Mean(vs: seq<seq<real>>, d: nat): (r: seq<real>)
    requires AllLength(vs, d) && |vs| > 0
    ensures |r| == d
  {
    Div(SumAll(vs, d), |vs| as real)
  }

  lemma {:induction false} SumAllSnoc(vs: seq<seq<real>>, v: seq<real>, d: nat)
    requires AllLength(vs, d) && |v| == d
    ensures AllLength(vs + [v], d)
    ensures SumAll(vs + [v], d) == Add(SumAll(vs, d), v)
  {
    if vs == [] {
      assert [] + [v] == [v];
      assert SumAll([v], d) == Add(v, Zeros(d));
    } else {
      assert (vs + [v])[1..] == vs[1..] + [v];
      SumAllSnoc(vs[1..], v, d);
    }
  }

  /** Summing is insensitive to the order of the vectors: moving one vector
      to the front leaves the sum unchanged. */
  lemma {:induction false} SumAllRemove(vs: seq<seq<real>>, i: nat, d: nat)
    requires AllLength(vs, d) && i < |vs|
    ensures AllLength(vs[..i] + vs[i + 1..], d)
    ensures SumAll(vs, d) == Add(vs[i], SumAll(vs[..i] + vs[i + 1..], d))
  {
    var rest := vs[..i] + vs[i + 1..];
    if i == 0 {
      assert rest == vs[1..];
    } else {
      SumAllRemove(vs[1..], i - 1, d);
      assert rest == [vs[0]] + (vs[1..][..i - 1] + vs[1..][i..]);
      assert rest[1..] == vs[1..][..i - 1] + vs[1..][i..];
    }
  }

  /** Removing entry `i` removes one occurrence of it from the multiset. */
  lemma MultisetRemove<T>(ws: seq<T>, i: nat)
    requires i < |ws|
    ensures multiset(ws[..i] + ws[i + 1..]) == multiset(ws) - multiset{ws[i]}
  {
    assert ws == ws[..i] + [ws[i]] + ws[i + 1..];
  }

  /** Lists with the same elements: every entry of one has the length of the other's. */
  lemma AllLengthPermutation(vs: seq<seq<real>>, ws: seq<seq<real>>, d: nat)
    requires AllLength(vs, d) && multiset(vs) == multiset(ws)
    ensures AllLength(ws, d)
  {
    forall j | 0 <= j < |ws| ensures |ws[j]| == d {
      assert ws[j] in multiset(vs);
    }
  }

  /** Two lists holding the same vectors, in whatever order, have the same sum. */
  lemma {:induction false} SumAllPermutation(vs: seq<seq<real>>, ws: seq<seq<real>>, d: nat)
    requires AllLength(vs, d) && multiset(vs) == multiset(ws)
    ensures AllLength(ws, d)
    ensures SumAll(vs, d) == SumAll(ws, d)
    decreases |vs|
  {
    AllLengthPermutation(vs, ws, d);
    if vs != [] {
      var i := RemovedOccurrence(vs, ws, d);
      SumAllPermutation(vs[1..], ws[..i] + ws[i + 1..], d);
      SumAllRemove(ws, i, d);
    } else {
      assert |ws| == |multiset(ws)| == 0;
    }
  }

  /** The first vector of `vs` occurs in `ws` at some `i`, and without
      them the two lists still hold the same vectors. */
  lemma RemovedOccurrence(vs: seq<seq<real>>, ws: seq<seq<real>>, d: nat) returns (i: nat)
    requires AllLength(vs, d) && multiset(vs) == multiset(ws) && vs != []
    ensures i < |ws| && ws[i] == vs[0]
    ensures AllLength(vs[1..], d) && multiset(vs[1..]) == multiset(ws[..i] + ws[i + 1..])
  {
    var v := vs[0];
    assert v in multiset(ws) by {
      assert v in multiset(vs);
    }
    i :| 0 <= i < |ws| && ws[i] == v;
    assert multiset(vs[1..]) == multiset(vs) - multiset{v} by {
      assert vs == [v] + vs[1..];
    }
    assert multiset(ws[..i] + ws[i + 1..]) == multiset(ws) - multiset{v} by {
      MultisetRemove(ws, i);
    }
    assert AllLength(vs[1..], d) by {
      assert forall k :: 0 <= k < |vs[1..]| ==> vs[1..][k] == vs[k + 1];
    }
  }
}
