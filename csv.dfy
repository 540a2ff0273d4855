/** The text handling shared by the three `load_data` functions: the file
    is read line by line with `std::getline`, and each line is split into
    fields with `std::getline(ss, value, ',')`.  Both are the same
    operation, splitting at a delimiter, and a final delimiter starts no
    further piece.  The number conversions `std::stod`, `std::stof` and
    `std::stoi` are parameters: they either yield a number or throw. */
module Csv {
  /** A conversion's outcome: a number, or the exception it throws. */
  datatype Number<T> = Parsed(value: T) | Invalid

  /** The index of the first delimiter at or after `i`, or `|s|`. */
  function PieceEnd(s: string, d: char, i: nat): (j: nat)
    requires i <= |s|
    ensures i <= j <= |s| && (j < |s| ==> s[j] == d)
    ensures forall k :: i <= k < j ==> s[k] != d
    decreases |s| - i
  {
    if i == |s| || s[i] == d then i else PieceEnd(s, d, i + 1)
  }

  /** The pieces `std::getline` returns, one call after another, until it
      fails: everything up to each delimiter, then the rest if non-empty. */
  function Split(s: string, d: char): (r: seq<string>)
    ensures |r| <= |s|
    decreases |s|
  {
    if s == [] then []
    else
      var j := PieceEnd(s, d, 0);
      if j == |s| then [s] else [s[..j]] + Split(s[j + 1..], d)
  }

  /** The lines after the header. */
  function DataLines(content: string): seq<string> {
    var lines := Split(content, '\n');
    if lines == [] then [] else lines[1..]
  }

  /** No piece holds the delimiter, and there are no pieces exactly when
      there is no text. */
  lemma {:induction false} SplitPieces(s: string, d: char)
    ensures Split(s, d) == [] <==> s == []
    ensures forall k, i :: 0 <= k < |Split(s, d)| && 0 <= i < |Split(s, d)[k]| ==> Split(s, d)[k][i] != d
    decreases |s|
  {
    if s != [] {
      var j := PieceEnd(s, d, 0);
      if j < |s| {
        SplitPieces(s[j + 1..], d);
      }
    }
  }

  /** Each piece followed by the delimiter. */
  function Terminated(pieces: seq<string>, d: char): string {
    if pieces == [] then [] else pieces[0] + [d] + Terminated(pieces[1..], d)
  }

  /** Splitting is the inverse of writing each piece followed by the
      delimiter, for pieces without the delimiter (empty ones included). */
  lemma {:induction false} SplitTerminated(pieces: seq<string>, d: char)
    requires forall k, i :: 0 <= k < |pieces| && 0 <= i < |pieces[k]| ==> pieces[k][i] != d
    ensures Split(Terminated(pieces, d), d) == pieces
  {
    if pieces != [] {
      var s := Terminated(pieces, d);
      var p := pieces[0];
      assert s == p + ([d] + Terminated(pieces[1..], d));
      FirstDelimiter(s, d, |p|);
      assert s[..|p|] == p;
      assert s[|p| + 1..] == Terminated(pieces[1..], d);
      SplitTerminated(pieces[1..], d);
    }
  }

  /** The first delimiter of `s` is at `j`. */
  lemma FirstDelimiter(s: string, d: char, j: nat)
    requires j < |s| && s[j] == d
    requires forall k :: 0 <= k < j ==> s[k] != d
    ensures PieceEnd(s, d, 0) == j
  {
  }

  /** A trailing delimiter after the last piece adds no empty piece: text
      that does not already end with the delimiter splits the same with
      one more delimiter. */
  lemma {:induction false} TrailingDelimiter(s: string, d: char)
    requires s != [] && s[|s| - 1] != d
    ensures Split(s + [d], d) == Split(s, d)
    decreases |s|
  {
    var t := s + [d];
    var j := PieceEnd(s, d, 0);
    if j == |s| {
      FirstDelimiter(t, d, |s|);
      assert t[..|s|] == s;
      assert t[|s| + 1..] == [];
    } else {
      FirstDelimiter(t, d, j);
      assert t[..j] == s[..j];
      assert t[j + 1..] == s[j + 1..] + [d];
      TrailingDelimiter(s[j + 1..], d);
    }
  }

  /** One `std::getline(stream, value, d)` on the text `s` read up to
      position `pos`: it fails at the end of the text; otherwise it yields
      the next piece and moves past its delimiter. */
  method Getline(s: string, pos: nat, d: char) returns (ok: bool, value: string, next: nat)
    requires pos <= |s|
    ensures ok <==> pos < |s|
    ensures ok ==> pos < next <= |s| && Split(s[pos..], d) == [value] + Split(s[next..], d)
    ensures !ok ==> Split(s[pos..], d) == []
  {
    if pos == |s| {
      return false, [], pos;
    }
    var i := pos;
    while i < |s| && s[i] != d
      invariant pos <= i <= |s|
      invariant forall k :: pos <= k < i ==> s[k] != d
    {
      i := i + 1;
    }
    value := s[pos..i];
    ghost var t := s[pos..];
    if i < |s| {
      FirstDelimiter(t, d, i - pos);
      assert t[..i - pos] == value;
      assert t[i - pos + 1..] == s[i + 1..];
      next := i + 1;
    } else {
      assert PieceEnd(t, d, 0) == |t|;
      assert t == value;
      assert s[i..] == [];
      next := i;
    }
    ok := true;
  }

  /** The `row_values` loop of the linear loader: every field of a line, in order. */
  method SplitLine(line: string, d: char) returns (values: seq<string>)
    ensures values == Split(line, d)
  {
    values := [];
    var pos := 0;
    var ok := true;
    while ok
      invariant pos <= |line|
      invariant values + Split(line[pos..], d) == Split(line, d)
      invariant !ok ==> Split(line[pos..], d) == []
      decreases |line| - pos, ok
    {
      var value, next;
      ok, value, next := Getline(line, pos, d);
      if ok {
        values := values + [value];
        pos := next;
      }
    }
    assert values + [] == values;
  }

  /** Every piece of `pieces` converted in order; the first piece that
      does not convert makes the whole conversion throw. */
  function ParseAll<T>(pieces: seq<string>, parse: string -> Number<T>): (r: Number<seq<T>>)
    ensures r.Parsed? ==> |r.value| == |pieces|
    ensures r.Parsed? <==> forall k :: 0 <= k < |pieces| ==> parse(pieces[k]).Parsed?
    ensures r.Parsed? ==> forall k :: 0 <= k < |pieces| ==> r.value[k] == parse(pieces[k]).value
  {
    if pieces == [] then Parsed([])
    else match parse(pieces[0])
      case Invalid => Invalid
      case Parsed(v) =>
        match ParseAll(pieces[1..], parse)
        case Invalid => Invalid
        case Parsed(vs) => Parsed([v] + vs)
  }
}
