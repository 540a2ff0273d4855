/** The request frame shared by the vector servers: a header of one or two
    `int`s ending with the vector size, the size check against a cap, and
    the payload of exactly that many doubles received in bounded chunks. */
module Frames {
  import opened Wire

  /** `SizeOnly`: the header is `vector_size`.
      `BatchAndSize`: the header is `batch_size` then `vector_size`. */
  datatype Header = SizeOnly | BatchAndSize

  /** Why a server session ends.  The first three are the outcomes of reading
      a request; the last two are the stops the model adds where the source's
      behaviour is undefined (a vector of the wrong length, a division by a
      zero total). */
  datatype End = HeaderFailed | InvalidSize(size: int) | PayloadFailed | DimensionMismatch | ZeroTotal

  /** A decoded request.  `batchSize` is 0 when the header carries none. */
  datatype Request = Request(batchSize: int, update: seq<real>)

  datatype Parsed = Parsed(request: Request, rest: seq<Token>) | Rejected(end: End)

  /** The size check of every vector server: a size `<= 0` or above the cap is refused. */
  predicate ValidSize(size: int, cap: int) {
    0 < size <= cap
  }

  function ReadHeader(s: seq<Token>, header: Header): (r: Read<(int, int)>)
    ensures r.Got? ==> |r.rest| < |s|
  {
    match header
    case SizeOnly =>
      (match ReadInt(s)
       case Failed => Failed
       case Got(size, rest) => Got((0, size), rest))
    case BatchAndSize =>
      (match ReadInt(s)
       case Failed => Failed
       case Got(batch, rest) =>
         (match ReadInt(rest)
          case Failed => Failed
          case Got(size, rest') => Got((batch, size), rest')))
  }

  /** Reading one request: the header, the size check, then exactly `size` doubles. */
  function ReadRequest(s: seq<Token>, header: Header, cap: int): (p: Parsed)
    ensures p.Parsed? ==> ValidSize(|p.request.update|, cap) && |p.rest| < |s|
    ensures p.Rejected? ==> p.end.HeaderFailed? || p.end.PayloadFailed? || (p.end.InvalidSize? && !ValidSize(p.end.size, cap))
  {
    match ReadHeader(s, header)
    case Failed => Rejected(HeaderFailed)
    case Got(h, rest) =>
      if !ValidSize(h.1, cap) then Rejected(InvalidSize(h.1))
      else
        match ReadDbls(rest, h.1)
        case Failed => Rejected(PayloadFailed)
        case Got(v, rest') => Parsed(Request(h.0, v), rest')
  }

  /** The header-then-chunks receive code of a vector server, with its
      chunk length and size cap. */
  method ReceiveRequest(s: seq<Token>, header: Header, cap: int, chunk: nat) returns (p: Parsed)
    requires chunk > 0
    ensures p == ReadRequest(s, header, cap)
  {
    var batchSize := 0;
    var rest := s;
    if header.BatchAndSize? {
      var b := ReadInt(rest);
      if b.Failed? {
        return Rejected(HeaderFailed);
      }
      batchSize, rest := b.value, b.rest;
    }
    var v := ReadInt(rest);
    if v.Failed? {
      return Rejected(HeaderFailed);
    }
    var vectorSize := v.value;
    if vectorSize <= 0 || vectorSize > cap {
      return Rejected(InvalidSize(vectorSize));
    }
    var payload := ReceiveInChunks(v.rest, vectorSize, chunk);
    if payload.Failed? {
      return Rejected(PayloadFailed);
    }
    p := Parsed(Request(batchSize, payload.value), payload.rest);
  }

  /** The header tokens a client writes. */
  function Prefix(header: Header, batch: int, size: int): seq<Token> {
    (if header.BatchAndSize? then [Int(batch)] else []) + [Int(size)]
  }

  /** The tokens a client writes for one request. */
  function Frame(header: Header, r: Request): (t: seq<Token>)
    ensures |t| > |r.update|
  {
    Prefix(header, r.batchSize, |r.update|) + Dbls(r.update)
  }

  /** A request a client can send under this header and cap. */
  predicate Sendable(header: Header, cap: int, r: Request) {
    ValidSize(|r.update|, cap) && (header.SizeOnly? ==> r.batchSize == 0)
  }

  /** A server reads back exactly the request a client framed, and leaves
      whatever follows it unread. */
  lemma {:induction false} ReadFrame(header: Header, cap: int, r: Request, tail: seq<Token>)
    requires Sendable(header, cap, r)
    ensures ReadRequest(Frame(header, r) + tail, header, cap) == Parsed(r, tail)
  {
    var n := |r.update|;
    var body := [Int(n)] + Dbls(r.update) + tail;
    assert body[1..] == Dbls(r.update) + tail;
    ReadDblsOfDbls(r.update, tail);
    if header.BatchAndSize? {
      var s := Frame(header, r) + tail;
      assert s == [Int(r.batchSize)] + body;
      assert s[1..] == body;
    } else {
      assert Frame(header, r) + tail == body;
    }
  }

  /** A request whose payload stops short of the announced size is rejected
      as a payload failure, whatever its values. */
  lemma {:induction false} ReadTruncated(header: Header, cap: int, batch: int, size: int, partial: seq<real>)
    requires ValidSize(size, cap) && |partial| < size
    ensures ReadRequest(Prefix(header, batch, size) + Dbls(partial), header, cap) == Rejected(PayloadFailed)
  {
    var body := [Int(size)] + Dbls(partial);
    assert body[1..] == Dbls(partial);
    if header.BatchAndSize? {
      var s := [Int(batch)] + body;
      assert s[1..] == body;
      assert Prefix(header, batch, size) + Dbls(partial) == s;
    } else {
      assert Prefix(header, batch, size) + Dbls(partial) == body;
    }
  }

  /** Reading from an empty stream fails at the header. */
  lemma ReadClosed(header: Header, cap: int)
    ensures ReadRequest([], header, cap) == Rejected(HeaderFailed)
  {
  }
}
