/** Eigen's dense `MatrixXd` and the matrix frame of KMeans/server.cpp and
    KMeans/client.cpp (both files hold identical `send_matrix` and
    `receive_matrix`): the row count, the column count, then every entry in
    the matrix's own storage order, which is column-major. */
module Matrices {
  import opened Wire

  /** A `rows` by `cols` matrix with its entries in column-major order:
      entry (i, j) is `data[i + j * rows]`. */
  datatype Matrix = Matrix(rows: int, cols: int, data: seq<real>)

  /** `rows * cols`, the number of entries; defined by repeated addition so
      that the product only enters a proof through `AreaProduct`. */
  function Area(r: nat, c: nat): nat {
    if r == 0 then 0 else Area(r - 1, c) + c
  }

  lemma {:induction false} AreaProduct(r: nat, c: nat)
    ensures Area(r, c) == r * c
  {
    if r > 0 {
      AreaProduct(r - 1, c);
    }
  }

  predicate Shaped(m: Matrix) {
    m.rows >= 0 && m.cols >= 0 && |m.data| == Area(m.rows, m.cols)
  }

  lemma CellIndex(r: nat, c: nat, i: nat, j: nat)
    requires i < r && j < c
    ensures i + j * r < r * c
  {
    assert j * r <= (c - 1) * r;
    assert (c - 1) * r == r * c - r;
  }

  lemma SplitIndex(r: nat, c: nat, k: nat)
    requires k < r * c
    ensures r > 0 && k / r < c && k % r < r && k % r + (k / r) * r == k
  {
  }

  lemma MulGap(d: int, r: int)
    requires r > 0 && d != 0
    ensures d * r >= r || d * r <= -r
  {
    if d > 0 {
      var e := d - 1;
      assert e * r >= 0;
      assert d * r == e * r + r;
    } else {
      var e := -d - 1;
      assert e * r >= 0;
      assert d * r == -(e * r) - r;
    }
  }

  lemma JoinIndex(r: nat, i: nat, j: nat)
    requires i < r
    ensures (i + j * r) / r == j && (i + j * r) % r == i
  {
    var k := i + j * r;
    var q, m := k / r, k % r;
    assert q * r + m == j * r + i;
    assert (q - j) * r == i - m;
    if q != j {
      MulGap(q - j, r);
    }
  }

  /** `m(i, j)`. */
  function At(m: Matrix, i: int, j: int): real
    requires Shaped(m) && 0 <= i < m.rows && 0 <= j < m.cols
  {
    CellIndex(m.rows, m.cols, i, j);
    AreaProduct(m.rows, m.cols);
    m.data[i + j * m.rows]
  }

  /** `m.row(i)`. */
  function Row(m: Matrix, i: int): (r: seq<real>)
    requires Shaped(m) && 0 <= i < m.rows
    ensures |r| == m.cols && forall j :: 0 <= j < m.cols ==> r[j] == At(m, i, j)
  {
    seq(m.cols, j requires 0 <= j < m.cols => At(m, i, j))
  }

  /** The matrix as its list of rows. */
  function RowsOf(m: Matrix): (cells: seq<seq<real>>)
    requires Shaped(m)
    ensures |cells| == m.rows && forall i :: 0 <= i < m.rows ==> cells[i] == Row(m, i)
  {
    seq(m.rows, i requires 0 <= i < m.rows => Row(m, i))
  }

  predicate Rectangular(cells: seq<seq<real>>, c: int) {
    forall i :: 0 <= i < |cells| ==> |cells[i]| == c
  }

  function Entry(cells: seq<seq<real>>, c: nat, k: int): real
    requires Rectangular(cells, c) && 0 <= k < Area(|cells|, c)
  {
    AreaProduct(|cells|, c);
    SplitIndex(|cells|, c, k);
    cells[k % |cells|][k / |cells|]
  }

  /** The matrix whose rows are `cells`, each of length `c`, laid out column-major. */
  function FromRows(cells: seq<seq<real>>, c: nat): (m: Matrix)
    requires Rectangular(cells, c)
    ensures Shaped(m) && m.rows == |cells| && m.cols == c
    ensures forall i, j :: 0 <= i < |cells| && 0 <= j < c ==> At(m, i, j) == cells[i][j]
  {
    var r := |cells|;
    var m := Matrix(r, c, seq(Area(r, c), k requires 0 <= k < Area(r, c) => Entry(cells, c, k)));
    AreaProduct(r, c);
    forall i, j | 0 <= i < r && 0 <= j < c
      ensures At(m, i, j) == cells[i][j]
    {
      CellIndex(r, c, i, j);
      JoinIndex(r, i, j);
    }
    m
  }

  /** Building a matrix from rows and reading its rows back is the identity. */
  lemma RowsOfFromRows(cells: seq<seq<real>>, c: nat)
    requires Rectangular(cells, c)
    ensures RowsOf(FromRows(cells, c)) == cells
  {
    var m := FromRows(cells, c);
    forall i | 0 <= i < |cells|
      ensures Row(m, i) == cells[i]
    {
    }
  }

  /** Every shaped matrix is the column-major layout of its rows. */
  lemma FromRowsOfRows(m: Matrix)
    requires Shaped(m)
    ensures FromRows(RowsOf(m), m.cols) == m
  {
    var cells := RowsOf(m);
    var m' := FromRows(cells, m.cols);
    AreaProduct(m.rows, m.cols);
    forall k | 0 <= k < m.rows * m.cols
      ensures m'.data[k] == m.data[k]
    {
      SplitIndex(m.rows, m.cols, k);
      var i, j := k % m.rows, k / m.rows;
      assert m'.data[k] == Entry(cells, m.cols, k) == cells[i][j];
      assert cells[i][j] == At(m, i, j) == m.data[i + j * m.rows];
      assert i + j * m.rows == k;
    }
    assert m'.data == m.data;
  }

  /** Why reading a matrix failed: a missing dimension, a negative one
      (which Eigen's `resize` does not accept), or a short payload. */
  datatype Failure = HeaderFailed | NegativeShape | PayloadFailed

  datatype Received = Received(m: Matrix, rest: seq<Token>) | Refused(failure: Failure)

  /** `receive_matrix`: rows, cols, then `rows * cols` doubles into the storage. */
  function ReadMatrix(s: seq<Token>): (r: Received)
    ensures r.Received? ==> Shaped(r.m) && |r.rest| < |s|
  {
    match ReadInt(s)
    case Failed => Refused(HeaderFailed)
    case Got(rows, s1) =>
      match ReadInt(s1)
      case Failed => Refused(HeaderFailed)
      case Got(cols, s2) =>
        if rows < 0 || cols < 0 then Refused(NegativeShape)
        else
          match ReadDbls(s2, Area(rows, cols))
          case Failed => Refused(PayloadFailed)
          case Got(v, s3) => Received(Matrix(rows, cols, v), s3)
  }

  /** `send_matrix`: the tokens written for a matrix. */
  function MatrixFrame(m: Matrix): (t: seq<Token>)
    ensures |t| == 2 + |m.data|
  {
    [Int(m.rows), Int(m.cols)] + Dbls(m.data)
  }

  /** `receive_matrix` reads back exactly the matrix `send_matrix` wrote,
      and leaves whatever follows it unread. */
  lemma {:induction false} ReadMatrixFrame(m: Matrix, tail: seq<Token>)
    requires Shaped(m)
    ensures ReadMatrix(MatrixFrame(m) + tail) == Received(m, tail)
  {
    var s := MatrixFrame(m) + tail;
    assert s[1..][1..] == Dbls(m.data) + tail;
    ReadDblsOfDbls(m.data, tail);
  }
}
