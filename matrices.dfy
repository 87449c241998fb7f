/** Dense real matrices with an explicit shape, and the NumPy operations
    the fitter applies to them: zero buffers, block embedding, column
    slicing, concatenation and matrix products. */
module Matrices {
  import opened Common

  /** A 2-D array: a matrix with no rows still has a definite width. */
  datatype Matrix = Matrix(rows: nat, cols: nat, cells: seq<seq<real>>)
  {
    predicate Valid()
    {
      |cells| == rows && forall i :: 0 <= i < |cells| ==> |cells[i]| == cols
    }
  }

  function Constant(rows: nat, cols: nat, v: real): (m: Matrix)
    ensures m.Valid() && m.rows == rows && m.cols == cols
    ensures forall i, j :: 0 <= i < rows && 0 <= j < cols ==> m.cells[i][j] == v
  {
    Matrix(rows, cols, seq(rows, _ => seq(cols, _ => v)))
  }

  /** `onp.zeros((rows, cols))` */
  function Zeros(rows: nat, cols: nat): (m: Matrix)
    ensures m.Valid() && m.rows == rows && m.cols == cols
    ensures forall i, j :: 0 <= i < rows && 0 <= j < cols ==> m.cells[i][j] == 0.0
  {
    Constant(rows, cols, 0.0)
  }

  /** `onp.ones((rows, cols))` */
  function Ones(rows: nat, cols: nat): (m: Matrix)
    ensures m.Valid() && m.rows == rows && m.cols == cols
    ensures forall i, j :: 0 <= i < rows && 0 <= j < cols ==> m.cells[i][j] == 1.0
  {
    Constant(rows, cols, 1.0)
  }

  /** Two valid matrices of one shape that agree cell by cell are equal. */
  lemma Ext(a: Matrix, b: Matrix)
    requires a.Valid() && b.Valid() && a.rows == b.rows && a.cols == b.cols
    requires forall i, j :: 0 <= i < a.rows && 0 <= j < a.cols ==> a.cells[i][j] == b.cells[i][j]
    ensures a == b
  {
    forall i | 0 <= i < a.rows
      ensures a.cells[i] == b.cells[i]
    {
      assert |a.cells[i]| == |b.cells[i]|;
    }
  }

  /** `src` in the top-left corner of a zero `rows x cols` buffer: the
      value of `buf = zeros((rows, cols)); buf[:r, :c] = src`. */
  function Embed(src: Matrix, rows: nat, cols: nat): (m: Matrix)
    requires src.Valid() && src.rows <= rows && src.cols <= cols
    ensures m.Valid() && m.rows == rows && m.cols == cols
    ensures forall i, j :: 0 <= i < rows && 0 <= j < cols ==>
      m.cells[i][j] == if i < src.rows && j < src.cols then src.cells[i][j] else 0.0
  {
    Matrix(rows, cols, seq(rows, i requires 0 <= i < rows =>
      seq(cols, j requires 0 <= j < cols =>
        if i < src.rows && j < src.cols then src.cells[i][j] else 0.0)))
  }

  /** `src` broadcasts onto a `rows x cols` block under NumPy's rules:
      each dimension is equal, or 1 and repeated (a 1 stretches to 0 too). */
  predicate BroadcastsTo(src: Matrix, rows: nat, cols: nat)
  {
    (src.rows == rows || src.rows == 1) && (src.cols == cols || src.cols == 1)
  }

  /** `src` broadcast to `rows x cols`, as an assignment into a block of
      that shape repeats it. */
  function Stretch(src: Matrix, rows: nat, cols: nat): (m: Matrix)
    requires src.Valid() && BroadcastsTo(src, rows, cols)
    ensures m.Valid() && m.rows == rows && m.cols == cols
    ensures forall i, j :: 0 <= i < rows && 0 <= j < cols ==>
      m.cells[i][j] == src.cells[if src.rows == 1 then 0 else i][if src.cols == 1 then 0 else j]
  {
    Matrix(rows, cols, seq(rows, i requires 0 <= i < rows =>
      seq(cols, j requires 0 <= j < cols => src.cells[if src.rows == 1 then 0 else i][if src.cols == 1 then 0 else j])))
  }

  /** Broadcasting onto the matrix's own shape changes nothing. */
  lemma StretchSameShape(src: Matrix)
    requires src.Valid()
    ensures Stretch(src, src.rows, src.cols) == src
  {
    Ext(Stretch(src, src.rows, src.cols), src);
  }

  /** `m[:rows, :cols]` for a block inside the matrix. */
  function TopLeft(m: Matrix, rows: nat, cols: nat): (r: Matrix)
    requires m.Valid() && rows <= m.rows && cols <= m.cols
    ensures r.Valid() && r.rows == rows && r.cols == cols
    ensures forall i, j :: 0 <= i < rows && 0 <= j < cols ==> r.cells[i][j] == m.cells[i][j]
  {
    Matrix(rows, cols, seq(rows, i requires 0 <= i < rows => m.cells[i][..cols]))
  }

  /** Embedding into a buffer of the matrix's own shape changes nothing. */
  lemma EmbedSameShape(src: Matrix)
    requires src.Valid()
    ensures Embed(src, src.rows, src.cols) == src
  {
    Ext(Embed(src, src.rows, src.cols), src);
  }

  /** Cutting the block back out of a padded buffer recovers the original. */
  lemma TopLeftOfEmbed(src: Matrix, rows: nat, cols: nat)
    requires src.Valid() && src.rows <= rows && src.cols <= cols
    ensures TopLeft(Embed(src, rows, cols), src.rows, src.cols) == src
  {
    Ext(TopLeft(Embed(src, rows, cols), src.rows, src.cols), src);
  }

  /** Padding a padded buffer once more is one padding. */
  lemma EmbedTwice(src: Matrix, rows: nat, cols: nat, rows': nat, cols': nat)
    requires src.Valid() && src.rows <= rows <= rows' && src.cols <= cols <= cols'
    ensures Embed(Embed(src, rows, cols), rows', cols') == Embed(src, rows', cols')
  {
    Ext(Embed(Embed(src, rows, cols), rows', cols'), Embed(src, rows', cols'));
  }

  /** `m[:, lo:hi]` with Python's clamping of slice bounds. */
  function Slice(m: Matrix, lo: nat, hi: nat): (r: Matrix)
    requires m.Valid()
    ensures r.Valid() && r.rows == m.rows
    ensures r.cols == if lo >= m.cols || hi <= lo then 0 else Min(hi, m.cols) - lo
    ensures forall i, j :: 0 <= i < r.rows && 0 <= j < r.cols ==> r.cells[i][j] == m.cells[i][lo + j]
  {
    var a := Min(lo, m.cols);
    var b := Max(a, Min(hi, m.cols));
    Matrix(m.rows, b - a, seq(m.rows, i requires 0 <= i < m.rows => m.cells[i][a..b]))
  }

  /** `m[i, j] = v` */
  function Set(m: Matrix, i: nat, j: nat, v: real): (r: Matrix)
    requires m.Valid() && i < m.rows && j < m.cols
    ensures r.Valid() && r.rows == m.rows && r.cols == m.cols
    ensures forall a, c :: 0 <= a < r.rows && 0 <= c < r.cols ==>
      r.cells[a][c] == if a == i && c == j then v else m.cells[a][c]
  {
    Matrix(m.rows, m.cols, m.cells[i := m.cells[i][j := v]])
  }

  /** `m[:, j] = col` */
  function SetColumn(m: Matrix, j: nat, col: seq<real>): (r: Matrix)
    requires m.Valid() && j < m.cols && |col| == m.rows
    ensures r.Valid() && r.rows == m.rows && r.cols == m.cols
    ensures forall a, c :: 0 <= a < r.rows && 0 <= c < r.cols ==>
      r.cells[a][c] == if c == j then col[a] else m.cells[a][c]
  {
    Matrix(m.rows, m.cols, seq(m.rows, a requires 0 <= a < m.rows => m.cells[a][j := col[a]]))
  }

  /** `concatenate((a, b), axis=0)`: the rows of `b` below those of `a`. */
  function ConcatRows(a: Matrix, b: Matrix): (r: Matrix)
    requires a.Valid() && b.Valid() && a.cols == b.cols
    ensures r.Valid() && r.rows == a.rows + b.rows && r.cols == a.cols
    ensures forall i, j :: 0 <= i < r.rows && 0 <= j < r.cols ==>
      r.cells[i][j] == if i < a.rows then a.cells[i][j] else b.cells[i - a.rows][j]
  {
    Matrix(a.rows + b.rows, a.cols, a.cells + b.cells)
  }

  /** `concatenate((a, b), axis=1)` (`hstack`): the columns of `b` right of `a`. */
  function ConcatCols(a: Matrix, b: Matrix): (r: Matrix)
    requires a.Valid() && b.Valid() && a.rows == b.rows
    ensures r.Valid() && r.rows == a.rows && r.cols == a.cols + b.cols
    ensures forall i, j :: 0 <= i < r.rows && 0 <= j < r.cols ==>
      r.cells[i][j] == if j < a.cols then a.cells[i][j] else b.cells[i][j - a.cols]
  {
    Matrix(a.rows, a.cols + b.cols, seq(a.rows, i requires 0 <= i < a.rows => a.cells[i] + b.cells[i]))
  }

  /** `a + b` for matrices of one shape. */
  function Add(a: Matrix, b: Matrix): (r: Matrix)
    requires a.Valid() && b.Valid() && a.rows == b.rows && a.cols == b.cols
    ensures r.Valid() && r.rows == a.rows && r.cols == a.cols
    ensures forall i, j :: 0 <= i < r.rows && 0 <= j < r.cols ==> r.cells[i][j] == a.cells[i][j] + b.cells[i][j]
  {
    Matrix(a.rows, a.cols, seq(a.rows, i requires 0 <= i < a.rows =>
      seq(a.cols, j requires 0 <= j < a.cols => a.cells[i][j] + b.cells[i][j])))
  }

  /** `np.reshape(m[:, j], (rows, 1))` */
  function ColumnOf(m: Matrix, j: nat): (r: Matrix)
    requires m.Valid() && j < m.cols
    ensures r.Valid() && r.rows == m.rows && r.cols == 1
    ensures forall i :: 0 <= i < r.rows ==> r.cells[i][0] == m.cells[i][j]
  {
    Matrix(m.rows, 1, seq(m.rows, i requires 0 <= i < m.rows => [m.cells[i][j]]))
  }

  /** `col * m` for a column `col` of shape (rows, 1): NumPy broadcasts it
      across the columns of `m`. */
  function BroadcastMul(col: Matrix, m: Matrix): (r: Matrix)
    requires col.Valid() && m.Valid() && col.cols == 1 && col.rows == m.rows
    ensures r.Valid() && r.rows == m.rows && r.cols == m.cols
    ensures forall i, j :: 0 <= i < r.rows && 0 <= j < r.cols ==> r.cells[i][j] == col.cells[i][0] * m.cells[i][j]
  {
    Matrix(m.rows, m.cols, seq(m.rows, i requires 0 <= i < m.rows =>
      seq(m.cols, j requires 0 <= j < m.cols => col.cells[i][0] * m.cells[i][j])))
  }

  /** The first `n` terms of row `i` of `a` times column `j` of `b`. */
  function DotCol(a: Matrix, i: nat, b: Matrix, j: nat, n: nat): real
    requires a.Valid() && b.Valid() && i < a.rows && j < b.cols && n <= a.cols && n <= b.rows
  {
    if n == 0 then 0.0 else DotCol(a, i, b, j, n - 1) + a.cells[i][n - 1] * b.cells[n - 1][j]
  }

  /** `a @ b` */
  function MatMul(a: Matrix, b: Matrix): (r: Matrix)
    requires a.Valid() && b.Valid() && a.cols == b.rows
    ensures r.Valid() && r.rows == a.rows && r.cols == b.cols
    ensures forall i, j :: 0 <= i < r.rows && 0 <= j < r.cols ==> r.cells[i][j] == DotCol(a, i, b, j, a.cols)
  {
    Matrix(a.rows, b.cols, seq(a.rows, i requires 0 <= i < a.rows =>
      seq(b.cols, j requires 0 <= j < b.cols => DotCol(a, i, b, j, a.cols))))
  }

  /** A product entry reads only the one column of `b` it is taken from. */
  lemma {:induction false} DotColReadsOneColumn(a: Matrix, i: nat, b: Matrix, b': Matrix, j: nat, n: nat)
    requires a.Valid() && b.Valid() && b'.Valid() && b.rows == b'.rows && b.cols == b'.cols
    requires i < a.rows && j < b.cols && n <= a.cols && n <= b.rows
    requires forall k :: 0 <= k < b.rows ==> b.cells[k][j] == b'.cells[k][j]
    ensures DotCol(a, i, b, j, n) == DotCol(a, i, b', j, n)
  {
    if n > 0 {
      DotColReadsOneColumn(a, i, b, b', j, n - 1);
    }
  }

  function RowSum(row: seq<real>): real
  {
    if row == [] then 0.0 else RowSum(row[..|row| - 1]) + row[|row| - 1]
  }

  /** `np.sum(m)` */
  function Total(cells: seq<seq<real>>): real
  {
    if cells == [] then 0.0 else Total(cells[..|cells| - 1]) + RowSum(cells[|cells| - 1])
  }

  /** A row that is 1 on its first `m` entries and 0 after sums to `m`. */
  lemma {:induction false} RowSumOfOnesPrefix(row: seq<real>, m: nat)
    requires m <= |row|
    requires forall j :: 0 <= j < |row| ==> row[j] == if j < m then 1.0 else 0.0
    ensures RowSum(row) == m as real
  {
    if row != [] {
      var last := |row| - 1;
      RowSumOfOnesPrefix(row[..last], Min(m, last));
    }
  }

  /** A matrix that is 1 on its top-left `n x m` block and 0 elsewhere sums
      to `n * m`. */
  lemma {:induction false} TotalOfOnesBlock(cells: seq<seq<real>>, n: nat, m: nat)
    requires n <= |cells|
    requires forall i :: 0 <= i < |cells| ==> m <= |cells[i]|
    requires forall i, j :: 0 <= i < |cells| && 0 <= j < |cells[i]| ==>
      cells[i][j] == if i < n && j < m then 1.0 else 0.0
    ensures Total(cells) == (n * m) as real
  {
    if cells != [] {
      var last := |cells| - 1;
      TotalOfOnesBlock(cells[..last], Min(n, last), m);
      if last < n {
        RowSumOfOnesPrefix(cells[last], m);
        assert n == last + 1;
        assert (last + 1) * m == last * m + m;
      } else {
        RowSumOfOnesPrefix(cells[last], 0);
      }
    }
  }
}
