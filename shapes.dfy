/** The skill shapes: which cells of a 7x7 skill matrix each shape marks, the
    three builders that fill a matrix in place, and the number of cells each
    shape marks. */
module Shapes {
  import opened Grid

  /** Largest Manhattan distance from the middle cell that the octahedron covers. */
  const RADIUS := SKILL_N / 2

  /** The three attack shapes. */
  datatype Shape = Cone | Cross | Octahedron

  function Abs(x: int): nat {
    if x < 0 then -x else x
  }

  /** Cell (i, j) of a skill matrix belongs to shape `s`. */
  predicate InShape(s: Shape, i: int, j: int) {
    match s
    // a band around the middle column, one cell wider on each side per row down
    case Cone => CENTER - i <= j <= CENTER + i
    // the middle row and the middle column
    case Cross => i == CENTER || j == CENTER
    // the cells within Manhattan distance RADIUS of the middle cell
    case Octahedron => Abs(i - CENTER) + Abs(j - CENTER) <= RADIUS
  }

  /** The matrix entry for a cell: 1 when marked, 0 otherwise. */
  function Mark(b: bool): int {
    if b then 1 else 0
  }

  /** The skill matrix of shape `s`: every entry is 0 or 1, and it is 1
      exactly on the cells of the shape. */
  function Mask(s: Shape): (m: seq<seq<int>>)
    ensures IsSkill(m)
    ensures forall i, j :: 0 <= i < SKILL_N && 0 <= j < SKILL_N ==>
      (m[i][j] == 0 || m[i][j] == 1) && (m[i][j] == 1 <==> InShape(s, i, j))
  {
    seq(SKILL_N, i requires 0 <= i < SKILL_N =>
      seq(SKILL_N, j requires 0 <= j < SKILL_N => Mark(InShape(s, i, j))))
  }

  /** Every cell of `mat` before (r, c) in row-major order holds its entry of Mask(s). */
  ghost predicate BuiltUpTo(mat: array2<int>, s: Shape, r: int, c: int)
    reads mat
    requires mat.Length0 == SKILL_N && mat.Length1 == SKILL_N
  {
    forall x, y :: 0 <= x < SKILL_N && 0 <= y < SKILL_N && (x < r || (x == r && y < c)) ==>
      mat[x, y] == Mask(s)[x][y]
  }

  lemma BuiltAll(mat: array2<int>, s: Shape)
    requires mat.Length0 == SKILL_N && mat.Length1 == SKILL_N
    requires BuiltUpTo(mat, s, SKILL_N, 0)
    ensures Cells(mat) == Mask(s)
  {
    MatrixExt(Cells(mat), Mask(s), SKILL_N, SKILL_N);
  }

  /** Sets every entry of a skill matrix to 0. */
  method InitMatrix(mat: array2<int>)
    requires mat.Length0 == SKILL_N && mat.Length1 == SKILL_N
    modifies mat
    ensures forall i, j :: 0 <= i < SKILL_N && 0 <= j < SKILL_N ==> mat[i, j] == 0
  {
    for i := 0 to SKILL_N
      invariant forall x, y :: 0 <= x < i && 0 <= y < SKILL_N ==> mat[x, y] == 0
    {
      for j := 0 to SKILL_N
        invariant forall x, y :: 0 <= x < i && 0 <= y < SKILL_N ==> mat[x, y] == 0
        invariant forall y :: 0 <= y < j ==> mat[i, y] == 0
      {
        mat[i, j] := 0;
      }
    }
  }

  /** Fills `mat` with the cone. */
  method BuildCone(mat: array2<int>)
    requires mat.Length0 == SKILL_N && mat.Length1 == SKILL_N
    modifies mat
    ensures Cells(mat) == Mask(Cone)
  {
    var center := SKILL_N / 2;
    InitMatrix(mat);
    for r := 0 to SKILL_N
      invariant BuiltUpTo(mat, Cone, r, 0)
    {
      for c := 0 to SKILL_N
        invariant BuiltUpTo(mat, Cone, r, c)
      {
        if c >= center - r && c <= center + r {
          mat[r, c] := 1;
        } else {
          mat[r, c] := 0;
        }
      }
    }
    BuiltAll(mat, Cone);
  }

  /** Fills `mat` with the cross. */
  method BuildCross(mat: array2<int>)
    requires mat.Length0 == SKILL_N && mat.Length1 == SKILL_N
    modifies mat
    ensures Cells(mat) == Mask(Cross)
  {
    var center := SKILL_N / 2;
    InitMatrix(mat);
    for i := 0 to SKILL_N
      invariant BuiltUpTo(mat, Cross, i, 0)
    {
      for j := 0 to SKILL_N
        invariant BuiltUpTo(mat, Cross, i, j)
      {
        if i == center || j == center {
          mat[i, j] := 1;
        } else {
          mat[i, j] := 0;
        }
      }
    }
    BuiltAll(mat, Cross);
  }

  /** Fills `mat` with the octahedron seen from the front (a diamond). */
  method BuildOctahedron(mat: array2<int>)
    requires mat.Length0 == SKILL_N && mat.Length1 == SKILL_N
    modifies mat
    ensures Cells(mat) == Mask(Octahedron)
  {
    var center := SKILL_N / 2;
    var radius := SKILL_N / 2;
    InitMatrix(mat);
    for i := 0 to SKILL_N
      invariant BuiltUpTo(mat, Octahedron, i, 0)
    {
      for j := 0 to SKILL_N
        invariant BuiltUpTo(mat, Octahedron, i, j)
      {
        var manhattan := (if i > center then i - center else center - i)
                       + (if j > center then j - center else center - j);
        if manhattan <= radius {
          mat[i, j] := 1;
        } else {
          mat[i, j] := 0;
        }
      }
    }
    BuiltAll(mat, Octahedron);
  }

  // ---------------------------------------------------------------------------
  // Counting marked cells

  /** Number of entries of `row` equal to 1. */
  function Ones(row: seq<int>): nat {
    if row == [] then 0 else Ones(row[..|row| - 1]) + Mark(row[|row| - 1] == 1)
  }

  /** Number of entries of `m` equal to 1. */
  function MarkedCount(m: seq<seq<int>>): nat {
    if m == [] then 0 else MarkedCount(m[..|m| - 1]) + Ones(m[|m| - 1])
  }

  /** The marked columns of row `i` of shape `s` form the interval [lo, hi]. */
  function Span(s: Shape, i: int): (r: (int, int))
    requires 0 <= i < SKILL_N
    ensures forall j :: 0 <= j < SKILL_N ==> (InShape(s, i, j) <==> r.0 <= j <= r.1)
  {
    match s
    case Cone => (CENTER - i, CENTER + i)
    case Cross => if i == CENTER then (0, SKILL_N - 1) else (CENTER, CENTER)
    case Octahedron =>
      var w := RADIUS - Abs(i - CENTER);
      (CENTER - w, CENTER + w)
  }

  /** Number of columns among 0 .. n-1 that lie in [lo, hi]. */
  function Width(lo: int, hi: int, n: int): nat {
    var k := (if n < hi + 1 then n else hi + 1) - (if lo < 0 then 0 else lo);
    if k < 0 then 0 else k
  }

  /** Counting one more column adds one exactly when that column is in [lo, hi]. */
  lemma WidthStep(lo: int, hi: int, n: int)
    requires n > 0
    ensures Width(lo, hi, n) == Width(lo, hi, n - 1) + Mark(lo <= n - 1 <= hi)
  {
  }

  /** Total, over rows 0 .. m-1 of shape `s`, of the number of marked columns. */
  function SpanTotal(s: Shape, m: int): nat
    requires 0 <= m <= SKILL_N
  {
    if m == 0 then 0 else SpanTotal(s, m - 1) + Width(Span(s, m - 1).0, Span(s, m - 1).1, SKILL_N)
  }

  /** In a row whose ones are exactly the columns in [lo, hi], the first n
      entries hold as many ones as [lo, hi] has columns below n. */
  lemma {:induction false} OnesOfInterval(row: seq<int>, lo: int, hi: int, n: int)
    requires 0 <= n <= |row|
    requires forall j :: 0 <= j < |row| ==> row[j] == Mark(lo <= j <= hi)
    ensures Ones(row[..n]) == Width(lo, hi, n)
  {
    if n > 0 {
      assert row[..n][..n - 1] == row[..n - 1];
      OnesOfInterval(row, lo, hi, n - 1);
      WidthStep(lo, hi, n);
    }
  }

  /** The first n entries of row i of the mask hold as many ones as the span
      of that row has columns below n. */
  lemma RowOnes(s: Shape, i: int, n: int)
    requires 0 <= i < SKILL_N && 0 <= n <= SKILL_N
    ensures Ones(Mask(s)[i][..n]) == Width(Span(s, i).0, Span(s, i).1, n)
  {
    var span := Span(s, i);
    OnesOfInterval(Mask(s)[i], span.0, span.1, n);
  }

  /** The first m rows of the mask hold SpanTotal(s, m) ones. */
  lemma {:induction false} PrefixCount(s: Shape, m: int)
    requires 0 <= m <= SKILL_N
    ensures MarkedCount(Mask(s)[..m]) == SpanTotal(s, m)
  {
    if m > 0 {
      var rows := Mask(s)[..m];
      assert rows[..m - 1] == Mask(s)[..m - 1];
      PrefixCount(s, m - 1);
      RowOnes(s, m - 1, SKILL_N);
      assert Mask(s)[m - 1][..SKILL_N] == Mask(s)[m - 1];
    }
  }

  lemma ShapeCount(s: Shape)
    ensures MarkedCount(Mask(s)) == SpanTotal(s, SKILL_N)
  {
    PrefixCount(s, SKILL_N);
    assert Mask(s)[..SKILL_N] == Mask(s);
  }

  /** The cross marks 2 * 7 - 1 = 13 cells. */
  lemma CrossCount()
    ensures MarkedCount(Mask(Cross)) == 2 * SKILL_N - 1
  {
    ShapeCount(Cross);
  }

  /** The octahedron marks 25 cells. */
  lemma OctahedronCount()
    ensures MarkedCount(Mask(Octahedron)) == 25
  {
    ShapeCount(Octahedron);
  }

  /** The cone marks 1 + 3 + 5 + 7 + 7 + 7 + 7 = 37 cells. */
  lemma ConeCount()
    ensures MarkedCount(Mask(Cone)) == 37
  {
    ShapeCount(Cone);
  }

  /** The first row of the cone marks only the middle column; rows CENTER to
      the last are marked across the whole width. */
  lemma ConeRows()
    ensures Ones(Mask(Cone)[0]) == 1 && Mask(Cone)[0][CENTER] == 1
    ensures forall r :: CENTER <= r < SKILL_N ==> Ones(Mask(Cone)[r]) == SKILL_N
  {
    RowOnes(Cone, 0, SKILL_N);
    assert Mask(Cone)[0][..SKILL_N] == Mask(Cone)[0];
    forall r | CENTER <= r < SKILL_N
      ensures Ones(Mask(Cone)[r]) == SKILL_N
    {
      RowOnes(Cone, r, SKILL_N);
      assert Mask(Cone)[r][..SKILL_N] == Mask(Cone)[r];
    }
  }

  /** The cross and the octahedron are unchanged by reflecting the rows or the
      columns about the middle. */
  lemma Symmetric(s: Shape, i: int, j: int)
    requires s == Cross || s == Octahedron
    requires 0 <= i < SKILL_N && 0 <= j < SKILL_N
    ensures Mask(s)[i][j] == Mask(s)[SKILL_N - 1 - i][j] == Mask(s)[i][SKILL_N - 1 - j]
  {
  }
}
