/** Fixed dimensions and cell codes of the naval battle board, and the bridge
    between a two-dimensional array and its value as a sequence of rows. */
module Grid {

  /** Side of the square board. */
  const BOARD_SIZE := 10
  /** Side of every square skill matrix (odd, so that it has a middle cell). */
  const SKILL_N := 7
  /** Index of the middle row and column of a skill matrix (integer division). */
  const CENTER := SKILL_N / 2

  /** Cell codes of the board. */
  const WATER := 0
  const SHIP := 3
  const AFFECTED := 5
  const SHIP_AFFECTED := 8

  /** `m` is a rectangle of `rows` rows of `cols` entries each. */
  predicate IsMatrix(m: seq<seq<int>>, rows: nat, cols: nat) {
    |m| == rows && forall i :: 0 <= i < rows ==> |m[i]| == cols
  }

  /** A value of a 10x10 board. */
  predicate IsBoard(b: seq<seq<int>>) {
    IsMatrix(b, BOARD_SIZE, BOARD_SIZE)
  }

  /** A value of a 7x7 skill matrix. */
  predicate IsSkill(s: seq<seq<int>>) {
    IsMatrix(s, SKILL_N, SKILL_N)
  }

  /** The contents of array `a`, row by row. */
  ghost function Cells(a: array2<int>): (m: seq<seq<int>>)
    reads a
    ensures IsMatrix(m, a.Length0, a.Length1)
    ensures forall i, j :: 0 <= i < a.Length0 && 0 <= j < a.Length1 ==> m[i][j] == a[i, j]
  {
    seq(a.Length0, i requires 0 <= i < a.Length0 reads a =>
      seq(a.Length1, j requires 0 <= j < a.Length1 reads a => a[i, j]))
  }

  /** Two rectangles of the same shape that agree everywhere are equal. */
  lemma MatrixExt(m: seq<seq<int>>, n: seq<seq<int>>, rows: nat, cols: nat)
    requires IsMatrix(m, rows, cols) && IsMatrix(n, rows, cols)
    requires forall i, j :: 0 <= i < rows && 0 <= j < cols ==> m[i][j] == n[i][j]
    ensures m == n
  {
    forall i | 0 <= i < rows
      ensures m[i] == n[i]
    {
      assert forall j :: 0 <= j < cols ==> m[i][j] == n[i][j];
    }
  }
}
