/** Placing a skill matrix on the board: the marked cells of the matrix are
    moved so that its middle cell lands on the origin, the ones that fall off
    the board are dropped, and each board cell they land on is hit. */
module BoardOverlay {
  import opened Grid

  /** The code of a board cell after a hit: a ship becomes a hit ship, a hit
      ship stays one, and every other code becomes AFFECTED. */
  function Hit(v: int): (r: int)
    ensures r == AFFECTED || r == SHIP_AFFECTED
    ensures r == SHIP_AFFECTED <==> (v == SHIP || v == SHIP_AFFECTED)
  {
    if v == SHIP then SHIP_AFFECTED
    else if v == SHIP_AFFECTED then v
    else AFFECTED
  }

  /** A second hit changes nothing. */
  lemma HitIdempotent(v: int)
    ensures Hit(Hit(v)) == Hit(v)
  {
  }

  /** Board cell (x, y) lies under a marked cell of `skill` when the skill's
      middle cell is placed at (originRow, originCol). */
  predicate Covers(skill: seq<seq<int>>, originRow: int, originCol: int, x: int, y: int)
    requires IsSkill(skill)
  {
    var i := x - originRow + CENTER;
    var j := y - originCol + CENTER;
    0 <= i < SKILL_N && 0 <= j < SKILL_N && skill[i][j] == 1
  }

  /** The board after placing `skill` at (originRow, originCol). */
  function Overlay(board: seq<seq<int>>, skill: seq<seq<int>>, originRow: int, originCol: int): (r: seq<seq<int>>)
    requires IsBoard(board) && IsSkill(skill)
    ensures IsBoard(r)
  {
    seq(BOARD_SIZE, x requires 0 <= x < BOARD_SIZE =>
      seq(BOARD_SIZE, y requires 0 <= y < BOARD_SIZE =>
        if Covers(skill, originRow, originCol, x, y) then Hit(board[x][y]) else board[x][y]))
  }

  /** Some marked skill cell (i, j) is sent to board cell (x, y) by the
      translation origin - CENTER. */
  ghost predicate Targeted(skill: seq<seq<int>>, originRow: int, originCol: int, x: int, y: int)
    requires IsSkill(skill)
  {
    exists i, j :: 0 <= i < SKILL_N && 0 <= j < SKILL_N && skill[i][j] == 1 &&
      x == originRow + (i - CENTER) && y == originCol + (j - CENTER)
  }

  /** Covers is the closed form of Targeted: the translation is one-to-one, so
      at most one skill cell lands on each board cell. */
  lemma CoversIff(skill: seq<seq<int>>, originRow: int, originCol: int, x: int, y: int)
    requires IsSkill(skill)
    ensures Covers(skill, originRow, originCol, x, y) <==> Targeted(skill, originRow, originCol, x, y)
  {
  }

  /** Each board cell is hit exactly when a marked skill cell lands on it, and
      is otherwise left as it was. */
  lemma OverlayCell(board: seq<seq<int>>, skill: seq<seq<int>>, originRow: int, originCol: int, x: int, y: int)
    requires IsBoard(board) && IsSkill(skill)
    requires 0 <= x < BOARD_SIZE && 0 <= y < BOARD_SIZE
    ensures Targeted(skill, originRow, originCol, x, y) ==>
      Overlay(board, skill, originRow, originCol)[x][y] == Hit(board[x][y])
    ensures !Targeted(skill, originRow, originCol, x, y) ==>
      Overlay(board, skill, originRow, originCol)[x][y] == board[x][y]
  {
    CoversIff(skill, originRow, originCol, x, y);
  }

  /** Placing the same skill at the same origin twice gives the board that
      placing it once gives. */
  lemma OverlayIdempotent(board: seq<seq<int>>, skill: seq<seq<int>>, originRow: int, originCol: int)
    requires IsBoard(board) && IsSkill(skill)
    ensures Overlay(Overlay(board, skill, originRow, originCol), skill, originRow, originCol)
         == Overlay(board, skill, originRow, originCol)
  {
    var once := Overlay(board, skill, originRow, originCol);
    var twice := Overlay(once, skill, originRow, originCol);
    forall x, y | 0 <= x < BOARD_SIZE && 0 <= y < BOARD_SIZE
      ensures twice[x][y] == once[x][y]
    {
      HitIdempotent(board[x][y]);
    }
    MatrixExt(twice, once, BOARD_SIZE, BOARD_SIZE);
  }

  /** Two placements give the same board in either order. */
  lemma OverlayCommutes(board: seq<seq<int>>, s1: seq<seq<int>>, r1: int, c1: int, s2: seq<seq<int>>, r2: int, c2: int)
    requires IsBoard(board) && IsSkill(s1) && IsSkill(s2)
    ensures Overlay(Overlay(board, s1, r1, c1), s2, r2, c2) == Overlay(Overlay(board, s2, r2, c2), s1, r1, c1)
  {
    var a := Overlay(Overlay(board, s1, r1, c1), s2, r2, c2);
    var b := Overlay(Overlay(board, s2, r2, c2), s1, r1, c1);
    forall x, y | 0 <= x < BOARD_SIZE && 0 <= y < BOARD_SIZE
      ensures a[x][y] == b[x][y]
    {
      HitIdempotent(board[x][y]);
    }
    MatrixExt(a, b, BOARD_SIZE, BOARD_SIZE);
  }

  /** One of the four cell codes. */
  predicate IsCode(v: int) {
    v == WATER || v == SHIP || v == AFFECTED || v == SHIP_AFFECTED
  }

  /** Every cell of the board holds one of the four cell codes. */
  predicate WellFormed(board: seq<seq<int>>)
    requires IsBoard(board)
  {
    forall x, y :: 0 <= x < BOARD_SIZE && 0 <= y < BOARD_SIZE ==> IsCode(board[x][y])
  }

  /** A placement keeps every cell within the four codes. */
  lemma OverlayWellFormed(board: seq<seq<int>>, skill: seq<seq<int>>, originRow: int, originCol: int)
    requires IsBoard(board) && IsSkill(skill) && WellFormed(board)
    ensures WellFormed(Overlay(board, skill, originRow, originCol))
  {
  }

  /** A placement never moves a cell backwards: a changed cell now holds
      AFFECTED or SHIP_AFFECTED, a cell already hit keeps its code, and a cell
      holds a ship (hit or not) afterwards exactly when it did before. */
  lemma OverlayMonotone(board: seq<seq<int>>, skill: seq<seq<int>>, originRow: int, originCol: int, x: int, y: int)
    requires IsBoard(board) && IsSkill(skill)
    requires 0 <= x < BOARD_SIZE && 0 <= y < BOARD_SIZE
    ensures var v, w := board[x][y], Overlay(board, skill, originRow, originCol)[x][y];
      (w == v || w == AFFECTED || w == SHIP_AFFECTED) &&
      (v == AFFECTED || v == SHIP_AFFECTED ==> w == v) &&
      (w == SHIP || w == SHIP_AFFECTED <==> v == SHIP || v == SHIP_AFFECTED)
  {
  }

  /** Clipping: when no marked skill cell lands inside the board, the board is
      left as it was. */
  lemma OverlayClipped(board: seq<seq<int>>, skill: seq<seq<int>>, originRow: int, originCol: int)
    requires IsBoard(board) && IsSkill(skill)
    requires forall i, j :: 0 <= i < SKILL_N && 0 <= j < SKILL_N && skill[i][j] == 1 ==>
      !(0 <= originRow + (i - CENTER) < BOARD_SIZE && 0 <= originCol + (j - CENTER) < BOARD_SIZE)
    ensures Overlay(board, skill, originRow, originCol) == board
  {
    var r := Overlay(board, skill, originRow, originCol);
    forall x, y | 0 <= x < BOARD_SIZE && 0 <= y < BOARD_SIZE
      ensures r[x][y] == board[x][y]
    {
      OverlayCell(board, skill, originRow, originCol, x, y);
    }
    MatrixExt(r, board, BOARD_SIZE, BOARD_SIZE);
  }

  /** An origin more than CENTER rows or columns off the board leaves it as it was. */
  lemma OverlayOffBoard(board: seq<seq<int>>, skill: seq<seq<int>>, originRow: int, originCol: int)
    requires IsBoard(board) && IsSkill(skill)
    requires originRow < -CENTER || originRow >= BOARD_SIZE + CENTER ||
             originCol < -CENTER || originCol >= BOARD_SIZE + CENTER
    ensures Overlay(board, skill, originRow, originCol) == board
  {
    OverlayClipped(board, skill, originRow, originCol);
  }

  /** Skill cell (a, b) comes before (i, j) in row-major order. */
  predicate Before(a: int, b: int, i: int, j: int) {
    a < i || (a == i && b < j)
  }

  /** `board` is `b0` with the skill cells before (i, j) applied. */
  ghost predicate AppliedUpTo(board: array2<int>, b0: seq<seq<int>>, skill: seq<seq<int>>,
                              originRow: int, originCol: int, i: int, j: int)
    reads board
    requires board.Length0 == BOARD_SIZE && board.Length1 == BOARD_SIZE
    requires IsBoard(b0) && IsSkill(skill)
  {
    forall x, y :: 0 <= x < BOARD_SIZE && 0 <= y < BOARD_SIZE ==>
      board[x, y] == if Covers(skill, originRow, originCol, x, y) &&
                        Before(x - originRow + CENTER, y - originCol + CENTER, i, j)
                     then Hit(b0[x][y]) else b0[x][y]
  }

  /** Moving past a skill cell that lands on no board cell changes nothing. */
  lemma AppliedSkip(board: array2<int>, b0: seq<seq<int>>, skill: seq<seq<int>>,
                    originRow: int, originCol: int, i: int, j: int)
    requires board.Length0 == BOARD_SIZE && board.Length1 == BOARD_SIZE
    requires IsBoard(b0) && IsSkill(skill) && 0 <= i < SKILL_N && 0 <= j < SKILL_N
    requires AppliedUpTo(board, b0, skill, originRow, originCol, i, j)
    requires skill[i][j] != 1 || !(0 <= originRow + (i - CENTER) < BOARD_SIZE && 0 <= originCol + (j - CENTER) < BOARD_SIZE)
    ensures AppliedUpTo(board, b0, skill, originRow, originCol, i, j + 1)
  {
  }

  /** Finishing row i of the skill is starting row i + 1. */
  lemma AppliedRow(board: array2<int>, b0: seq<seq<int>>, skill: seq<seq<int>>,
                   originRow: int, originCol: int, i: int)
    requires board.Length0 == BOARD_SIZE && board.Length1 == BOARD_SIZE
    requires IsBoard(b0) && IsSkill(skill)
    requires AppliedUpTo(board, b0, skill, originRow, originCol, i, SKILL_N)
    ensures AppliedUpTo(board, b0, skill, originRow, originCol, i + 1, 0)
  {
  }

  lemma AppliedAll(board: array2<int>, b0: seq<seq<int>>, skill: seq<seq<int>>, originRow: int, originCol: int)
    requires board.Length0 == BOARD_SIZE && board.Length1 == BOARD_SIZE
    requires IsBoard(b0) && IsSkill(skill)
    requires AppliedUpTo(board, b0, skill, originRow, originCol, SKILL_N, 0)
    ensures Cells(board) == Overlay(b0, skill, originRow, originCol)
  {
    MatrixExt(Cells(board), Overlay(b0, skill, originRow, originCol), BOARD_SIZE, BOARD_SIZE);
  }

  /** Places `skill` on `board` with its middle cell at (originRow, originCol),
      updating the board in place. */
  method ApplySkillToBoard(board: array2<int>, skill: array2<int>, originRow: int, originCol: int)
    requires board.Length0 == BOARD_SIZE && board.Length1 == BOARD_SIZE
    requires skill.Length0 == SKILL_N && skill.Length1 == SKILL_N
    modifies board
    ensures Cells(board) == Overlay(old(Cells(board)), Cells(skill), originRow, originCol)
    ensures unchanged(skill)
  {
    ghost var b0 := Cells(board);
    ghost var sk := Cells(skill);
    var center := SKILL_N / 2;
    for i := 0 to SKILL_N
      invariant AppliedUpTo(board, b0, sk, originRow, originCol, i, 0)
    {
      for j := 0 to SKILL_N
        invariant AppliedUpTo(board, b0, sk, originRow, originCol, i, j)
      {
        if skill[i, j] == 1 {
          var boardR := originRow + (i - center);
          var boardC := originCol + (j - center);
          // cells that fall off the board are skipped
          if boardR >= 0 && boardR < BOARD_SIZE && boardC >= 0 && boardC < BOARD_SIZE {
            assert Covers(sk, originRow, originCol, boardR, boardC);
            assert board[boardR, boardC] == b0[boardR][boardC];
            if board[boardR, boardC] == SHIP {
              board[boardR, boardC] := SHIP_AFFECTED;
            } else if board[boardR, boardC] == SHIP_AFFECTED {
              // already a hit ship: nothing to do
            } else {
              board[boardR, boardC] := AFFECTED;
            }
          } else {
            AppliedSkip(board, b0, sk, originRow, originCol, i, j);
          }
        } else {
          AppliedSkip(board, b0, sk, originRow, originCol, i, j);
        }
      }
      AppliedRow(board, b0, sk, originRow, originCol, i);
    }
    AppliedAll(board, b0, sk, originRow, originCol);
  }
}
