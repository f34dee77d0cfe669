/** The demonstration run: a board of water with six ship cells, the three
    skills built, and each placed once at a fixed origin. */
module Scenario {
  import opened Grid
  import opened Shapes
  import opened BoardOverlay

  /** Ship cells placed on the demonstration board. */
  const SHIPS: set<(int, int)> := {(2, 2), (2, 3), (2, 4), (4, 5), (7, 7), (6, 7)}

  /** The demonstration board before any skill is placed. */
  function Seeded(): (b: seq<seq<int>>)
    ensures IsBoard(b) && WellFormed(b)
    ensures forall x, y :: 0 <= x < BOARD_SIZE && 0 <= y < BOARD_SIZE ==>
      (b[x][y] == SHIP <==> (x, y) in SHIPS) && (b[x][y] == WATER <==> (x, y) !in SHIPS)
  {
    seq(BOARD_SIZE, x requires 0 <= x < BOARD_SIZE =>
      seq(BOARD_SIZE, y requires 0 <= y < BOARD_SIZE => if (x, y) in SHIPS then SHIP else WATER))
  }

  /** The board after the cone at (1, 4). */
  function AfterCone(): (b: seq<seq<int>>)
    ensures IsBoard(b)
  {
    Overlay(Seeded(), Mask(Cone), 1, 4)
  }

  /** The board after the cone at (1, 4) and the cross at (5, 2). */
  function AfterCross(): (b: seq<seq<int>>)
    ensures IsBoard(b)
  {
    Overlay(AfterCone(), Mask(Cross), 5, 2)
  }

  /** The demonstration board after the cone at (1, 4), the cross at (5, 2)
      and the octahedron at (7, 7). */
  function Final(): (b: seq<seq<int>>)
    ensures IsBoard(b)
  {
    Overlay(AfterCross(), Mask(Octahedron), 7, 7)
  }

  /** The final demonstration board holds only the four cell codes. */
  lemma FinalWellFormed()
    ensures WellFormed(Final())
  {
    OverlayWellFormed(Seeded(), Mask(Cone), 1, 4);
    OverlayWellFormed(AfterCone(), Mask(Cross), 5, 2);
    OverlayWellFormed(AfterCross(), Mask(Octahedron), 7, 7);
  }

  lemma AfterConeCells()
    ensures AfterCone()[2][2] == AfterCone()[2][3] == AfterCone()[2][4] == SHIP_AFFECTED
    ensures AfterCone()[4][5] == SHIP_AFFECTED
    ensures AfterCone()[6][7] == AfterCone()[7][7] == SHIP
    ensures AfterCone()[5][2] == WATER
    ensures AfterCone()[0][0] == AfterCone()[9][9] == WATER
  {
  }

  lemma AfterCrossCells()
    ensures AfterCross()[2][2] == AfterCross()[2][3] == AfterCross()[2][4] == SHIP_AFFECTED
    ensures AfterCross()[4][5] == SHIP_AFFECTED
    ensures AfterCross()[6][7] == AfterCross()[7][7] == SHIP
    ensures AfterCross()[5][2] == AFFECTED
    ensures AfterCross()[0][0] == AfterCross()[9][9] == WATER
  {
    AfterConeCells();
  }

  /** Every ship cell ends up hit, the cross's middle cell (5, 2) ends up
      AFFECTED, and the corners (0, 0) and (9, 9), which no skill reaches,
      stay water. */
  lemma FinalCells()
    ensures Final()[2][2] == Final()[2][3] == Final()[2][4] == SHIP_AFFECTED
    ensures Final()[4][5] == Final()[6][7] == Final()[7][7] == SHIP_AFFECTED
    ensures Final()[5][2] == AFFECTED
    ensures Final()[0][0] == WATER && Final()[9][9] == WATER
  {
    AfterCrossCells();
  }

  /** `board` holds SHIP on the cells of `ships` and WATER elsewhere. */
  ghost predicate HoldsShips(board: array2<int>, ships: set<(int, int)>)
    reads board
    requires board.Length0 == BOARD_SIZE && board.Length1 == BOARD_SIZE
  {
    forall x, y :: 0 <= x < BOARD_SIZE && 0 <= y < BOARD_SIZE ==>
      board[x, y] == if (x, y) in ships then SHIP else WATER
  }

  lemma SeededCells(board: array2<int>)
    requires board.Length0 == BOARD_SIZE && board.Length1 == BOARD_SIZE
    requires HoldsShips(board, SHIPS)
    ensures Cells(board) == Seeded()
  {
    MatrixExt(Cells(board), Seeded(), BOARD_SIZE, BOARD_SIZE);
  }

  /** A board of water with the ship cells of SHIPS. */
  method SeedBoard() returns (board: array2<int>)
    ensures fresh(board)
    ensures board.Length0 == BOARD_SIZE && board.Length1 == BOARD_SIZE
    ensures Cells(board) == Seeded()
  {
    board := new int[BOARD_SIZE, BOARD_SIZE];
    for i := 0 to BOARD_SIZE
      invariant forall x, y :: 0 <= x < i && 0 <= y < BOARD_SIZE ==> board[x, y] == WATER
    {
      for j := 0 to BOARD_SIZE
        invariant forall x, y :: 0 <= x < i && 0 <= y < BOARD_SIZE ==> board[x, y] == WATER
        invariant forall y :: 0 <= y < j ==> board[i, y] == WATER
      {
        board[i, j] := WATER;
      }
    }
    assert HoldsShips(board, {});
    board[2, 2] := SHIP;
    assert HoldsShips(board, {(2, 2)});
    board[2, 3] := SHIP;
    assert HoldsShips(board, {(2, 2), (2, 3)});
    board[2, 4] := SHIP;
    assert HoldsShips(board, {(2, 2), (2, 3), (2, 4)});
    board[4, 5] := SHIP;
    assert HoldsShips(board, {(2, 2), (2, 3), (2, 4), (4, 5)});
    board[7, 7] := SHIP;
    assert HoldsShips(board, {(2, 2), (2, 3), (2, 4), (4, 5), (7, 7)});
    board[6, 7] := SHIP;
    assert HoldsShips(board, SHIPS);
    SeededCells(board);
  }

  /** The three skill matrices of the demonstration, each built once. */
  method BuildSkills() returns (cone: array2<int>, cross: array2<int>, octa: array2<int>)
    ensures fresh(cone) && fresh(cross) && fresh(octa)
    ensures cone.Length0 == cone.Length1 == cross.Length0 == cross.Length1 == octa.Length0 == octa.Length1 == SKILL_N
    ensures Cells(cone) == Mask(Cone) && Cells(cross) == Mask(Cross) && Cells(octa) == Mask(Octahedron)
  {
    cone := new int[SKILL_N, SKILL_N];
    cross := new int[SKILL_N, SKILL_N];
    octa := new int[SKILL_N, SKILL_N];
    BuildCone(cone);
    BuildCross(cross);
    BuildOctahedron(octa);
    ghost var masks := (Cells(cone), Cells(cross), Cells(octa));
    assert masks == (Mask(Cone), Mask(Cross), Mask(Octahedron));
  }

  /** The demonstration run on arrays: seed the board, build the three skills
      and place each once. */
  method Run() returns (board: array2<int>, cone: array2<int>, cross: array2<int>, octa: array2<int>)
    ensures Cells(board) == Final()
    ensures Cells(cone) == Mask(Cone) && Cells(cross) == Mask(Cross) && Cells(octa) == Mask(Octahedron)
  {
    board := SeedBoard();
    cone, cross, octa := BuildSkills();
    ghost var masks := (Cells(cone), Cells(cross), Cells(octa));

    ApplySkillToBoard(board, cone, 1, 4);
    ApplySkillToBoard(board, cross, 5, 2);
    ApplySkillToBoard(board, octa, 7, 7);
    assert masks == (Cells(cone), Cells(cross), Cells(octa));
  }
}
