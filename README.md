# Naval battle skill overlay

A model of the core of a small naval battle demonstration (`batalhaNaval.c`):
three "skills" fill a 7x7 matrix with an attack shape, and an overlay
places such a matrix on a 10x10 board with its middle cell on a chosen
origin. The marked cells that fall off the board are dropped. Each board cell
hit changes code: a ship (3) becomes a hit ship (8), a hit ship stays 8, and
any other code becomes affected (5).

The C code works in place on fixed-size arrays, and so does the model: every
builder and the overlay are methods on `array2<int>` with loop invariants.
Each method is proved against a pure function on `seq<seq<int>>`:
`Shapes.Mask(shape)` for the builders and `BoardOverlay.Overlay` for the
overlay. The ghost function `Grid.Cells` reads an array as such a value. The
properties are lemmas about these functions:
- how many cells each shape marks;
- what cells the overlay changes and how;
- that a repeated placement changes nothing more;
- that two placements give the same board in either order;
- that the four cell codes are kept;
- that a placement entirely off the board changes nothing.

Modules:
- `Grid` (grid.dfy): the constants `BOARD_SIZE`, `SKILL_N` and the four cell
  codes, kept as integers as in the C source. It also holds `CENTER`
  (`SKILL_N / 2`), which stands for the local `center` that each C function
  computes. It also holds the array-to-sequence bridge.
- `Shapes` (shapes.dfy): `InShape`, whose three cases are the tests each
  builder makes; `InitMatrix`, `BuildCone`, `BuildCross` and
  `BuildOctahedron`; and the cell counts.
- `BoardOverlay` (overlay.dfy): the cell transition `Hit`; `Covers`, the
  test for whether a board cell lies under a marked skill cell (the skill-entry
  test and the translation, without the board-bounds check); the overlay
  function and its lemmas; and `ApplySkillToBoard`.
- `Scenario` (scenario.dfy): the fixed demonstration run of `main`. It
  seeds six ships, then places the cone at (1, 4), the cross at (5, 2) and
  the octahedron at (7, 7).
- `Golden` (golden.dfy): the final demonstration board, stated for all 100
  cells.

Two details of the C code the model keeps:
- The overlay marks a skill cell only when its entry is exactly 1.
- Every code other than 3 and 8 becomes 5 when hit, including codes outside
  the four. On a board that holds only the four codes, only 0 and 5 reach
  that branch.

`SKILL_N` is the compile-time constant 7, so the cell counts are proved for 7.

## Model

| member | source | states |
|---|---|---|
| Shapes.Mask | batalhaNaval.c:18-59 | the matrix of a shape is 7x7, every entry is 0 or 1, and an entry is 1 exactly on the cells of the shape (cone: centre - r <= c <= centre + r; cross: middle row or column; octahedron: Manhattan distance to the middle <= 3) |
| Shapes.InitMatrix | batalhaNaval.c:12-16 | every entry of the matrix is 0 afterwards |
| Shapes.BuildCone | batalhaNaval.c:19-32 | the matrix holds exactly the cone mask afterwards |
| Shapes.BuildCross | batalhaNaval.c:35-44 | the matrix holds exactly the cross mask afterwards |
| Shapes.BuildOctahedron | batalhaNaval.c:48-59 | the matrix holds exactly the octahedron mask afterwards, with the distance computed as in the source |
| Shapes.Span | batalhaNaval.c:18-59 | the marked columns of every row of every shape form one interval [lo, hi] |
| Shapes.RowOnes | batalhaNaval.c:18-59 | the first n entries of a mask row hold exactly as many ones as its interval has columns below n |
| Shapes.PrefixCount | batalhaNaval.c:18-59 | the first m rows of a mask hold the sum of the widths of their intervals |
| Shapes.ShapeCount | batalhaNaval.c:18-59 | a whole mask holds the sum of the widths of its seven row intervals |
| Shapes.CrossCount | batalhaNaval.c:40 | the cross marks 2 * 7 - 1 = 13 cells |
| Shapes.OctahedronCount | batalhaNaval.c:54-55 | the octahedron marks 25 cells |
| Shapes.ConeCount | batalhaNaval.c:24 | the cone marks 37 cells |
| Shapes.ConeRows | batalhaNaval.c:24 | row 0 of the cone marks only the middle column; rows 3 to 6 are marked across all 7 columns |
| Shapes.Symmetric | batalhaNaval.c:40-55 | the cross and the octahedron are unchanged by reflecting rows or columns about the middle |
| BoardOverlay.Hit | batalhaNaval.c:76-82 | a hit cell becomes AFFECTED or SHIP_AFFECTED, and SHIP_AFFECTED exactly when it held SHIP or SHIP_AFFECTED |
| BoardOverlay.HitIdempotent | batalhaNaval.c:76-82 | a second hit leaves the cell as the first left it |
| BoardOverlay.Overlay | batalhaNaval.c:65-87 | the result is again a 10x10 board |
| BoardOverlay.CoversIff | batalhaNaval.c:69-75 | the closed-form test for a cell holds exactly when some marked skill cell (i, j) is translated onto it (r = origin_row + i - 3, c = origin_col + j - 3) |
| BoardOverlay.OverlayCell | batalhaNaval.c:69-82 | a board cell onto which a marked skill cell is translated is hit; every other cell is unchanged |
| BoardOverlay.OverlayIdempotent | batalhaNaval.c:76-82 | placing a skill twice at one origin gives the board that placing it once gives |
| BoardOverlay.OverlayCommutes | batalhaNaval.c:65-87 | two placements give the same board in either order |
| BoardOverlay.OverlayWellFormed | batalhaNaval.c:76-82 | a board holding only the codes 0, 3, 5, 8 still does after a placement |
| BoardOverlay.OverlayMonotone | batalhaNaval.c:76-82 | a cell either keeps its code or now holds 5 or 8; a cell holding 5 or 8 keeps it; a cell holds a ship (3 or 8) afterwards exactly when it did before |
| BoardOverlay.OverlayClipped | batalhaNaval.c:75 | when no marked skill cell is translated into [0,10)x[0,10), the board is unchanged |
| BoardOverlay.OverlayOffBoard | batalhaNaval.c:72-75 | an origin more than 3 rows or columns off the board leaves it unchanged |
| BoardOverlay.ApplySkillToBoard | batalhaNaval.c:65-87 | the board afterwards is the overlay of the board before; the skill matrix is not modified; all accesses stay in range |
| Scenario.Seeded | batalhaNaval.c:113-125 | the seeded board is 10x10, holds only WATER and SHIP, and holds SHIP exactly on the six cells (2,2), (2,3), (2,4), (4,5), (7,7), (6,7) |
| Scenario.FinalWellFormed | batalhaNaval.c:143-146 | after the three placements of the demonstration every cell holds one of the four codes |
| Scenario.SeedBoard | batalhaNaval.c:113-125 | a fresh 10x10 array holding SHIP on the six seeded cells and WATER elsewhere |
| Scenario.AfterCone | batalhaNaval.c:139-144 | the board after the cone at (1, 4) is a 10x10 board |
| Scenario.AfterCross | batalhaNaval.c:139-145 | the board after the cone and the cross at (5, 2) is a 10x10 board |
| Scenario.Final | batalhaNaval.c:139-146 | the board after the three placements of the demonstration is a 10x10 board |
| Scenario.AfterConeCells | batalhaNaval.c:139-144 | after the cone, the ships at (2,2), (2,3), (2,4), (4,5) are hit, (6,7) and (7,7) are still unhit ships, and (5,2) and the corners are still WATER |
| Scenario.AfterCrossCells | batalhaNaval.c:139-145 | after the cross, the same ship cells hold the same codes as after the cone, (5,2) is AFFECTED and the corners are WATER |
| Scenario.FinalCells | batalhaNaval.c:120-146 | after the demonstration every ship cell is SHIP_AFFECTED, cell (5, 2) is AFFECTED, and the corners (0, 0) and (9, 9) are WATER |
| Golden.FinalIsGolden | batalhaNaval.c:111-146 | the board after the demonstration run equals, cell for cell, the expected 10x10 board GOLDEN |
| Scenario.BuildSkills | batalhaNaval.c:127-135 | three fresh 7x7 arrays holding exactly the cone, cross and octahedron masks |
| Scenario.Run | batalhaNaval.c:111-146 | the arrays of the demonstration end up as the three masks and the board as three overlays of the seeded board |

## Left out

- `print_board` and the printing of the three matrices in `main`: console output only.
- The `#include` lines: library plumbing with no behaviour of their own.
- ApplySkillToBoard: C `int` overflow in `origin_row + (i - center)` is not modelled, because Dafny integers are unbounded and the demonstration origins are small.
- Counts for matrix sizes other than 7: `SKILL_N` is a compile-time constant in the source.
