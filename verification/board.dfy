/**
 * The board component's rules (components/board.tsx): cell and board pixel
 * sizes, the striped cell colours, when a click reaches the handler, which
 * cells are highlighted as winning, and the symbol-to-icon mapping.
 */
module Board {
  import opened Wrappers
  import opened Schema

  datatype BoardSize = Sm | Md | Lg | Xl

  /** The `gameStatus` a board is drawn with: 'playing', 'finished' or 'draw'. */
  datatype BoardStatus = Playing | Finished | DrawStatus

  /** The base edge length in pixels per board size. */
  function BaseSize(size: BoardSize): nat
  {
    match size
    case Sm => 120
    case Md => 240
    case Lg => 360
    case Xl => 480
  }

  const MinCellSize: nat := 32

  function MaxDimension(rows: nat, cols: nat): nat
  {
    if rows >= cols then rows else cols
  }

  /** Quotient and remainder bounds of natural division. */
  lemma DivisionBounds(a: nat, b: nat)
    requires b > 0
    ensures (a / b) * b <= a < (a / b + 1) * b
  {
  }

  /**
   * `finalCellSize`: the largest whole cell edge with which the longer side's
   * cells fit in the base size, raised to 32 px when that is smaller. A cell
   * above the minimum fits exactly (a bigger one would not); a cell at the
   * minimum means 33 px cells would not fit.
   */
  function CellSize(size: BoardSize, rows: nat, cols: nat): (px: nat)
    requires MaxDimension(rows, cols) > 0
    ensures px >= MinCellSize
    ensures px > MinCellSize ==>
      px * MaxDimension(rows, cols) <= BaseSize(size) < (px + 1) * MaxDimension(rows, cols)
    ensures px == MinCellSize ==> BaseSize(size) < (MinCellSize + 1) * MaxDimension(rows, cols)
  {
    var m := MaxDimension(rows, cols);
    DivisionBounds(BaseSize(size), m);
    var cellSize := BaseSize(size) / m;
    if cellSize >= MinCellSize then cellSize else MinCellSize
  }

  /**
   * `finalBoardSize`: the longer side's cells laid end to end. It is never
   * below 32 px per cell, and it stays within the base size whenever the
   * unclamped cell size already reaches the minimum.
   */
  function BoardPixels(size: BoardSize, rows: nat, cols: nat): (px: nat)
    requires MaxDimension(rows, cols) > 0
    ensures px >= MinCellSize * MaxDimension(rows, cols)
    ensures BaseSize(size) / MaxDimension(rows, cols) >= MinCellSize ==> px <= BaseSize(size)
  {
    var m := MaxDimension(rows, cols);
    DivisionBounds(BaseSize(size), m);
    var cell := CellSize(size, rows, cols);
    MulAtMost(MinCellSize, cell, m);
    cell * m
  }

  /** The row-major position of cell (row, col) among the drawn cells. */
  function CellIndex(row: nat, col: nat, cols: nat): nat
  {
    row * cols + col
  }

  lemma {:induction false} MulMonotone(a: nat, b: nat, n: nat)
    requires a < b
    ensures a * n + n <= b * n
    decreases b - a
  {
    assert (a + 1) * n == a * n + n;
    if a + 1 < b {
      MulMonotone(a + 1, b, n);
    }
  }

  lemma MulAtMost(a: nat, b: nat, n: nat)
    requires a <= b
    ensures a * n <= b * n
  {
    if a < b {
      MulMonotone(a, b, n);
    }
  }

  /** Distinct cells of a board get distinct indexes, all below rows × cols. */
  lemma CellIndexInjective(rows: nat, cols: nat, r1: nat, c1: nat, r2: nat, c2: nat)
    requires r1 < rows && c1 < cols && r2 < rows && c2 < cols
    ensures CellIndex(r1, c1, cols) < rows * cols
    ensures CellIndex(r1, c1, cols) == CellIndex(r2, c2, cols) ==> r1 == r2 && c1 == c2
  {
    MulMonotone(r1, rows, cols);
    if r1 < r2 {
      MulMonotone(r1, r2, cols);
    } else if r2 < r1 {
      MulMonotone(r2, r1, cols);
    }
  }

  const Colors: seq<string> := ["bg-gray-100", "bg-gray-200", "bg-gray-300"]

  /** The background class of cell (row, col): the three greys repeat along the row-major order. */
  function ColorClass(row: nat, col: nat, cols: nat): (c: string)
    ensures c in Colors
    ensures c == Colors[0] <==> CellIndex(row, col, cols) % 3 == 0
  {
    Colors[CellIndex(row, col, cols) % |Colors|]
  }

  /** Two cells next to each other in a row never share a background. */
  lemma RowNeighboursDiffer(row: nat, col: nat, cols: nat)
    ensures ColorClass(row, col, cols) != ColorClass(row, col + 1, cols)
  {
    assert CellIndex(row, col + 1, cols) == CellIndex(row, col, cols) + 1;
  }

  /**
   * A cell shares its background with the cell below it exactly when the
   * column count is a multiple of three (so a 3-column board is striped by column).
   */
  lemma ColumnNeighboursMatchIff(row: nat, col: nat, cols: nat)
    ensures ColorClass(row, col, cols) == ColorClass(row + 1, col, cols) <==> cols % 3 == 0
  {
    var i := CellIndex(row, col, cols);
    assert (row + 1) * cols == row * cols + cols;
    assert CellIndex(row + 1, col, cols) == i + cols;
    ShiftKeepsResidue(i, cols);
  }

  /** Adding `c` keeps the residue modulo 3 exactly when `c` is a multiple of 3. */
  lemma ShiftKeepsResidue(i: nat, c: nat)
    ensures (i + c) % 3 == i % 3 <==> c % 3 == 0
  {
    var a, b := i % 3, c % 3;
    assert i == 3 * (i / 3) + a && c == 3 * (c / 3) + b;
    if a + b < 3 {
      assert i + c == 3 * (i / 3 + c / 3) + (a + b);
    } else {
      assert i + c == 3 * (i / 3 + c / 3 + 1) + (a + b - 3);
    }
  }

  /**
   * `handleCellClick`: the click reaches the handler, with its coordinates,
   * only when a handler was given, the board is not the idle demo and the game
   * is 'playing'.
   */
  function HandleCellClick(hasHandler: bool, idle: bool, status: Option<BoardStatus>, row: int, col: int)
    : (forwarded: Option<Position>)
    ensures forwarded.Some? <==> hasHandler && !idle && status == Some(Playing)
    ensures forwarded.Some? ==> forwarded.value == Position(row, col)
  {
    if hasHandler && !idle && status == Some(Playing) then Some(Position(row, col)) else None
  }

  /** `isClickable`: the click conditions hold and the cell is empty. */
  predicate IsClickable(hasHandler: bool, idle: bool, cell: Option<Symbol>, status: Option<BoardStatus>)
    : (clickable: bool)
    ensures clickable ==> cell.None? && status == Some(Playing)
  {
    !idle && hasHandler && cell.None? && status == Some(Playing)
  }

  /**
   * A cell drawn as clickable forwards its clicks, and a forwarded click on an
   * empty cell comes from a cell drawn as clickable.
   */
  lemma ClickableIffForwardedOnEmpty(hasHandler: bool, idle: bool, cell: Option<Symbol>,
                                     status: Option<BoardStatus>, row: int, col: int)
    ensures IsClickable(hasHandler, idle, cell, status) <==>
      cell.None? && HandleCellClick(hasHandler, idle, status, row, col).Some?
  {
  }

  /** `winningLine?.some(...)`: whether (row, col) is among the listed cells. */
  function AnyAt(line: seq<Position>, row: int, col: int): (found: bool)
    ensures found <==> Position(row, col) in line
  {
    if line == [] then false
    else (line[0].row == row && line[0].col == col) || AnyAt(line[1..], row, col)
  }

  /** `isWinningCell`: the cell is on the winning line; never when there is no line. */
  function IsWinningCell(winningLine: Option<seq<Position>>, row: int, col: int): (winning: bool)
    ensures winning <==> winningLine.Some? && Position(row, col) in winningLine.value
  {
    match winningLine
    case None => false
    case Some(line) => AnyAt(line, row, col)
  }

  /** The icon drawn in a cell, with its font size. */
  datatype Icon = Cross(fontSize: nat) | Circle(fontSize: nat) | NoIcon

  function IconFontSize(size: BoardSize): nat
  {
    match size
    case Xl => 80
    case Lg => 60
    case Md => 40
    case Sm => 24
  }

  /** `getCellIcon`: a cross for 'X', a circle for 'O', nothing for an empty cell. */
  function CellIcon(cell: Option<Symbol>, size: BoardSize): (icon: Icon)
    ensures icon.Cross? <==> cell == Some(X)
    ensures icon.Circle? <==> cell == Some(O)
    ensures icon.NoIcon? <==> cell.None?
    ensures !icon.NoIcon? ==> icon.fontSize == IconFontSize(size)
  {
    match cell
    case Some(X) => Cross(IconFontSize(size))
    case Some(O) => Circle(IconFontSize(size))
    case None => NoIcon
  }

  /** `getWinningCellColor`: the primary highlight for 'X', the secondary for 'O', none for empty. */
  function WinningCellColor(cell: Option<Symbol>): (cls: string)
    ensures cls == "" <==> cell.None?
  {
    match cell
    case Some(X) => "bg-primary/20 border-primary border-2"
    case Some(O) => "bg-secondary/20 border-secondary border-2"
    case None => ""
  }

  /**
   * The highlight and the icon of a cell agree: the primary highlight goes
   * with a cross, the secondary with a circle, no highlight with no icon.
   */
  lemma HighlightMatchesIcon(cell: Option<Symbol>, size: BoardSize)
    ensures WinningCellColor(cell) == "bg-primary/20 border-primary border-2" <==> CellIcon(cell, size).Cross?
    ensures WinningCellColor(cell) == "bg-secondary/20 border-secondary border-2" <==> CellIcon(cell, size).Circle?
    ensures WinningCellColor(cell) == "" <==> CellIcon(cell, size).NoIcon?
  {
  }
}
