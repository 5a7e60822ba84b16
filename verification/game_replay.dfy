/**
 * Step-by-step replay of a saved game (components/game-replay.tsx): the board
 * rebuilt from a prefix of the move ledger, the forward-run win scan, and the
 * small rules around the replay cursor (turn parity, step clamps, speed cycle,
 * result label).
 */
module GameReplay {
  import opened Wrappers
  import opened Schema
  import Board
  import HistoryStore

  /** A cell of the rebuilt board: a symbol or empty (`null`). */
  type Cell = Option<Symbol>

  /** A board as rows of cells, row-major. */
  type Grid = seq<seq<Cell>>

  function Min(a: int, b: int): int { if a <= b then a else b }
  function Max(a: int, b: int): int { if a >= b then a else b }

  /** A rectangular grid of `rows` rows of `cols` cells each. */
  predicate IsGrid(g: Grid, rows: nat, cols: nat)
  {
    |g| == rows && forall r :: 0 <= r < rows ==> |g[r]| == cols
  }

  /** The all-empty board of the given dimensions (`initializeBoard`). */
  function EmptyGrid(rows: nat, cols: nat): (g: Grid)
    ensures IsGrid(g, rows, cols)
    ensures forall r, c :: 0 <= r < rows && 0 <= c < cols ==> g[r][c] == None
  {
    seq(rows, r => seq(cols, c => None))
  }

  /** The cell at `p`, reading outside the grid as empty. */
  function CellAt(g: Grid, p: Position): Cell
  {
    if 0 <= p.row < |g| && 0 <= p.col < |g[p.row]| then g[p.row][p.col] else None
  }

  predicate Inside(rows: nat, cols: nat, p: Position)
  {
    0 <= p.row < rows && 0 <= p.col < cols
  }

  // ---------------------------------------------------------------------------
  // Board at a step: last writer wins
  // ---------------------------------------------------------------------------

  /** The moves `history.moves.slice(0, step)` applies. */
  function Applied(h: History, step: nat): (ms: seq<Move>)
    ensures |ms| == Min(step, |h.moves|)
    ensures ms <= h.moves
  {
    h.moves[..Min(step, |h.moves|)]
  }

  /**
   * Reference meaning of a board position after a sequence of writes: the
   * symbol of the last move made at `p`, or empty when no move was made there.
   */
  function LastWriter(moves: seq<Move>, p: Position): Cell
  {
    if moves == [] then None
    else if moves[|moves| - 1].position == p then Some(moves[|moves| - 1].symbol)
    else LastWriter(moves[..|moves| - 1], p)
  }

  /** A move whose row lies outside the board makes the source's write throw. */
  predicate RowOutside(m: Move, rows: nat)
  {
    !(0 <= m.position.row < rows)
  }

  /** The board shown at `step`: every cell holds its last writer among the applied moves. */
  function GridAt(h: History, step: nat): (g: Grid)
    ensures IsGrid(g, h.gameSetting.boardRows, h.gameSetting.boardCols)
  {
    seq(h.gameSetting.boardRows, r =>
      seq(h.gameSetting.boardCols, c => LastWriter(Applied(h, step), Position(r, c))))
  }

  /** Move `i` is the last of `moves` made at `p`. */
  predicate LastWriteAt(moves: seq<Move>, p: Position, i: int)
  {
    0 <= i < |moves| && moves[i].position == p &&
    forall j :: i < j < |moves| ==> moves[j].position != p
  }

  /**
   * Last writer wins: a position holds symbol `s` exactly when some move wrote
   * `s` there and no later move wrote that position again; it is empty exactly
   * when no move wrote it. Earlier moves are overwritten without any occupancy check.
   */
  lemma {:induction false} LastWriterIsLastMove(moves: seq<Move>, p: Position)
    ensures LastWriter(moves, p).None? <==> forall i :: 0 <= i < |moves| ==> moves[i].position != p
    ensures forall s :: LastWriter(moves, p) == Some(s) <==>
      exists i :: LastWriteAt(moves, p, i) && moves[i].symbol == s
  {
    LastWriterEmpty(moves, p);
    if moves != [] {
      var n := |moves| - 1;
      var front := moves[..n];
      LastWriterIsLastMove(front, p);
      if moves[n].position == p {
        assert LastWriteAt(moves, p, n);
        forall s, i | LastWriteAt(moves, p, i) && moves[i].symbol == s
          ensures LastWriter(moves, p) == Some(s)
        {
          assert i == n;
        }
      } else {
        forall s | LastWriter(moves, p) == Some(s)
          ensures exists i :: LastWriteAt(moves, p, i) && moves[i].symbol == s
        {
          var i :| LastWriteAt(front, p, i) && front[i].symbol == s;
          assert LastWriteAt(moves, p, i);
        }
        forall s, i | LastWriteAt(moves, p, i) && moves[i].symbol == s
          ensures LastWriter(moves, p) == Some(s)
        {
          assert front[i] == moves[i];
          assert LastWriteAt(front, p, i);
        }
      }
    }
  }

  /** A position has no last writer exactly when no move was made there. */
  lemma {:induction false} LastWriterEmpty(moves: seq<Move>, p: Position)
    ensures LastWriter(moves, p).None? <==> forall i :: 0 <= i < |moves| ==> moves[i].position != p
  {
    if moves != [] {
      var n := |moves| - 1;
      LastWriterEmpty(moves[..n], p);
      assert forall i :: 0 <= i < n ==> moves[..n][i] == moves[i];
    }
  }

  /** With no move applied, every cell of the replayed board is empty. */
  lemma GridAtStartIsEmpty(h: History)
    ensures GridAt(h, 0) == EmptyGrid(h.gameSetting.boardRows, h.gameSetting.boardCols)
  {
    var g, e := GridAt(h, 0), EmptyGrid(h.gameSetting.boardRows, h.gameSetting.boardCols);
    assert Applied(h, 0) == [];
    forall r | 0 <= r < |g|
      ensures g[r] == e[r]
    {
    }
  }

  /**
   * `getBoardAtStep`: a fresh `boardRows`×`boardCols` array of empty cells,
   * then each of the first `step` moves written at its position in ledger order.
   * A move whose row lies outside the board makes the write throw (`crashed`);
   * a move whose column lies outside the board writes beside the visible grid
   * and so changes no cell of it.
   */
  method GetBoardAtStep(h: History, step: nat) returns (crashed: bool, board: array2<Cell>)
    ensures board.Length0 == h.gameSetting.boardRows && board.Length1 == h.gameSetting.boardCols
    ensures crashed <==> exists i :: 0 <= i < |Applied(h, step)| && RowOutside(Applied(h, step)[i], board.Length0)
    ensures !crashed ==> forall r, c :: 0 <= r < board.Length0 && 0 <= c < board.Length1 ==>
      board[r, c] == LastWriter(Applied(h, step), Position(r, c))
  {
    var rows, cols := h.gameSetting.boardRows, h.gameSetting.boardCols;
    board := new Cell[rows, cols]((r, c) => None);
    var moves := h.moves[..Min(step, |h.moves|)];
    crashed := false;
    var i := 0;
    while i < |moves|
      invariant 0 <= i <= |moves|
      invariant forall j :: 0 <= j < i ==> !RowOutside(moves[j], rows)
      invariant forall r, c :: 0 <= r < rows && 0 <= c < cols ==> board[r, c] == LastWriter(moves[..i], Position(r, c))
    {
      var m := moves[i];
      if !(0 <= m.position.row < rows) {
        crashed := true;
        assert moves == Applied(h, step) && RowOutside(moves[i], rows);
        return;
      }
      if 0 <= m.position.col < cols {
        board[m.position.row, m.position.col] := Some(m.symbol);
      }
      assert moves[..i + 1][..i] == moves[..i];
      i := i + 1;
    }
    assert moves[..i] == moves;
  }

  /** The contents of a board array as a grid value. */
  function Snapshot(board: array2<Cell>): (g: Grid)
    reads board
    ensures IsGrid(g, board.Length0, board.Length1)
    ensures forall r, c :: 0 <= r < board.Length0 && 0 <= c < board.Length1 ==> g[r][c] == board[r, c]
  {
    seq(board.Length0, r requires 0 <= r < board.Length0 reads board =>
      seq(board.Length1, c requires 0 <= c < board.Length1 reads board => board[r, c]))
  }

  // ---------------------------------------------------------------------------
  // Win detection
  // ---------------------------------------------------------------------------

  /**
   * The run length that wins, as the replay computes it: `min(5, max(rows, cols))`.
   * It uses the larger dimension, so on a non-square board a run along the
   * shorter dimension can be too short ever to win.
   */
  function WinLength(rows: nat, cols: nat): (k: nat)
    ensures k <= 5
    ensures k <= rows || k <= cols
    ensures k < 5 ==> rows <= k && cols <= k
  {
    Min(5, Max(rows, cols))
  }

  /** The four scan directions, in the order the scan tries them. */
  datatype Direction = Horizontal | Vertical | DiagonalDown | DiagonalUp

  const Directions: seq<Direction> := [Horizontal, Vertical, DiagonalDown, DiagonalUp]

  /** The position `i` steps from `p` along `d`: (0,1), (1,0), (1,1) or (1,-1) per step. */
  function Offset(p: Position, d: Direction, i: int): Position
  {
    match d
    case Horizontal => Position(p.row, p.col + i)
    case Vertical => Position(p.row + i, p.col)
    case DiagonalDown => Position(p.row + i, p.col + i)
    case DiagonalUp => Position(p.row + i, p.col - i)
  }

  /** The `k` positions of a forward run starting at `p` along `d`. */
  function RunLine(p: Position, d: Direction, k: nat): (line: seq<Position>)
    ensures |line| == k
    ensures forall i :: 0 <= i < k ==> line[i] == Offset(p, d, i)
  {
    seq(k, i => Offset(p, d, i))
  }

  /** The first `k` positions from `p` along `d` are on the board and hold `s`. */
  predicate RunOf(g: Grid, rows: nat, cols: nat, p: Position, d: Direction, s: Symbol, k: nat)
  {
    forall i :: 0 <= i < k ==> Inside(rows, cols, Offset(p, d, i)) && CellAt(g, Offset(p, d, i)) == Some(s)
  }

  /** The occupied cell `p` starts a forward same-symbol run of the winning length along `d`. */
  predicate WinsFrom(g: Grid, rows: nat, cols: nat, p: Position, d: Direction)
  {
    Inside(rows, cols, p) && CellAt(g, p).Some? &&
    RunOf(g, rows, cols, p, d, CellAt(g, p).value, WinLength(rows, cols))
  }

  /** What `checkWinner` returns: `{null, null}` or the winner and its line. */
  datatype WinResult = NoWin | Win(winner: Symbol, winningLine: seq<Position>)

  /**
   * The scan from candidate (row, col, k) onwards: cells in row-major order,
   * and for each cell the directions in the order of `Directions`.
   */
  function ScanFrom(g: Grid, rows: nat, cols: nat, row: nat, col: nat, k: nat): WinResult
    decreases rows - row, cols - col, 4 - k
  {
    if row >= rows then NoWin
    else if col >= cols then ScanFrom(g, rows, cols, row + 1, 0, 0)
    else if k >= 4 then ScanFrom(g, rows, cols, row, col + 1, 0)
    else if WinsFrom(g, rows, cols, Position(row, col), Directions[k]) then
      Win(CellAt(g, Position(row, col)).value, RunLine(Position(row, col), Directions[k], WinLength(rows, cols)))
    else ScanFrom(g, rows, cols, row, col, k + 1)
  }

  /** The result of scanning the whole board. */
  function Scan(g: Grid, rows: nat, cols: nat): WinResult
  {
    ScanFrom(g, rows, cols, 0, 0, 0)
  }


  /** Candidate (r, c, i) exists: a board cell and one of the four directions. */
  predicate Candidate(rows: nat, cols: nat, r: int, c: int, i: int)
  {
    0 <= r < rows && 0 <= c < cols && 0 <= i < 4
  }

  /** Candidate (r1, c1, i1) is tried before (r2, c2, i2). */
  predicate Before(r1: int, c1: int, i1: int, r2: int, c2: int, i2: int)
  {
    r1 < r2 || (r1 == r2 && (c1 < c2 || (c1 == c2 && i1 < i2)))
  }

  /** Candidate (r, c, i) wins. */
  predicate WinsAt(g: Grid, rows: nat, cols: nat, r: int, c: int, i: int)
  {
    0 <= i < 4 && WinsFrom(g, rows, cols, Position(r, c), Directions[i])
  }

  /** What the scan reports when candidate (r, c, i) wins. */
  function WinOf(g: Grid, rows: nat, cols: nat, r: int, c: int, i: int): WinResult
    requires WinsAt(g, rows, cols, r, c, i)
  {
    Win(CellAt(g, Position(r, c)).value, RunLine(Position(r, c), Directions[i], WinLength(rows, cols)))
  }

  /** No candidate from (row, col, k) up to, and excluding, (r, c, i) wins. */
  ghost predicate NoWinBetween(g: Grid, rows: nat, cols: nat, row: int, col: int, k: int, r: int, c: int, i: int)
  {
    forall r', c', i' ::
      Candidate(rows, cols, r', c', i') && !Before(r', c', i', row, col, k) && Before(r', c', i', r, c, i)
      ==> !WinsAt(g, rows, cols, r', c', i')
  }

  /** Candidate (r, c, i) is the first winner the scan meets from (row, col, k) on. */
  ghost predicate FirstWinFrom(g: Grid, rows: nat, cols: nat, row: int, col: int, k: int, r: int, c: int, i: int)
  {
    Candidate(rows, cols, r, c, i) && !Before(r, c, i, row, col, k) &&
    WinsAt(g, rows, cols, r, c, i) && NoWinBetween(g, rows, cols, row, col, k, r, c, i)
  }

  lemma {:induction false} ScanFromNoWin(g: Grid, rows: nat, cols: nat, row: nat, col: nat, k: nat)
    ensures ScanFrom(g, rows, cols, row, col, k) == NoWin <==>
      forall r, c, i :: Candidate(rows, cols, r, c, i) && !Before(r, c, i, row, col, k) ==> !WinsAt(g, rows, cols, r, c, i)
    decreases rows - row, cols - col, 4 - k
  {
    if row >= rows {
    } else if col >= cols {
      ScanFromNoWin(g, rows, cols, row + 1, 0, 0);
    } else if k >= 4 {
      ScanFromNoWin(g, rows, cols, row, col + 1, 0);
    } else if WinsAt(g, rows, cols, row, col, k) {
      assert Candidate(rows, cols, row, col, k);
    } else {
      ScanFromNoWin(g, rows, cols, row, col, k + 1);
    }
  }

  lemma {:induction false} ScanFromFirst(g: Grid, rows: nat, cols: nat, row: nat, col: nat, k: nat)
    requires ScanFrom(g, rows, cols, row, col, k).Win?
    ensures exists r, c, i ::
      FirstWinFrom(g, rows, cols, row, col, k, r, c, i) && ScanFrom(g, rows, cols, row, col, k) == WinOf(g, rows, cols, r, c, i)
    decreases rows - row, cols - col, 4 - k
  {
    if row >= rows {
    } else if col >= cols {
      ScanFromFirst(g, rows, cols, row + 1, 0, 0);
      var r, c, i :| FirstWinFrom(g, rows, cols, row + 1, 0, 0, r, c, i) &&
        ScanFrom(g, rows, cols, row + 1, 0, 0) == WinOf(g, rows, cols, r, c, i);
      assert FirstWinFrom(g, rows, cols, row, col, k, r, c, i);
    } else if k >= 4 {
      ScanFromFirst(g, rows, cols, row, col + 1, 0);
      var r, c, i :| FirstWinFrom(g, rows, cols, row, col + 1, 0, r, c, i) &&
        ScanFrom(g, rows, cols, row, col + 1, 0) == WinOf(g, rows, cols, r, c, i);
      assert FirstWinFrom(g, rows, cols, row, col, k, r, c, i);
    } else if WinsAt(g, rows, cols, row, col, k) {
      assert FirstWinFrom(g, rows, cols, row, col, k, row, col, k);
    } else {
      ScanFromFirst(g, rows, cols, row, col, k + 1);
      var r, c, i :| FirstWinFrom(g, rows, cols, row, col, k + 1, r, c, i) &&
        ScanFrom(g, rows, cols, row, col, k + 1) == WinOf(g, rows, cols, r, c, i);
      assert FirstWinFrom(g, rows, cols, row, col, k, r, c, i);
    }
  }

  /**
   * Completeness: the scan reports no winner exactly when no occupied cell
   * starts a forward same-symbol run of the winning length in any direction.
   */
  lemma ScanNoWinIff(g: Grid, rows: nat, cols: nat)
    ensures Scan(g, rows, cols) == NoWin <==>
      forall r, c, i :: Candidate(rows, cols, r, c, i) ==> !WinsAt(g, rows, cols, r, c, i)
  {
    ScanFromNoWin(g, rows, cols, 0, 0, 0);
  }

  /**
   * Tie-break: a reported win is the run of the first winning candidate, cells
   * taken in row-major order and, per cell, directions (0,1), (1,0), (1,1), (1,-1).
   */
  lemma ScanReportsFirstWin(g: Grid, rows: nat, cols: nat)
    requires Scan(g, rows, cols).Win?
    ensures exists r, c, i ::
      FirstWinFrom(g, rows, cols, 0, 0, 0, r, c, i) && Scan(g, rows, cols) == WinOf(g, rows, cols, r, c, i)
  {
    ScanFromFirst(g, rows, cols, 0, 0, 0);
  }

  /** Consecutive cells of `line` differ by one step of the direction `Directions[i]`. */
  predicate StepsAlong(line: seq<Position>, i: int)
  {
    0 <= i < 4 && forall j :: 0 < j < |line| ==> line[j] == Offset(line[j - 1], Directions[i], 1)
  }

  /**
   * Soundness: a reported winning line has exactly the winning length, lies on
   * the board, holds the winner's symbol in every cell and is a straight line
   * along one of the four directions.
   */
  lemma WinningLineShape(g: Grid, rows: nat, cols: nat, s: Symbol, line: seq<Position>)
    requires Scan(g, rows, cols) == Win(s, line)
    ensures |line| == WinLength(rows, cols)
    ensures forall j :: 0 <= j < |line| ==> Inside(rows, cols, line[j]) && CellAt(g, line[j]) == Some(s)
    ensures exists i :: StepsAlong(line, i)
  {
    ScanReportsFirstWin(g, rows, cols);
    var r, c, i :| FirstWinFrom(g, rows, cols, 0, 0, 0, r, c, i) &&
      Scan(g, rows, cols) == WinOf(g, rows, cols, r, c, i);
    var p, d, k := Position(r, c), Directions[i], WinLength(rows, cols);
    assert line == RunLine(p, d, k);
    assert RunOf(g, rows, cols, p, d, s, k);
    forall j | 0 <= j < |line|
      ensures Inside(rows, cols, line[j]) && CellAt(g, line[j]) == Some(s)
    {
      assert line[j] == Offset(p, d, j);
    }
    RunLineSteps(p, i, k);
  }

  /** A run's consecutive positions differ by one step of its direction. */
  lemma RunLineSteps(p: Position, i: int, k: nat)
    requires 0 <= i < 4
    ensures StepsAlong(RunLine(p, Directions[i], k), i)
  {
    var line, d := RunLine(p, Directions[i], k), Directions[i];
    forall j | 0 < j < |line|
      ensures line[j] == Offset(line[j - 1], d, 1)
    {
      assert line[j] == Offset(p, d, j) && line[j - 1] == Offset(p, d, j - 1);
    }
  }

  /**
   * Because the winning length uses the larger dimension, a board with fewer
   * rows than the winning length (3×5, say, where it is 5) can only be won by
   * a horizontal run: every cell of a winning line lies in one row.
   */
  lemma ShortBoardWinsOnlyHorizontally(g: Grid, rows: nat, cols: nat, s: Symbol, line: seq<Position>)
    requires rows < WinLength(rows, cols)
    requires Scan(g, rows, cols) == Win(s, line)
    ensures forall j :: 0 <= j < |line| ==> line[j].row == line[0].row
  {
    ScanReportsFirstWin(g, rows, cols);
    var r, c, i :| FirstWinFrom(g, rows, cols, 0, 0, 0, r, c, i) &&
      Scan(g, rows, cols) == WinOf(g, rows, cols, r, c, i);
    var k := WinLength(rows, cols);
    assert Inside(rows, cols, Offset(Position(r, c), Directions[i], k - 1));
    assert i == 0;
  }

  /** A board with no occupied cell has no winner. */
  lemma EmptyGridHasNoWinner(rows: nat, cols: nat)
    ensures Scan(EmptyGrid(rows, cols), rows, cols) == NoWin
  {
    ScanNoWinIff(EmptyGrid(rows, cols), rows, cols);
  }

  lemma EmptyCellSkipped(g: Grid, rows: nat, cols: nat, row: nat, col: nat)
    requires row < rows && col < cols
    requires CellAt(g, Position(row, col)) == None
    ensures ScanFrom(g, rows, cols, row, col, 0) == ScanFrom(g, rows, cols, row, col + 1, 0)
  {
    assert ScanFrom(g, rows, cols, row, col, 0) == ScanFrom(g, rows, cols, row, col, 1);
    assert ScanFrom(g, rows, cols, row, col, 1) == ScanFrom(g, rows, cols, row, col, 2);
    assert ScanFrom(g, rows, cols, row, col, 2) == ScanFrom(g, rows, cols, row, col, 3);
    assert ScanFrom(g, rows, cols, row, col, 3) == ScanFrom(g, rows, cols, row, col, 4);
  }

  /**
   * One direction of `checkWinner`'s inner loop: the forward run of cells equal
   * to the starting cell, stopped at the first mismatch, the board edge or
   * `maxInRow` cells.
   */
  method ForwardRun(board: array2<Cell>, p: Position, d: Direction, maxInRow: nat) returns (line: seq<Position>)
    requires Inside(board.Length0, board.Length1, p) && board[p.row, p.col].Some?
    ensures |line| <= maxInRow && line == RunLine(p, d, |line|)
    ensures |line| == maxInRow <==>
      RunOf(Snapshot(board), board.Length0, board.Length1, p, d, board[p.row, p.col].value, maxInRow)
  {
    ghost var g := Snapshot(board);
    var rows, cols := board.Length0, board.Length1;
    var cell := board[p.row, p.col];
    line := [];
    var i := 0;
    while i < maxInRow
      invariant 0 <= i <= maxInRow
      invariant line == RunLine(p, d, i)
      invariant RunOf(g, rows, cols, p, d, cell.value, i)
    {
      var q := Offset(p, d, i);
      if 0 <= q.row < rows && 0 <= q.col < cols && board[q.row, q.col] == cell {
        line := line + [q];
        i := i + 1;
      } else {
        return;
      }
    }
  }

  /**
   * `checkWinner`: from every occupied cell in row-major order, and for each
   * direction in turn, collect the forward run of cells equal to it; the first
   * run that reaches the winning length is returned with its symbol.
   */
  method CheckWinner(board: array2<Cell>) returns (result: WinResult)
    ensures result == Scan(Snapshot(board), board.Length0, board.Length1)
  {
    ghost var g := Snapshot(board);
    var rows, cols := board.Length0, board.Length1;
    var maxInRow := WinLength(rows, cols);
    var row := 0;
    while row < rows
      invariant 0 <= row <= rows
      invariant ScanFrom(g, rows, cols, row, 0, 0) == Scan(g, rows, cols)
    {
      var col := 0;
      while col < cols
        invariant 0 <= col <= cols
        invariant ScanFrom(g, rows, cols, row, col, 0) == Scan(g, rows, cols)
      {
        var cell := board[row, col];
        if cell == None {
          EmptyCellSkipped(g, rows, cols, row, col);
        } else {
          var k := 0;
          while k < 4
            invariant 0 <= k <= 4
            invariant ScanFrom(g, rows, cols, row, col, k) == Scan(g, rows, cols)
          {
            var line := ForwardRun(board, Position(row, col), Directions[k], maxInRow);
            if |line| >= maxInRow {
              return Win(cell.value, line);
            }
            k := k + 1;
          }
        }
        col := col + 1;
      }
      row := row + 1;
    }
    return NoWin;
  }

  // ---------------------------------------------------------------------------
  // Winning line at a step
  // ---------------------------------------------------------------------------

  /**
   * `getWinningLine`: no line before the last move; from the last move on,
   * the line the scan finds on the rebuilt board, or none.
   */
  function WinningLineAt(h: History, step: nat): Option<seq<Position>>
  {
    if step < |h.moves| then None
    else match Scan(GridAt(h, step), h.gameSetting.boardRows, h.gameSetting.boardCols)
      case NoWin => None
      case Win(_, line) => Some(line)
  }

  /**
   * A winning line is shown only once every move has been replayed; it then
   * has the winning length and all its cells hold one symbol on the rebuilt board.
   */
  lemma WinningLineOnlyAtEnd(h: History, step: nat)
    requires WinningLineAt(h, step).Some?
    ensures step >= |h.moves|
    ensures |WinningLineAt(h, step).value| == WinLength(h.gameSetting.boardRows, h.gameSetting.boardCols)
    ensures exists s: Symbol :: forall j :: 0 <= j < |WinningLineAt(h, step).value| ==>
      CellAt(GridAt(h, step), WinningLineAt(h, step).value[j]) == Some(s)
  {
    var rows, cols := h.gameSetting.boardRows, h.gameSetting.boardCols;
    var result := Scan(GridAt(h, step), rows, cols);
    WinningLineShape(GridAt(h, step), rows, cols, result.winner, result.winningLine);
    var line := WinningLineAt(h, step).value;
    assert line == result.winningLine;
    assert forall j :: 0 <= j < |line| ==> CellAt(GridAt(h, step), line[j]) == Some(result.winner);
  }

  /** Every cell the board highlights as winning holds a symbol of the final board. */
  lemma HighlightedCellsAreOccupied(h: History, step: nat, row: int, col: int)
    requires Board.IsWinningCell(WinningLineAt(h, step), row, col)
    ensures step >= |h.moves|
    ensures 0 <= row < h.gameSetting.boardRows && 0 <= col < h.gameSetting.boardCols
    ensures GridAt(h, step)[row][col].Some?
  {
    var rows, cols := h.gameSetting.boardRows, h.gameSetting.boardCols;
    var result := Scan(GridAt(h, step), rows, cols);
    WinningLineShape(GridAt(h, step), rows, cols, result.winner, result.winningLine);
    var j :| 0 <= j < |result.winningLine| && result.winningLine[j] == Position(row, col);
  }

  /**
   * `getWinningLine` as the component runs it: before the last move it returns
   * no line without rebuilding anything; otherwise it rebuilds the board (which
   * throws on a move whose row is off the board) and scans it.
   */
  method GetWinningLine(h: History, step: nat) returns (crashed: bool, line: Option<seq<Position>>)
    ensures crashed <==> (step >= |h.moves| &&
      exists i :: 0 <= i < |Applied(h, step)| && RowOutside(Applied(h, step)[i], h.gameSetting.boardRows))
    ensures !crashed ==> line == WinningLineAt(h, step)
  {
    if step < |h.moves| {
      return false, None;
    }
    var board;
    crashed, board := GetBoardAtStep(h, step);
    if crashed {
      return true, None;
    }
    var result := CheckWinner(board);
    var g := GridAt(h, step);
    forall r | 0 <= r < board.Length0
      ensures Snapshot(board)[r] == g[r]
    {
    }
    assert Snapshot(board) == g;
    line := if result.Win? then Some(result.winningLine) else None;
  }

  // ---------------------------------------------------------------------------
  // Turn, status and cursor rules
  // ---------------------------------------------------------------------------

  /** `getCurrentPlayer`: 'X' on even steps, 'O' on odd ones. */
  function CurrentPlayer(step: int): (p: Symbol)
    ensures p == X <==> step % 2 == 0
  {
    if step % 2 == 0 then X else O
  }

  /** The player to move changes with every step and comes back after two. */
  lemma TurnsAlternate(step: int)
    ensures CurrentPlayer(step + 1) != CurrentPlayer(step)
    ensures CurrentPlayer(step + 2) == CurrentPlayer(step)
  {
  }

  /** A ledger as live play records it: 'X' first, then the symbols alternate. */
  predicate Alternating(moves: seq<Move>)
  {
    (|moves| > 0 ==> moves[0].symbol == X) &&
    forall i :: 0 < i < |moves| ==> moves[i].symbol != moves[i - 1].symbol
  }

  /** On an alternating ledger the player shown at step `i` is the one who makes move `i`. */
  lemma {:induction false} CurrentPlayerMakesNextMove(moves: seq<Move>, i: nat)
    requires Alternating(moves) && i < |moves|
    ensures CurrentPlayer(i) == moves[i].symbol
  {
    if i > 0 {
      CurrentPlayerMakesNextMove(moves, i - 1);
      assert moves[i].symbol != moves[i - 1].symbol;
    }
  }

  /**
   * The `gameStatus` handed to the board: 'finished' exactly when the cursor
   * has reached the last move of a completed game, 'playing' otherwise.
   */
  function ReplayBoardStatus(step: int, totalMoves: nat, status: GameStatus): (r: Board.BoardStatus)
    ensures r != Board.DrawStatus
    ensures r == Board.Finished <==> step >= totalMoves && status == Completed
  {
    if step >= totalMoves && status == Completed then Board.Finished else Board.Playing
  }

  /**
   * The replay hands the board a do-nothing click handler, so a click is
   * forwarded exactly until a completed game's last move is on the board.
   */
  lemma ReplayClicksForwardedUntilFinished(step: int, totalMoves: nat, status: GameStatus, row: int, col: int)
    ensures Board.HandleCellClick(true, false, Some(ReplayBoardStatus(step, totalMoves, status)), row, col).Some?
      <==> !(step >= totalMoves && status == Completed)
  {
  }

  /** `handlePrevious`'s target: one move back, never below 0. */
  function PreviousStep(step: int): (s: int)
    ensures s >= 0
    ensures step >= 1 ==> s == step - 1
    ensures step < 1 ==> s == 0
  {
    Max(0, step - 1)
  }

  /** `handleNext`'s target: one move on, never past the last move. */
  function NextStep(step: int, totalMoves: nat): (s: int)
    ensures s <= totalMoves
    ensures step < totalMoves ==> s == step + 1
    ensures step >= totalMoves ==> s == totalMoves
  {
    Min(totalMoves, step + 1)
  }

  /** Inside [0, total], next and previous undo each other away from the ends. */
  lemma NextPreviousRoundTrip(step: int, totalMoves: nat)
    requires 0 <= step <= totalMoves
    ensures 0 <= PreviousStep(step) <= totalMoves && 0 <= NextStep(step, totalMoves) <= totalMoves
    ensures step < totalMoves ==> PreviousStep(NextStep(step, totalMoves)) == step
    ensures step > 0 ==> NextStep(PreviousStep(step), totalMoves) == step
  {
  }

  /** The playback intervals, in milliseconds, in the order the speed button cycles them. */
  const Speeds: seq<int> := [2000, 1000, 500, 250]

  /** `Array.prototype.indexOf`: the first index holding `x`, or -1. */
  function IndexOf(xs: seq<int>, x: int): (i: int)
    ensures -1 <= i < |xs|
    ensures i == -1 <==> x !in xs
    ensures i >= 0 ==> xs[i] == x && x !in xs[..i]
  {
    if xs == [] then -1
    else if xs[0] == x then 0
    else
      var j := IndexOf(xs[1..], x);
      assert j >= 0 ==> xs[1..][..j] == xs[1..j + 1];
      if j == -1 then -1 else j + 1
  }

  /** `handleSpeedChange`: the interval after the current one in the cycle; any unlisted interval goes to 2000. */
  function NextSpeed(speed: int): (next: int)
    ensures next in Speeds
  {
    Speeds[(IndexOf(Speeds, speed) + 1) % |Speeds|]
  }

  /** The button cycles 2000 → 1000 → 500 → 250 → 2000, and sends any other value to 2000. */
  lemma SpeedCycle(speed: int)
    ensures NextSpeed(2000) == 1000 && NextSpeed(1000) == 500
    ensures NextSpeed(500) == 250 && NextSpeed(250) == 2000
    ensures speed !in Speeds ==> NextSpeed(speed) == 2000
  {
    NextSpeedTable(2000);
    NextSpeedTable(1000);
    NextSpeedTable(500);
    NextSpeedTable(250);
    NextSpeedTable(speed);
  }

  /** The speed button's transition table. */
  lemma NextSpeedTable(x: int)
    ensures NextSpeed(x) ==
      if x == 2000 then 1000 else if x == 1000 then 500 else if x == 500 then 250 else 2000
  {
    SpeedIndex(x);
  }

  /** Where each interval sits in the cycle; -1 for an unlisted one. */
  lemma SpeedIndex(x: int)
    ensures IndexOf(Speeds, x) ==
      if x == 2000 then 0 else if x == 1000 then 1 else if x == 500 then 2 else if x == 250 then 3 else -1
  {
    var i := IndexOf(Speeds, x);
    if x in Speeds {
      assert 0 <= i < 4 && Speeds[i] == x;
    }
  }

  /** Four presses bring a listed interval back to itself, and any other interval to 250. */
  lemma FourPressesReturn(speed: int)
    ensures NextSpeed(NextSpeed(NextSpeed(NextSpeed(speed)))) == (if speed in Speeds then speed else 250)
  {
    var a := NextSpeed(speed);
    var b := NextSpeed(a);
    var c := NextSpeed(b);
    NextSpeedTable(speed);
    NextSpeedTable(a);
    NextSpeedTable(b);
    NextSpeedTable(c);
  }

  /** `getSpeedLabel`: the rate relative to one move per second; unlisted intervals read '1x'. */
  function SpeedLabel(speed: int): (text: string)
    ensures text in ["0.5x", "1x", "2x", "4x"]
    ensures text == "1x" <==> speed != 2000 && speed != 500 && speed != 250
  {
    match speed
    case 2000 => "0.5x"
    case 1000 => "1x"
    case 500 => "2x"
    case 250 => "4x"
    case _ => "1x"
  }

  /** Each listed interval has its own label, and only 1000 ms and unlisted intervals read '1x'. */
  lemma SpeedLabelsDistinct(a: int, b: int)
    requires a in Speeds && b in Speeds && a != b
    ensures SpeedLabel(a) != SpeedLabel(b)
  {
  }

  /**
   * The replay's `getWinnerDisplay`: 'Abandoned' first, then 'In Progress' for
   * an unfinished game without a winner, then the winner; a stored draw, and a
   * game that records no winner, read 'Draw'.
   */
  function WinnerDisplay(h: History): (text: string)
    ensures h.gameStatus == Abandoned ==> text == "Abandoned"
    ensures h.gameStatus != Abandoned && h.winner.None? ==>
      text == (if h.gameStatus == InProgress then "In Progress" else "Draw")
    ensures h.gameStatus != Abandoned && h.winner.Some? ==>
      text == match h.winner.value
        case WonBySt => "Player X Won"
        case WonByNd => "Player O Won"
        case WonByBot => "Bot Won"
        case Drawn => "Draw"
  {
    if h.gameStatus == Abandoned then "Abandoned"
    else if h.winner.None? && h.gameStatus == InProgress then "In Progress"
    else if h.winner == Some(Drawn) then "Draw"
    else match h.winner
      case Some(WonBySt) => "Player X Won"
      case Some(WonByNd) => "Player O Won"
      case Some(WonByBot) => "Bot Won"
      case _ => "Draw"
  }

  /** How the move list draws entry `index`: already replayed, the next one, or still to come. */
  datatype EntryState = Replayed | UpNext | Pending

  function EntryStateAt(index: int, step: int): (e: EntryState)
    ensures e == Replayed <==> index < step
    ensures e == UpNext <==> index == step
  {
    if index < step then Replayed else if index == step then UpNext else Pending
  }

  // ---------------------------------------------------------------------------
  // The replay component's own state and its handlers
  // ---------------------------------------------------------------------------

  /**
   * The replay view: the game shown, the shared history store holding the
   * cursor, and the view's own playing flag and playback interval.
   */
  class ReplayPlayer {
    const history: History
    const store: HistoryStore.Store
    var isPlaying: bool
    var playbackSpeed: int

    /** While mounted, the store holds this game and a cursor inside its ledger. */
    ghost predicate Valid()
      reads this, store
    {
      store.Valid() && store.currentReplay == Some(history)
    }

    /** Mounting: paused at 1x, and the store's replay started on this game. */
    constructor (h: History, s: HistoryStore.Store)
      modifies s
      ensures history == h && store == s && Valid()
      ensures !isPlaying && playbackSpeed == 1000 && s.replayStep == 0
      ensures s.histories == old(s.histories) && s.loading == old(s.loading) && s.error == old(s.error)
    {
      history := h;
      store := s;
      isPlaying := false;
      playbackSpeed := 1000;
      new;
      s.StartReplay(h);
    }

    method HandlePrevious()
      requires Valid()
      modifies this`isPlaying, store`replayStep
      ensures Valid() && !isPlaying && playbackSpeed == old(playbackSpeed)
      ensures store.replayStep == PreviousStep(old(store.replayStep))
    {
      isPlaying := false;
      store.SetReplayStep(PreviousStep(store.replayStep));
    }

    method HandleNext()
      requires Valid()
      modifies this`isPlaying, store`replayStep
      ensures Valid() && !isPlaying && playbackSpeed == old(playbackSpeed)
      ensures store.replayStep == NextStep(old(store.replayStep), |history.moves|)
    {
      isPlaying := false;
      store.SetReplayStep(NextStep(store.replayStep, |history.moves|));
    }

    /** `handlePlayPause`: at the end, rewind and play; otherwise toggle playing. */
    method HandlePlayPause()
      requires Valid()
      modifies this`isPlaying, store`replayStep
      ensures Valid() && playbackSpeed == old(playbackSpeed)
      ensures old(store.replayStep) >= |history.moves| ==> store.replayStep == 0 && isPlaying
      ensures old(store.replayStep) < |history.moves| ==>
        store.replayStep == old(store.replayStep) && isPlaying == !old(isPlaying)
    {
      if store.replayStep >= |history.moves| {
        store.SetReplayStep(0);
        isPlaying := true;
      } else {
        isPlaying := !isPlaying;
      }
    }

    method HandleRestart()
      requires Valid()
      modifies this`isPlaying, store`replayStep
      ensures Valid() && !isPlaying && store.replayStep == 0 && playbackSpeed == old(playbackSpeed)
    {
      isPlaying := false;
      store.SetReplayStep(0);
    }

    method HandleSpeedChange()
      modifies this`playbackSpeed
      ensures playbackSpeed == NextSpeed(old(playbackSpeed)) && isPlaying == old(isPlaying)
    {
      playbackSpeed := NextSpeed(playbackSpeed);
    }

    /** The slider: pause, then jump to the chosen step if it lies inside the ledger. */
    method HandleSliderChange(value: int)
      requires Valid()
      modifies this`isPlaying, store`replayStep
      ensures Valid() && !isPlaying && playbackSpeed == old(playbackSpeed)
      ensures store.replayStep == if 0 <= value <= |history.moves| then value else old(store.replayStep)
    {
      isPlaying := false;
      store.SetReplayStep(value);
    }

    /** Clicking move `index` in the list: pause and show the board just after that move. */
    method HandleMoveClick(index: nat)
      requires Valid() && index < |history.moves|
      modifies this`isPlaying, store`replayStep
      ensures Valid() && !isPlaying && store.replayStep == index + 1
      ensures playbackSpeed == old(playbackSpeed)
    {
      isPlaying := false;
      store.SetReplayStep(index + 1);
    }

    /** Unmounting stops the store's replay. */
    method Unmount()
      modifies store
      ensures store.currentReplay == None && store.replayStep == 0 && !store.isReplaying
      ensures store.histories == old(store.histories) && store.loading == old(store.loading)
      ensures store.error == old(store.error)
    {
      store.StopReplay();
    }
  }
}
