/**
 * The move tracker panel (components/move-tracker.tsx): player names and
 * icons per game mode, the numbered move list and the per-symbol counts.
 */
module MoveTracker {
  import opened Wrappers
  import opened Schema
  import GameReplay

  datatype GameMode = VsFriend | VsBot

  /** `getPlayerName`: against the bot 'X' is 'You' and 'O' the 'Bot'; otherwise 'Player X' / 'Player O'. */
  function PlayerName(mode: GameMode, player: Symbol): (name: string)
    ensures mode == VsBot ==> name == (if player == X then "You" else "Bot")
    ensures mode == VsFriend ==> name == "Player " + (if player == X then "X" else "O")
  {
    if mode == VsBot then (if player == X then "You" else "Bot")
    else "Player " + (if player == X then "X" else "O")
  }

  /** Within one mode the two symbols always get different names. */
  lemma PlayerNamesDistinct(mode: GameMode)
    ensures PlayerName(mode, X) != PlayerName(mode, O)
  {
    if mode == VsFriend {
      assert PlayerName(mode, X)[7] == 'X' && PlayerName(mode, O)[7] == 'O';
    }
  }

  /** `getPlayerIcon`: a cross mark for 'X', a circle for 'O'. */
  function PlayerIcon(player: Symbol): (icon: string)
    ensures icon == (if player == X then "❌" else "⭕")
  {
    if player == X then "❌" else "⭕"
  }

  /** The two symbols never share an icon, and neither shares one with a name. */
  lemma IconsDistinct(mode: GameMode, a: Symbol, b: Symbol)
    ensures PlayerIcon(a) == PlayerIcon(b) <==> a == b
    ensures PlayerIcon(a) != PlayerName(mode, b)
  {
    assert PlayerIcon(X)[0] != PlayerIcon(O)[0];
  }

  /** One line of the move list. */
  datatype Entry = Entry(number: int, icon: string, name: string, shownRow: int, shownCol: int)

  /**
   * The move list: the move at index i is numbered i + 1 and its position is
   * shown one-based, with the mover's icon and name.
   */
  function Entries(mode: GameMode, moves: seq<Move>): (entries: seq<Entry>)
    ensures |entries| == |moves|
    ensures forall i :: 0 <= i < |moves| ==>
      entries[i].number == i + 1 &&
      entries[i].shownRow == moves[i].position.row + 1 && entries[i].shownCol == moves[i].position.col + 1 &&
      entries[i].icon == PlayerIcon(moves[i].symbol) && entries[i].name == PlayerName(mode, moves[i].symbol)
  {
    seq(|moves|, i requires 0 <= i < |moves| =>
      Entry(i + 1, PlayerIcon(moves[i].symbol), PlayerName(mode, moves[i].symbol),
        moves[i].position.row + 1, moves[i].position.col + 1))
  }

  /** `moves.filter(m => m.symbol === s).length`. */
  function CountSymbol(moves: seq<Move>, s: Symbol): (n: nat)
    ensures n <= |moves|
  {
    if moves == [] then 0
    else CountSymbol(moves[..|moves| - 1], s) + (if moves[|moves| - 1].symbol == s then 1 else 0)
  }

  /** Every move is an 'X' or an 'O' move, so the two counts add up to the number of moves. */
  lemma {:induction false} CountsAddUp(moves: seq<Move>)
    ensures CountSymbol(moves, X) + CountSymbol(moves, O) == |moves|
  {
    if moves != [] {
      CountsAddUp(moves[..|moves| - 1]);
    }
  }

  /**
   * On a ledger that starts with 'X' and alternates, 'X' has made half the
   * moves rounded up and 'O' half rounded down.
   */
  lemma {:induction false} AlternatingCounts(moves: seq<Move>)
    requires GameReplay.Alternating(moves)
    ensures CountSymbol(moves, X) == (|moves| + 1) / 2
    ensures CountSymbol(moves, O) == |moves| / 2
  {
    if moves != [] {
      var n := |moves| - 1;
      var prefix := moves[..n];
      assert GameReplay.Alternating(prefix) by {
        forall i | 0 < i < |prefix|
          ensures prefix[i].symbol != prefix[i - 1].symbol
        {
          assert prefix[i] == moves[i] && prefix[i - 1] == moves[i - 1];
        }
      }
      AlternatingCounts(prefix);
      GameReplay.CurrentPlayerMakesNextMove(moves, n);
    }
  }

  /** The stats block: the two counts, drawn only when at least one move exists. */
  function Stats(moves: seq<Move>): (stats: Option<(nat, nat)>)
    ensures stats.Some? <==> |moves| > 0
    ensures stats.Some? ==> stats.value.0 + stats.value.1 == |moves|
  {
    CountsAddUp(moves);
    if |moves| > 0 then Some((CountSymbol(moves, X), CountSymbol(moves, O))) else None
  }
}
