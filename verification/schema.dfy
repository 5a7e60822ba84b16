/**
 * The records stored for a finished game: a move ledger plus its settings and
 * outcome (database/schema/user.interface.ts). Dates and timestamps are left out.
 */
module Schema {
  import opened Wrappers

  /** The symbol a move writes into a cell. */
  datatype Symbol = X | O

  /** Who made a move: the first player, the second player or the bot. */
  datatype PlayerId = St | Nd | Bot

  /** A zero-indexed board coordinate. */
  datatype Position = Position(row: int, col: int)

  datatype Move = Move(playerId: PlayerId, symbol: Symbol, position: Position, moveNumber: int)

  datatype GameStatus = Completed | Abandoned | InProgress

  /** The stored outcome of a game. */
  datatype Winner = WonBySt | WonByNd | Drawn | WonByBot

  datatype Difficulty = Easy | Medium | Hard

  datatype GameSetting = GameSetting(duration: int, boardRows: nat, boardCols: nat, aiDifficulty: Difficulty)

  /** One saved game: its outcome, its settings and its ordered move ledger. */
  datatype History = History(
    id: string,
    gameStatus: GameStatus,
    winner: Option<Winner>,
    gameSetting: GameSetting,
    moves: seq<Move>)
}
