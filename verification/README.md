# xo-digio: a Dafny model of the game logic

xo-digio is a tic-tac-toe web application on boards of 3 to 10 rows and
columns. Players play against a friend or a bot, signed-in players keep a
history of games, and every saved game can be replayed move by move. This
project models the application's logic in Dafny and proves what it
promises. The modelled parts are:

- **Replay reconstruction and win detection** (`GameReplay`, game_replay.dfy).
  A board is rebuilt from a prefix of the stored move ledger. The
  `checkWinner` scan is proved against a recursive reference scan. Around it
  sit the turn, status, step, speed and label rules, and the replay view's
  handlers. The view is a class that drives the history store.
- **History store** (`HistoryStore`, history_store.dfy). This is a class
  holding the saved games, the game being replayed and the replay cursor. Its
  invariant is `0 ≤ replayStep ≤ |moves|` while a game is loaded. Each fetch
  or save takes the request's outcome as a parameter.
- **Settings** (`SettingSchema`, `SettingStore`, `CustomizeModal`). The
  validation schema is modelled as an issue list. The settings store is a
  class whose setters keep the schema's validity. The customization form's
  +/- handlers, default values and preview grid are modelled too.
- **Presentation rules** (`Board`, `HistoryList`, `MoveTracker`). These cover
  cell and board pixel sizes, the cell colours, the click guard, the winning
  cells, icons, the duration text, the winner labels and colours, and the
  per-symbol move counts.
- **Authentication** (`AuthMiddleware`, `RouteMiddleware`). These cover token
  extraction from cookie or `Bearer` header, the request guards and the edge
  middleware's route decisions. The token verifier and route handlers are
  function parameters.
- **Form schemas** (`FormValidation`). These cover the password pattern as
  the regular expression engine reads it, the confirm-password rule, and the
  minimum lengths.

Shared records are in `Schema` (schema.dfy) and `Wrappers` (wrappers.dfy).

Two consequences of the code worth noting:

- The winning run length is `min(5, max(rows, cols))`
  (components/game-replay.tsx:66), taken over the larger dimension.
  `WinLength` states its bounds, and `ShortBoardWinsOnlyHorizontally` proves
  what follows: on a board with fewer rows than the run length, such as 3×5,
  only a horizontal run can win.
- The history list labels a game 'Draw' when its `gameStatus` is 'draw'
  (components/history-list.tsx:38), but a stored game records a draw in
  `winner`. A completed game with winner 'draw' is therefore labelled with
  the raw text 'draw' (`HistoryList.DrawWinnerShownVerbatim`).

## Model

| member | source | states |
|---|---|---|
| GameReplay.EmptyGrid | components/game-replay.tsx:39-41 | `initializeBoard` gives a rows × cols grid whose every cell is empty |
| GameReplay.Applied | components/game-replay.tsx:45 | `slice(0, step)` applies the first min(step, total) moves and is a prefix of the ledger |
| GameReplay.GridAt | components/game-replay.tsx:43-52 | the reference board at a step has the configured dimensions |
| GameReplay.LastWriterIsLastMove | components/game-replay.tsx:47-49 | a position is empty iff no applied move targets it, and holds s iff the last applied move targeting it wrote s (later moves overwrite, no occupancy check) |
| GameReplay.LastWriterEmpty | components/game-replay.tsx:47-49 | a position stays empty iff no applied move targets it |
| GameReplay.GridAtStartIsEmpty | components/game-replay.tsx:39-45 | the board at step 0 is the all-empty rows × cols grid |
| GameReplay.GetBoardAtStep | components/game-replay.tsx:43-52 | the array has the configured dimensions; it throws exactly when an applied move's row is off the board; otherwise every cell holds the last writer among the first `step` moves |
| GameReplay.Snapshot | components/game-replay.tsx:65-70 | the grid the scan reads equals the board array cell by cell |
| GameReplay.RunLine | components/game-replay.tsx:78-86 | a run has k positions, the i-th being i steps along the direction from the start |
| GameReplay.ScanFromNoWin | components/game-replay.tsx:68-99 | the scan from a candidate onwards finds nothing iff no later candidate (cell, direction) wins |
| GameReplay.ScanFromFirst | components/game-replay.tsx:68-99 | a win found from a candidate onwards is the first winning candidate after it, with that candidate's symbol and line |
| GameReplay.ScanNoWinIff | components/game-replay.tsx:68-99 | `checkWinner` reports no winner iff no occupied cell starts a forward same-symbol run of length K in any direction |
| GameReplay.ScanReportsFirstWin | components/game-replay.tsx:68-99 | a reported win is the first winning (cell, direction) in row-major cell order, then direction order (0,1), (1,0), (1,1), (1,-1) |
| GameReplay.WinningLineShape | components/game-replay.tsx:66-94 | a winning line has exactly K = min(5, max(rows, cols)) cells, all on the board and holding the winner, each one step from the previous along a single direction |
| GameReplay.RunLineSteps | components/game-replay.tsx:74-86 | consecutive positions of a run differ by one step of its direction |
| GameReplay.ShortBoardWinsOnlyHorizontally | components/game-replay.tsx:66-90 | with fewer rows than K (e.g. 3×5), every winning line lies in one row |
| GameReplay.WinLength | components/game-replay.tsx:66 | the run length K is at most 5 and fits along the longer side; below 5 it spans both dimensions whole |
| GameReplay.EmptyGridHasNoWinner | components/game-replay.tsx:71 | an all-empty board has no winner |
| GameReplay.EmptyCellSkipped | components/game-replay.tsx:70-71 | an empty cell never starts a win, so the scan moves past it |
| GameReplay.ForwardRun | components/game-replay.tsx:78-90 | the collected line is the run from the cell along the direction, and it reaches the maximum length iff the whole run is on the board and holds the cell's symbol |
| GameReplay.CheckWinner | components/game-replay.tsx:65-100 | the nested loops return exactly the reference scan's result on the array's contents |
| GameReplay.WinningLineOnlyAtEnd | components/game-replay.tsx:58-63 | a line is shown only at or after the last move, has length K, and all its cells hold one symbol |
| GameReplay.HighlightedCellsAreOccupied | components/game-replay.tsx:58-63 | every cell the board highlights is on the board and occupied on the final board |
| GameReplay.GetWinningLine | components/game-replay.tsx:58-63 | before the last move no line and no rebuild; otherwise it throws exactly when the rebuild does, and else returns the scan's line |
| GameReplay.CurrentPlayerMakesNextMove | components/game-replay.tsx:54-56 | the player shown at step i ('X' on even steps) is the one who makes move i on an alternating ledger |
| GameReplay.CurrentPlayer | components/game-replay.tsx:54-56 | 'X' exactly on even steps, 'O' on odd ones |
| GameReplay.TurnsAlternate | components/game-replay.tsx:54-56 | the player shown changes with every step and returns after two |
| GameReplay.ReplayBoardStatus | components/game-replay.tsx:186 | the board is 'finished' iff the cursor is at or past the last move of a completed game, and never 'draw' |
| GameReplay.ReplayClicksForwardedUntilFinished | components/game-replay.tsx:186 | a replay board forwards clicks exactly until a completed game is fully replayed |
| GameReplay.PreviousStep | components/game-replay.tsx:134-137 | the target of Previous is max(0, s - 1) |
| GameReplay.NextStep | components/game-replay.tsx:139-142 | the target of Next is min(total, s + 1) |
| GameReplay.NextPreviousRoundTrip | components/game-replay.tsx:134-142 | inside [0, total] both stay in range and undo each other away from the ends |
| GameReplay.IndexOf | components/game-replay.tsx:146 | `indexOf` gives the first index holding the value, or -1 iff it is absent |
| GameReplay.NextSpeed | components/game-replay.tsx:144-149 | the next speed is always one of the four listed intervals |
| GameReplay.SpeedIndex | components/game-replay.tsx:145-146 | `indexOf` places 2000, 1000, 500, 250 at 0 to 3 and any other interval at -1 |
| GameReplay.NextSpeedTable | components/game-replay.tsx:144-149 | the next interval after 2000, 1000, 500 is 1000, 500, 250, and after anything else 2000 |
| GameReplay.SpeedCycle | components/game-replay.tsx:144-149 | 2000 → 1000 → 500 → 250 → 2000, and an unlisted interval goes to 2000 |
| GameReplay.FourPressesReturn | components/game-replay.tsx:144-149 | four presses bring a listed interval back to itself and an unlisted one to 250 |
| GameReplay.SpeedLabelsDistinct | components/game-replay.tsx:151-159 | the four listed intervals have four different labels |
| GameReplay.SpeedLabel | components/game-replay.tsx:151-159 | the label is one of 0.5x, 1x, 2x, 4x, and it is '1x' iff the interval is none of 2000, 500 and 250 ms |
| GameReplay.WinnerDisplay | components/game-replay.tsx:171-182 | 'Abandoned' first, 'In Progress' for an unfinished game without winner, the winner's label, and 'Draw' for a stored draw or a missing winner |
| GameReplay.EntryStateAt | components/game-replay.tsx:324-327 | a move entry is replayed iff its index is below the cursor and up next iff it equals the cursor |
| GameReplay.ReplayPlayer.constructor | components/game-replay.tsx:25-37 | mounting starts paused at 1000 ms with the store replaying this game at step 0; the store's saved games, loading flag and error are unchanged |
| GameReplay.ReplayPlayer.HandlePrevious | components/game-replay.tsx:134-137 | pauses and moves the cursor to `PreviousStep`, keeping the store valid; only `isPlaying` and the store's cursor may change |
| GameReplay.ReplayPlayer.HandleNext | components/game-replay.tsx:139-142 | pauses and moves the cursor to `NextStep`, keeping the store valid; only `isPlaying` and the store's cursor may change |
| GameReplay.ReplayPlayer.HandlePlayPause | components/game-replay.tsx:120-127 | at the end it rewinds to 0 and plays; otherwise it toggles playing and keeps the cursor; only `isPlaying` and the store's cursor may change |
| GameReplay.ReplayPlayer.HandleRestart | components/game-replay.tsx:129-132 | pauses and rewinds to step 0; only `isPlaying` and the store's cursor may change |
| GameReplay.ReplayPlayer.HandleSpeedChange | components/game-replay.tsx:144-149 | the interval becomes `NextSpeed` of the old one; only the interval may change |
| GameReplay.ReplayPlayer.HandleSliderChange | components/game-replay.tsx:280-283 | pauses, then jumps only to a step inside [0, total]; the interval and the store's other fields are unchanged |
| GameReplay.ReplayPlayer.HandleMoveClick | components/game-replay.tsx:330-333 | pauses and shows the board just after the clicked move; the interval and the store's other fields are unchanged |
| GameReplay.ReplayPlayer.Unmount | components/game-replay.tsx:34-36 | unmounting stops the store's replay and keeps its saved games, loading flag and error |
| HistoryStore.FailureMessage | stores/history.ts:41-50 | a non-ok response stores the action's message, a thrown Error its message, anything else 'Unknown error' |
| HistoryStore.Store.constructor | stores/history.ts:29-35 | the initial state is empty, not replaying, not loading, without error, and valid |
| HistoryStore.Store.Valid | stores/history.ts:82-117 | the invariant every replay action keeps: the cursor is non-negative (at most the ledger length while a game is loaded, 0 otherwise) and replaying holds iff a game is loaded |
| HistoryStore.Store.FetchHistories | stores/history.ts:37-52 | success replaces the list and clears the error; failure keeps the list and stores 'Failed to fetch histories' or the thrown message; loading ends false; the replay is untouched |
| HistoryStore.Store.SaveGame | stores/history.ts:54-80 | success prepends the saved record to the list in order; failure keeps the list and stores 'Failed to save game' or the thrown message; loading ends false |
| HistoryStore.Store.StartReplay | stores/history.ts:82-88 | loads the game at step 0 and replaying; list, loading and error unchanged |
| HistoryStore.Store.NextReplayStep | stores/history.ts:90-95 | adds one only when a game is loaded and moves remain; keeps the cursor invariant |
| HistoryStore.Store.PrevReplayStep | stores/history.ts:97-102 | subtracts one only above 0; keeps the cursor invariant |
| HistoryStore.Store.SetReplayStep | stores/history.ts:104-109 | takes effect iff a game is loaded and 0 ≤ step ≤ moves; keeps the cursor invariant |
| HistoryStore.Store.StopReplay | stores/history.ts:111-117 | unloads the game, resets the cursor, stops replaying; other fields unchanged |
| HistoryStore.Store.ClearError | stores/history.ts:119-121 | clears the error and changes nothing else |
| SettingSchema.BoundIssues | validation/setting.ts:4-5 | both bound checks run; no issue iff 3 ≤ value ≤ 10, and otherwise exactly the too-few or too-many message on the field |
| SettingSchema.SafeParseAcceptsIffInRange | validation/setting.ts:3-9 | the schema accepts iff rows and columns lie in [3, 10] (no integrality check) and the difficulty is easy, medium or hard; each issue names a failing field |
| SettingSchema.SafeParse | validation/setting.ts:3-9 | at most one issue per field, so at most three, and no two issues on the same field |
| SettingStore.DefaultSettings | stores/setting.ts:20-24 | the defaults are 3, 3, 'medium' and pass the schema |
| SettingStore.Store.constructor | stores/setting.ts:26-28 | the store starts from the defaults and is valid |
| SettingStore.Store.GetSettings | stores/setting.ts:68-71 | the returned object carries exactly the three stored fields |
| SettingStore.Store.SetBoardRows | stores/setting.ts:29-37 | the row count changes iff the merged settings validate; other fields untouched; from a valid state it changes iff 3 ≤ rows ≤ 10, and validity is kept |
| SettingStore.Store.SetBoardCols | stores/setting.ts:38-46 | the same for the column count |
| SettingStore.Store.SetAiDifficulty | stores/setting.ts:47-55 | the same for the difficulty, which changes iff it is easy, medium or hard |
| SettingStore.Store.UpdateSettings | stores/setting.ts:56-71 | all-or-nothing: a valid s is stored and `getSettings` then returns exactly s; an invalid one changes nothing |
| SettingStore.Store.ResetSettings | stores/setting.ts:72 | restores the defaults, so resetting is idempotent |
| SettingStore.Store.Rehydrate | stores/setting.ts:74-88 | stored settings that pass the schema are kept, others are replaced by the defaults; the store is valid afterwards |
| CustomizeModal.OrThree | components/modals/customize-modal.tsx:45 | NaN and 0 read as 3; every other number reads as itself |
| CustomizeModal.Stepped | components/modals/customize-modal.tsx:44-50 | a click writes the falsy-defaulted value ± 1 exactly when that lies in [3, 10], and nothing otherwise |
| CustomizeModal.SteppingStaysInRange | components/modals/customize-modal.tsx:46-47 | from [3, 10] a click never leaves [3, 10]; + at 10 and - at 3 write nothing |
| CustomizeModal.FalsyReadsAsThree | components/modals/customize-modal.tsx:45 | an empty (NaN) or 0 field steps like 3: + writes 4 and - writes nothing |
| CustomizeModal.WrittenValuesPassSchema | components/modals/customize-modal.tsx:47-48 | every value a click writes passes the schema's row and column checks |
| CustomizeModal.DisabledDecrementIsNoOp | components/modals/customize-modal.tsx:102-105 | whenever the - button is disabled, its handler would write nothing |
| CustomizeModal.DecrementDisabled | components/modals/customize-modal.tsx:105 | an empty (NaN) field leaves the - button enabled; a disabled button means the value the handler would step from is at most 3 |
| CustomizeModal.NumberOr | components/modals/customize-modal.tsx:33-34 | a missing, NaN or 0 initial number falls back; any other number is kept |
| CustomizeModal.DefaultValues | components/modals/customize-modal.tsx:32-36 | missing or falsy initial values fall back to 3, 3, 'medium'; with none given the form starts from values the schema accepts |
| CustomizeModal.PreviewCellCount | components/modals/customize-modal.tsx:170 | the preview throws (None) iff (rows‖3)·(cols‖3) ≥ 2^32; otherwise it has that many cells, truncated to a whole number and 0 when not positive |
| CustomizeModal.HugePreviewThrows | components/modals/customize-modal.tsx:170 | a typed-in 70000 × 70000 board makes the preview throw |
| CustomizeModal.PreviewMatchesBoard | components/modals/customize-modal.tsx:170 | for a whole-numbered board in [3, 10]² the preview does not throw and has rows·cols cells, between 9 and 100 |
| CustomizeModal.CustomizeForm.constructor | components/modals/customize-modal.tsx:30-37 | the form starts from `DefaultValues` |
| CustomizeModal.CustomizeForm.HandleRowsChange | components/modals/customize-modal.tsx:44-50 | only the row field changes, to the stepped value, and only when a value is written |
| CustomizeModal.CustomizeForm.HandleColsChange | components/modals/customize-modal.tsx:52-58 | the same for the column field |
| HistoryList.NatToString | components/history-list.tsx:34 | `toString` of a whole number is a non-empty string of digits, one digit iff below 10, without a leading zero |
| HistoryList.ParseNatToString | components/history-list.tsx:34 | reading the digits back gives the number |
| HistoryList.PadStart2 | components/history-list.tsx:34 | `padStart(2, '0')` keeps strings of length ≥ 2 and left-pads shorter ones to exactly 2 |
| HistoryList.FormatDuration | components/history-list.tsx:31-35 | the text is the minutes' digits, a colon and two digits |
| HistoryList.PaddedSeconds | components/history-list.tsx:33-34 | the two seconds characters are digits whose value is seconds mod 60 |
| HistoryList.ParseJoined | components/history-list.tsx:34 | minutes digits, a colon and two seconds digits below 60 read back as minutes · 60 + seconds |
| HistoryList.DurationRoundTrip | components/history-list.tsx:31-35 | parsing the text gives back the duration: minutes · 60 + seconds = s, with seconds in [0, 59] |
| HistoryList.WinnerDisplay | components/history-list.tsx:37-48 | status 'draw' → 'Draw', then 'abandoned' → 'Abandoned', then a falsy winner → 'In Progress', then 'st'/'nd'/'bot' → 'Player X'/'Player O'/'Bot', any other winner verbatim |
| HistoryList.WinnerColor | components/history-list.tsx:50-61 | each of the three status-first colours is given iff its condition holds |
| HistoryList.ColorFollowsDisplay | components/history-list.tsx:37-61 | label and colour always come from the same branch of one decision table |
| HistoryList.DrawWinnerShownVerbatim | components/history-list.tsx:38-47 | a completed game whose winner is 'draw' shows 'draw' in the fallback colour |
| Board.CellSize | components/board.tsx:46-55 | the cell edge is at least 32; above 32 it is the largest edge whose cells fit the base size; at 32, 33 px cells would not fit |
| Board.BoardPixels | components/board.tsx:50-56 | the board edge is at least 32 px per cell, and no larger than the base size when the unclamped cell is at least 32 |
| Board.CellIndexInjective | components/board.tsx:110 | distinct cells get distinct row-major indexes, all below rows · cols |
| Board.RowNeighboursDiffer | components/board.tsx:110-116 | horizontally adjacent cells never share a background |
| Board.ColumnNeighboursMatchIff | components/board.tsx:110-116 | vertically adjacent cells share a background iff the column count is a multiple of 3 |
| Board.ColorClass | components/board.tsx:110-116 | the class is one of the three greys, and the first grey exactly on row-major indexes divisible by 3 |
| Board.HandleCellClick | components/board.tsx:78-82 | a click is forwarded, with its coordinates, iff a handler exists, the board is not idle and the status is 'playing' |
| Board.ClickableIffForwardedOnEmpty | components/board.tsx:78-119 | a cell is clickable iff it is empty and its click would be forwarded |
| Board.IsClickable | components/board.tsx:119 | a clickable cell is empty and the game is 'playing' |
| Board.AnyAt | components/board.tsx:85 | `some` over the line is true iff the position occurs in it |
| Board.IsWinningCell | components/board.tsx:84-86 | a cell is winning iff it occurs in the line; never when there is no line |
| Board.CellIcon | components/board.tsx:68-76 | 'X' → cross, 'O' → circle, empty → no icon, with the size's font size |
| Board.HighlightMatchesIcon | components/board.tsx:68-96 | the primary highlight goes with the cross, the secondary with the circle, no highlight with no icon |
| Board.WinningCellColor | components/board.tsx:88-96 | no highlight class exactly for an empty cell |
| MoveTracker.PlayerName | components/move-tracker.tsx:13-18 | against the bot X is 'You' and O is 'Bot'; otherwise 'Player X' / 'Player O' |
| MoveTracker.PlayerNamesDistinct | components/move-tracker.tsx:13-18 | the two symbols never share a name within a mode |
| MoveTracker.PlayerIcon | components/move-tracker.tsx:20-22 | 'X' → ❌ and 'O' → ⭕ |
| MoveTracker.IconsDistinct | components/move-tracker.tsx:13-22 | the two icons differ, and no icon equals a name |
| MoveTracker.Entries | components/move-tracker.tsx:50-68 | the entry at index i is numbered i + 1 and shows the position 1-based, with the mover's icon and name |
| MoveTracker.CountSymbol | components/move-tracker.tsx:90 | a symbol's count never exceeds the number of moves |
| MoveTracker.CountsAddUp | components/move-tracker.tsx:90-96 | the 'X' count plus the 'O' count is the number of moves |
| MoveTracker.AlternatingCounts | components/move-tracker.tsx:90-96 | on an alternating ledger starting with X, X has ⌈n/2⌉ moves and O has ⌊n/2⌋ |
| MoveTracker.Stats | components/move-tracker.tsx:84-96 | the stats are shown iff a move exists, and their counts add up to the number of moves |
| AuthMiddleware.GetAuthToken | lib/auth-middleware.ts:4-16 | a non-empty cookie wins; else a header starting with exactly 'Bearer ' gives its remainder; no token iff neither applies |
| AuthMiddleware.BearerRoundTrip | lib/auth-middleware.ts:5-13 | without a usable cookie 'Bearer ' + t yields t; with a non-empty cookie the header is ignored |
| AuthMiddleware.LowerCaseBearerRejected | lib/auth-middleware.ts:11 | the prefix test is case-sensitive |
| AuthMiddleware.VerifyAuthToken | lib/auth-middleware.ts:18-25 | a missing or empty token gives null; otherwise the verifier's verdict |
| AuthMiddleware.NoTokenNoVerifier | lib/auth-middleware.ts:19-22 | without a token the verifier is not consulted, including for a bare 'Bearer ' header |
| AuthMiddleware.VerifyToken | lib/auth-middleware.ts:31-41 | success with the payload's user id iff the token verifies; the null and the thrown cases get their own messages |
| AuthMiddleware.RequireAuth | lib/auth-middleware.ts:43-66 | no verified user gives 401 'Authentication required'; a verified user gets the handler's answer; a throwing verification rejects |
| AuthMiddleware.UnverifiedNeverReachesHandler | lib/auth-middleware.ts:45-60 | without a verified user the handler does not affect the answer, and a tokenless request always gets the 401 |
| RouteMiddleware.StartsWithAny | middleware.ts:14-15 | `some(startsWith)` holds iff some listed route is a prefix of the path |
| RouteMiddleware.ProtectedIffPrefix | middleware.ts:10-14 | a path is protected iff it starts with '/api/auth/me' |
| RouteMiddleware.AuthRouteIffPrefix | middleware.ts:12-15 | a path is an auth route iff it starts with '/member/sign-in' or '/member/sign-up' |
| RouteMiddleware.RouteClassesDisjoint | middleware.ts:10-15 | no path is both protected and an auth route |
| RouteMiddleware.MiddlewareAsWritten | middleware.ts:5-44 | as written: a protected path needs only a non-empty cookie; any token on an auth route redirects to '/play'; other paths pass |
| RouteMiddleware.AsWrittenIgnoresVerifier | middleware.ts:25-40 | as written the verdict never matters and the cookie-clearing 401 is unreachable |
| RouteMiddleware.ForgedTokenPassesAsWritten | middleware.ts:25 | a rejected token on '/api/auth/me' passes as written |
| RouteMiddleware.Middleware | middleware.ts:5-44 | with the verifications awaited: a protected path needs a verifying token, an invalid one gets 401 'Invalid token' with the cookie cleared, and an auth route redirects only a verified visitor |
| RouteMiddleware.ProtectedRouteNeedsVerifiedToken | middleware.ts:17-33 | awaited, a protected path is passed only with a verifying token, and the two versions agree whenever the token verifies or is missing |
| RouteMiddleware.ForgedTokenRefused | middleware.ts:25-33 | awaited, the rejected token gets 401 'Invalid token' and its cookie cleared |
| RouteMiddleware.ForgedTokenRedirectedAsWritten | middleware.ts:36-41 | as written, a rejected token on '/member/sign-in' is redirected to '/play' |
| RouteMiddleware.ForgedTokenNotRedirected | middleware.ts:36-43 | awaited, an auth route redirects exactly the visitors whose token verifies, so the rejected token stays on the page |
| FormValidation.LookaheadIsSearch | validation/form.ts:9 | when all characters are allowed, each `(?=.*[class])` holds iff some character is in the class |
| FormValidation.PatternIffStrong | validation/form.ts:9-10 | the pattern matches iff length ≥ 8, all characters in [A-Za-z0-9@$!%*?&], and at least one lower-case, upper-case, digit and special character |
| FormValidation.PatternMatches | validation/form.ts:9 | a matching password contains a lower-case letter, an upper-case letter, a digit and a special character |
| FormValidation.PasswordIssues | validation/form.ts:5-16 | leaving the `.uppercase()` and `.lowercase()` checks aside, no issue iff the password is strong; one shorter than 8 UTF-16 code units gets both the length and the pattern issue, a longer one at most the pattern issue, all on its own field |
| FormValidation.ConfirmIssues | validation/form.ts:17-25 | differing fields give exactly one issue, on 'confirmPassword' with 'Passwords do not match'; equal ones give none |
| FormValidation.SignUpIssues | validation/form.ts:2-25 | at most six issues, each on 'username', 'password' or 'confirmPassword' |
| FormValidation.UsernameIssues | validation/form.ts:3 | the username passes iff it has at least 3 UTF-16 code units; any 3 characters pass |
| FormValidation.Utf16Length | validation/form.ts:3-12 | a string's JavaScript length lies between its character count and twice that |
| FormValidation.BmpLengthAgrees | validation/form.ts:3-12 | on characters of the Basic Multilingual Plane the JavaScript length is the character count |
| FormValidation.EmojiUsernameAccepted | validation/form.ts:3 | an emoji and a letter (two characters, three code units) pass `min(3)` |
| FormValidation.EmojiPasswordOnlyPatternIssue | validation/form.ts:5-10 | four emoji and a letter (nine code units) pass `min(8)` and get only the pattern issue |
| FormValidation.SignUpAcceptsIff | validation/form.ts:2-25 | leaving the `.email()`, `.uppercase()` and `.lowercase()` checks aside, sign-up passes iff the username has ≥ 3 code units, both passwords strong and equal; the mismatch is reported exactly once |
| FormValidation.SignInIssues | validation/form.ts:27-30 | sign-in passes iff both fields are non-empty, with one issue per empty field |

Proof helpers that model no source line of their own and so have no row:
`Board.DivisionBounds`, `Board.MulMonotone`, `Board.MulAtMost`,
`Board.ShiftKeepsResidue` (arithmetic) and `FormValidation.CountMessageAppend`,
`FormValidation.NoMismatchMessage` (counting messages in issue lists).

## Findings

| source | as written | input that shows it | evidently intended | confidence | as-written member | corrected member |
|---|---|---|---|---|---|---|
| middleware.ts:25-33 | `JWTHelper.verifyToken(token)` is asynchronous (lib/jwt.ts:22) and is not awaited, so `!payload` tests a pending promise, which is always truthy; any non-empty `auth-token` cookie passes the protected route and the cookie-clearing 'Invalid token' branch never runs | path '/api/auth/me', cookie 'forged', a verifier that rejects it: passed on | await the verdict; answer 401 'Invalid token' and clear the cookie | high (not executed) | RouteMiddleware.ForgedTokenPassesAsWritten | RouteMiddleware.ProtectedRouteNeedsVerifiedToken |
| middleware.ts:36-41 | the same unawaited call on the sign-in and sign-up pages redirects any visitor with a non-empty cookie to '/play', valid or not | path '/member/sign-in', cookie 'forged', a rejecting verifier: redirected | redirect only a visitor whose token verifies | high (not executed) | RouteMiddleware.ForgedTokenRedirectedAsWritten | RouteMiddleware.ForgedTokenNotRedirected |

## Left out

- Live play is not modelled. This covers applying a move on a click, turn alternation during play, detecting the end of a game during play, and the random bot. None of it is in the modelled files; the only win logic present is the replay scan.
- The replay's auto-advance `setInterval` (components/game-replay.tsx:102-118), the `useEffect` lifecycle and the mock board's animation timers are scheduling, not logic. Mounting and unmounting are modelled as the constructor and `Unmount`.
- Network requests, persistence to `localStorage` and the API routes are left out. Each fetch or save is a parameter describing how the request ended, and rehydration takes the stored settings as a parameter. `console` output is dropped.
- JWT signing, verification and decoding (lib/jwt.ts) are left out; verification is a function parameter, as are route handlers.
- The `.email()`, `.uppercase()` and `.lowercase()` checks of the sign-up schema are library behaviour and are not modelled. Their issues are absent from `FormValidation.SignUpIssues`.
- FormValidation.SignUpAcceptsIff: the acceptance it characterises is over the modelled checks only (username length, password length, pattern, confirm rule). The chained `.uppercase()` and `.lowercase()` calls (validation/form.ts:7-8, 13-14) may reject passwords the model accepts; if they require an all-upper-case and an all-lower-case string, no password the pattern accepts would pass both.
- FormValidation.PasswordIssues: "no issue iff strong" holds over the length and pattern checks only, for the same reason.
- Date and time formatting, the slider's gradient percentages, and all rendering, icons and layout are left out.
- The middleware's `config.matcher` is not modelled; `Middleware` and `MiddlewareAsWritten` decide for any path they are given.
- `stores/auth.ts` is not part of this model.
- GameReplay.GetBoardAtStep: the step is a natural number, so `slice` with a negative step is not modelled. Rows and columns are naturals, as `Array(n)` requires. A move whose column is off the board writes beside the visible grid without a visible effect, and that write is not modelled.
- GameReplay.WinningLineAt: this reference function does not model the throw on an off-board row; `GameReplay.GetWinningLine` reports it as `crashed`.
- GameReplay.ReplayPlayer: the step is shared with `HistoryStore.Store` through a reference, and the view's `isPlaying` and `playbackSpeed` are fields. React's re-rendering is not modelled.
- Board.CellSize: a board with 0 rows and 0 columns (an infinite cell size in the source) is excluded by its precondition. The idle board's fixed icon pattern is not modelled.
- SettingStore.Store: settings are reals, so NaN and infinite values are not modelled. The schema rejects both: `z.number()` refuses NaN, and infinity fails the bound checks.
- CustomizeModal.Stepped: field values are exact reals, so the double rounding of `(value || 3) ± 1` (components/modals/customize-modal.tsx:45-48, 53-56) is not modelled. A typed 1.9999999999999998 plus 1 rounds to 3 in doubles and is written; in the model it stays below 3 and nothing is written.
- CustomizeModal.PreviewCellCount: the product `(rows || 3) * (cols || 3)` (components/modals/customize-modal.tsx:170) is exact, not rounded to a double. A non-integral product just below 2^32 can round up to 2^32 in doubles and make `Array.from` throw, while the model returns a count.
- HistoryList.FormatDuration: durations are whole non-negative seconds. Fractional and negative durations, where JavaScript's `%` and `toString` differ from whole-number arithmetic, are not modelled.
- AuthMiddleware.VerifyToken: JWTHelper.verifyToken (lib/jwt.ts:22-30) catches its own errors, so in the application the 'Token verification failed' branch is reached only if something else throws. The model keeps that branch for any verifier that throws.
