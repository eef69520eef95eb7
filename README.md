# Tic-tac-toe rules engine

This project is a Dafny model of the rules engine in the `game` scene of a kaboom.js
tic-tac-toe game (`src/main.ts`). The engine has three pieces of state:

- the 3x3 `boardState`, where each cell is `""`, `"X"` or `"O"`;
- the globals `gameStatus` (RUNNING or FINISHED) and `currentPlayer`.

A click on a cell calls `makeMove`. The click is ignored when the game is finished
or the cell is taken. Otherwise the current player's mark is written to the cell.
Then `checkWin` is asked first, `checkDraw` second, and otherwise the turn passes
to the other player.

The project has three modules:

- `Rules` (rules.dfy): the state as values.
  - `Mark`, `Grid` and `Session`.
  - The declarative line predicates: `RowFull`, `ColumnFull`, `Diagonal1Full`,
    `Diagonal2Full`, `HasLine` and `Full`.
  - `ScanFindsWin`, which describes how `checkWin` actually scans the board.
  - The move transition `Move` and `Replay`, which applies a sequence of clicks.
  - The lemmas that state the rules of the game.
- `Play` (game.dfy): the scene as imperative code.
  - A `Game` class holds the board as an `array2<Mark>`, updated in place, with
    the two globals as fields.
  - Every routine of the scene is a method. Each `check*` loop is proved equal
    to its predicate in `Rules`.
  - `MakeMove` is proved to take the session exactly where `Rules.Move` says.
    To make this possible, a ghost field `cells` mirrors the array.
- `Scenarios` (scenarios.dfy): whole games played click by click from the
  starting state.
  - A won game and a drawn game.
  - A click repeated on the same cell.
  - Clicks after the end of the game.

`ROWSXCELLS`, which the source computes as `Math.sqrt(9)`, is the constant `N = 3`.

## Model

| member | source | states |
|---|---|---|
| Rules.EmptyGrid | src/main.ts:66-79 | the board built by makeBoard is N x N with every cell EMPTY |
| Rules.Fresh | src/main.ts:36-48 | after scene setup every cell is EMPTY, gameStatus is RUNNING and currentPlayer is X |
| Rules.Place | src/main.ts:98 | the write sets the chosen cell to the mark and leaves every other cell as it was |
| Rules.Other | src/main.ts:118-120 | the next player is never EMPTY and differs from a current player who is X or O |
| Rules.OtherAlternates | src/main.ts:118-120 | passing the turn twice gives it back to the same player |
| Rules.Move | src/main.ts:94-116 | a move keeps the session well formed: the board stays 3x3 and the current player stays X or O |
| Rules.ScanFindsWinIffHasLine | src/main.ts:122-184 | checkWin's cell-by-cell scan, which checks both diagonals at every cell of the current player, holds exactly when some row, some column or a diagonal is entirely that player's: it has no false positives and no misses |
| Rules.ScanMissesIffNoWin | src/main.ts:122-140 | a scan that goes through all rows without returning has found no win |
| Rules.RowScanMissesAll | src/main.ts:124-138 | the scan of one row without a return means no cell of the row so far holds the player with a full line through it |
| Rules.ScanMissesAll | src/main.ts:123-139 | the scan of the first rows without a return means none of their cells holds the player with a full line through it |
| Rules.MoveWhenFinishedIsNoOp | src/main.ts:95 | a click while FINISHED leaves board, player and status unchanged and reports nothing |
| Rules.MoveOnOccupiedIsNoOp | src/main.ts:97 | a click on a non-EMPTY cell leaves board, player and status unchanged and reports nothing |
| Rules.MoveNeverOverwrites | src/main.ts:97 | a marked cell keeps its mark whatever cell is clicked |
| Rules.MoveTwiceSameAsOnce | src/main.ts:97 | clicking the same cell twice gives the state of clicking it once, and the second click reports nothing |
| Rules.MoveWritesOneCell | src/main.ts:97-98 | an accepted click writes the pre-move player into exactly the clicked cell and changes no other cell |
| Rules.WinTakesPrecedence | src/main.ts:105-107 | a move that completes a line finishes the game as a win of the mover, who stays current player, even if the board is also full |
| Rules.DrawWhenFullWithoutLine | src/main.ts:105-110 | a move that completes no line but fills the board finishes the game as a draw |
| Rules.TurnPasses | src/main.ts:111-119 | a move that neither wins nor fills the board leaves the game RUNNING, reports nothing and hands the turn to the other player |
| Rules.OutcomeMatchesTransition | src/main.ts:105-114 | a move reports a result exactly when it takes the game from RUNNING to FINISHED; a win names the mover, who has a full line; a draw leaves a full board without the mover's line |
| Rules.FinishedIsFinal | src/main.ts:95 | once FINISHED, any sequence of clicks leaves the session unchanged |
| Play.MakeBoard | src/main.ts:61-82 | the nested loops produce a fresh N x N board with every cell EMPTY |
| Play.Game.constructor | src/main.ts:36-48 | entering the scene gives a consistent game whose state is the starting session |
| Play.Game.ResetGame | src/main.ts:39-42 | gameStatus becomes RUNNING and currentPlayer X; the board is untouched |
| Play.Game.NextPlayer | src/main.ts:118-120 | currentPlayer changes from X to O or from O to X |
| Play.Game.CheckLine | src/main.ts:142-150 | returns true exactly when the whole row is the current player's |
| Play.Game.CheckColumn | src/main.ts:152-160 | returns true exactly when the whole column is the current player's |
| Play.Game.CheckDiagonal1 | src/main.ts:166-174 | returns true exactly when the main diagonal is the current player's |
| Play.Game.CheckDiagonal2 | src/main.ts:176-184 | returns true exactly when the anti-diagonal is the current player's |
| Play.Game.CheckDiagonal | src/main.ts:162-164 | returns true exactly when either diagonal is the current player's |
| Play.Game.CheckWin | src/main.ts:122-140 | returns true exactly when the scan finds a cell of the current player with a full line through it, which by Rules.ScanFindsWinIffHasLine means the player has a full row, column or diagonal |
| Play.Game.CheckDraw | src/main.ts:186-196 | returns true exactly when no cell is EMPTY |
| Play.Game.MakeMove | src/main.ts:94-116 | the in-place update leaves board, status and player as Rules.Move computes them from the old state, and returns the outcome Rules.Move reports |
| Scenarios.FreshBoard | src/main.ts:36-48 | the starting session, written out cell by cell |
| Scenarios.ScenarioRowWin | src/main.ts:94-116 | X at (0,0), O at (1,1), X at (0,1), O at (1,0) each pass the turn; X at (0,2) then wins for X and finishes the game |
| Scenarios.ScenarioDraw | src/main.ts:94-116 | nine clicks that fill the board without a line pass the turn eight times; the ninth reports a draw and finishes the game |
| Scenarios.ScenarioRepeatedClick | src/main.ts:97 | clicking (2,2) twice on a fresh board leaves one X there with O to play |
| Scenarios.ScenarioAfterWin | src/main.ts:95 | after the won game, further clicks change nothing |

## Left out

- `src/kaboomCtx.ts` is not part of this model. It only sets up the kaboom engine on a canvas and re-exports its functions.
- Rendering is not modelled:
  - `makeCell` and the cell geometry (`GAMESIZE`, `CELLSIZE`, pixel positions), src/main.ts:51-59 and 73-76;
  - the mark drawn into the clicked cell, src/main.ts:99-103;
  - the overlay, restart button and hover effects of `showMessage`, src/main.ts:198-242.

  A move's message is modelled instead as the returned `Outcome`: `Win(player)`, `Draw` or `NoOutcome`.
- Click wiring (`mapCellsToClick`, src/main.ts:84-92) is not modelled; a click is a call of `MakeMove` with in-range indices.
- Restarting the scene (`go("game")`, src/main.ts:227 and 245) is modelled as constructing a new `Game`. The constructor runs makeBoard and then resetGame.
- `Math.sqrt(9)` is floating point; the model uses the integer 3.
- When the scan finds no line, `checkWin` returns `undefined`, which the caller treats as false. The model returns `false`.
- The ternary in `nextPlayer` turns anything other than X into X, so `Other(Empty)` is X. The model never reaches that case: every state has X or O as current player.
