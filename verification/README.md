# Tic-tac-toe game engine

A Dafny model of the game engine inside the `TicTokToi` screen of a React
Native tic-tac-toe app. The screen keeps three pieces of state: `board` (a
3×3 grid of `null | 'X' | 'O'`), `currentPlayer` (`'X' | 'O'`) and `winner`
(`null | 'X' | 'O' | 'Draw'`). Two handlers change that state:

- `handleCellPress(row, col)` ignores a press on an occupied cell or after the
  game is over. Otherwise it copies the board, writes the current player's
  mark, evaluates the new board with `checkWinner`, and either records the
  result or passes the turn.
- `confirmRestart()` installs an empty board, clears the result and flips
  `currentPlayer`.

Each handler is modelled as one atomic, pure step on an immutable state value:

- `rules.dfy`, module `Rules`: players, cells, the 3×3 board, placing a mark,
  counting marks, the eight winning lines, and `CheckWinner`.
- `game.dfy`, module `Game`: the state triple, `Press`, `Restart`, runs of user
  commands, and the invariant that every reachable state keeps.
- `scenarios.dfy`, module `Scenarios`: three concrete games played through the
  model.

`createEmptyBoard` and `checkWinner` are imported from `utils/gameLogic`
(components/pages/TicTokToi.jsx:13). That file is not part of this model.
`EmptyBoard` and `CheckWinner` are a reconstruction, not a transcription. They
are built from how the screen uses the two functions:

- a falsy result while play continues;
- `'X'` or `'O'` for a completed row, column or diagonal;
- `'Draw'` for a full board without such a line.

`CheckWinner` scans an eight-entry line table in a fixed order and reports the
owner of the first line it finds owned. Its contract states the result twice:
against the line table (`Completes`), and against `ThreeInARow`, a predicate
over rows, columns and diagonals written without the table.
`CompletesIffThreeInARow` proves the two agree. The controller lemmas use
`CheckWinner` only through its contract.

`Rules.Coord` keeps `row` and `col` in `0..2`. The board component only calls
the handler with indices of its own 3×3 grid (components/Board.jsx:6-12).

### Restart and the starting player

Line 68 carries the comment "Alternate starting player". The code does not
track who started a game, though. It negates whatever `currentPlayer` is at
confirm time:

- After a finished game this is the player who made the last move, because the
  toggle is skipped when a result is recorded (lines 51-55). So the next game
  goes to the other player only when the starter made the last move.
- When the second player wins, the same player starts again.
- A restart confirmed mid-game from the restart popup (lines 58-59, 164) flips
  the player to move.

The model follows the code. `Game.NextStarter` states the general rule in
terms of mark counts, and `Scenarios.SecondPlayerWinKeepsStarter` exhibits a
game where O wins and X starts again.

## Model

| member | source | states |
|---|---|---|
| Rules.Other | components/pages/TicTokToi.jsx:54 | the player switch always yields the other player |
| Rules.EmptyBoard | components/pages/TicTokToi.jsx:19 | `createEmptyBoard` yields a 3×3 grid where every cell is empty |
| Rules.Place | components/pages/TicTokToi.jsx:46-47 | the copied board holds the new mark at (row, col), and every other cell equals the old board's |
| Rules.PlaceCounts | components/pages/TicTokToi.jsx:46-47 | writing a mark into an empty cell adds exactly one mark of that player, uses up one empty cell, and leaves the other player's count alone |
| Rules.FullIffNoEmpties | components/pages/TicTokToi.jsx:50-52 | the board is full, which is the reconstructed draw condition of `checkWinner`, exactly when no cell is empty |
| Rules.FirstLine | components/pages/TicTokToi.jsx:50 | the scan returns the first owned line in table order: every earlier line is unowned, and the returned one is owned |
| Rules.CompletesIffThreeInARow | components/pages/TicTokToi.jsx:50-52 | the eight-entry line table covers exactly the three rows, three columns and two diagonals |
| Rules.CheckWinner | components/pages/TicTokToi.jsx:50-52 | a reported winner has three in a row, and three in a row for either player always produces a win; `Draw` iff the board is full with no row, column or diagonal of one mark; falsy iff a cell is empty and no line exists; each stated both against the line table and against the independent three-in-a-row predicate |
| Rules.CheckWinnerEmptyBoard | components/pages/TicTokToi.jsx:19-21 | the empty board evaluates to no result, matching the initial `winner = null` |
| Rules.CheckWinnerSoleOwner | components/pages/TicTokToi.jsx:51-52 | when only one player owns a line, that player is reported, whatever the scan order |
| Rules.CheckWinnerFirstLine | components/pages/TicTokToi.jsx:50 | on a malformed board where both players own lines, the owner of the first owned line in scan order is reported |
| Rules.PlaceKeepsOtherLines | components/pages/TicTokToi.jsx:47-50 | placing one player's mark never completes a line for the other player |
| Game.Initial | components/pages/TicTokToi.jsx:19-21 | the `State` record of board, current player and result starts with X to move, no result, and every cell empty, so the first press on any cell is accepted |
| Game.Press | components/pages/TicTokToi.jsx:43-56 | a rejected press (occupied cell or game over) changes nothing; an accepted press writes the mover's mark into exactly (row, col) and leaves every other cell; the result is the evaluation of the new board; the turn passes iff that evaluation is falsy |
| Game.Restart | components/pages/TicTokToi.jsx:66-69 | after restart every cell is empty, there is no result, and the current player differs from the one at confirm time |
| Game.PressChangesBoardIffAccepted | components/pages/TicTokToi.jsx:44-48 | a press changes the board exactly when the guard lets it through |
| Game.PressCounts | components/pages/TicTokToi.jsx:44-48 | an accepted press adds one mark of the mover, none of the other player, and uses one empty cell |
| Game.TerminalLockout | components/pages/TicTokToi.jsx:44 | once a result is recorded, any sequence of presses leaves board, player and result unchanged |
| Game.AcceptedTapsUseEmptyCells | components/pages/TicTokToi.jsx:44-47 | within one game, accepted presses plus remaining empty cells equal the empty cells at the start |
| Game.AtMostNinePresses | components/pages/TicTokToi.jsx:44-47 | no game accepts more than nine presses |
| Game.InitialConsistent | components/pages/TicTokToi.jsx:19-21 | the initial state (empty board, X to move, no result) satisfies the engine invariant |
| Game.PressConsistent | components/pages/TicTokToi.jsx:43-56 | a press preserves the invariant: the stored result equals the board's evaluation, a winner is the player who just moved and the loser owns no line, and the mark counts stay balanced |
| Game.RestartConsistent | components/pages/TicTokToi.jsx:66-69 | a restart re-establishes the invariant whatever the prior outcome or mid-game state |
| Game.RunConsistent | components/pages/TicTokToi.jsx:43-73 | every state reached by presses and restarts from a consistent state is consistent |
| Game.ReachableBalanced | components/pages/TicTokToi.jsx:44-54 | in every reachable state the two mark counts differ by at most one, the player to move has no more marks than the other, and at most nine cells are filled |
| Game.ReachableVerdictSound | components/pages/TicTokToi.jsx:50-52 | in every reachable state a winner owns a line and the loser none, a draw is a full board with no line, and an undecided game has an empty cell and no line, so a result is never recorded late; a draw leaves no empty cell, and an undecided game at least one |
| Game.TapsKeepStarter | components/pages/TicTokToi.jsx:44-55 | within a game, the starter has as many marks as the other player or one more, and whose turn it is (or who moved last) follows from that |
| Game.NextStarter | components/pages/TicTokToi.jsx:68 | after a finished game, restart hands the next game to the other player iff the starter made the last move; mid-game it does so iff the starter is the one to move (equal mark counts) |
| Scenarios.TopRowWin | components/pages/TicTokToi.jsx:43-56 | presses (0,0) (1,1) (0,1) (2,2) (0,2) from the initial state give X the top row, record X as winner, keep X current, and ignore a further press |
| Scenarios.FullBoardDraw | components/pages/TicTokToi.jsx:50-55 | nine alternating presses end in the board X O X / X O O / O X X; the game is undecided after eight presses and a draw after the ninth |
| Scenarios.SecondPlayerWinKeepsStarter | components/pages/TicTokToi.jsx:66-69 | when X starts and O wins, the confirmed restart gives the first move of the next game to X again |

## Left out

- Presentation and animation state: `showRestartPopup`, `showEndPopup`, `scaleAnim`, the confetti effect (lines 29-41), and the popup-closing lines 70-72 of `confirmRestart`. These are UI state that never feeds back into the game state.
- `handleRestart` (lines 58-64) only opens a confirmation popup. The model's `ConfirmRestart` command stands for the confirmation, whichever popup it comes from.
- Out-of-range indices: `Coord` restricts `row` and `col` to `0..2`. In the source a row outside the board makes the handler throw. An integer column of 3 or more extends that row. A negative or fractional column adds a named property to the row array, which a line check over indices 0 to 2 does not see, so the turn would still pass. The board component never produces any of these indices.
- JavaScript truthiness: `null`, `'X'`, `'O'` and `'Draw'` become the datatypes `Cell` and `Verdict`.
- `utils/gameLogic` is not part of this model. `EmptyBoard` and `CheckWinner` are reconstructed from their use, as described above.
- React's asynchronous state batching: each handler is one atomic transition on the state read at call time.
- components/Board.jsx (rendering; its `disabled` flag mirrors the guard at line 44), components/pages/MusicCompo.jsx (audio playback and animation), components/pages/MainCompo.jsx, components/navigation/Navigation.jsx, components/Splash Screen/SplashScreen.jsx and App.jsx (layout and navigation): these hold no game state.
