# Tic-tac-toe game engine, modelled in Dafny

This project models the game engine of a two-player tic-tac-toe program
(`tic-tac-toe/src/game.rs`). It covers:

- the cell values: `Empty` or `Filled(player)`, with players `X` and `O`;
- the 3x3 board, with its eight winnable lines and its nine cells;
- the `Game` object. It holds the board and the player to move. It applies a
  move in place and reports `Continue`, `PlayerWins(p)` or `Draw`, or the
  error `InvalidMove`.

Everything is in `game.dfy`, module `TicTacToe`. It has four layers:

- **Values.** `Player`, `BoardValue`, `GameStatus`, `PlayError` and a `Result`
  type for the error return. `PlayerOf` gives the owner of a filled cell. The
  source panics on an empty cell, so `PlayerOf` requires a filled one.
  `Symbol` maps a cell to the text it is drawn with.
- **Board as a value.** `Grid` is a 3x3 snapshot of the board. `WinnableSlices`
  lists the eight lines in the order the engine scans them: rows top to
  bottom, columns left to right, the main diagonal, then the anti-diagonal.
  `AllCells` flattens the board row by row.
- **Outcome detection.** `StatusOf` is the status the engine computes. The
  first line in table order that is filled by one player wins. Otherwise the
  game is a draw when no cell is empty, and play continues when one is.
  `Won`, `NoWin` and `Full` state the rules again, directly over rows, columns
  and diagonals. The lemmas prove that the two agree. They also prove that a
  completed line on a full board is a win and never a draw, and that on a
  board nobody has won yet only the player who just moved can win. An
  invariant of every reachable state, including states after a win, is that
  only the player to move can hold a line.
- **The game, in place.** Class `Game` has the board as a 3x3 `array2` and a
  mutable `currentPlayer`. `GetGameStatus` is the engine's scan: a loop over
  the eight lines with an early return, then the full-board check.
  `Play(row, column)` writes the mover's mark into the array and passes the
  turn only when play continues. Its contract ties the new state to `Step`,
  the effect of one move on a `State` value. `Step` is specified on its own
  terms: what is refused, which cell changes, what status is reported and
  when the turn passes.

Indices are 0-based. An out-of-range index panics in the source, so `Play`
requires `row < 3 && column < 3`. Once a game has ended, the source still
accepts further moves on empty cells. The model does the same.

## Model

| member | source | states |
|---|---|---|
| `TicTacToe.Other` | tic-tac-toe/src/game.rs:148-151 | the next player is always the other one of the two players |
| `TicTacToe.OtherInvolutive` | tic-tac-toe/src/game.rs:148-151 | passing the turn twice gives it back to the same player |
| `TicTacToe.PlayerOf` | tic-tac-toe/src/game.rs:26-32 | on a filled cell, returns the player that fills it; an empty cell is outside its precondition, where the source panics |
| `TicTacToe.PlayerSymbol` | tic-tac-toe/src/game.rs:41-52 | a player is drawn as one character: "X" exactly for X, "O" exactly for O, never a space |
| `TicTacToe.Symbol` | tic-tac-toe/src/game.rs:10-17 | a cell is drawn as one character; a space exactly when it is empty, else its player's letter |
| `TicTacToe.SymbolInjective` | tic-tac-toe/src/game.rs:10-17 | different cell values are drawn differently |
| `TicTacToe.EmptyGrid` | tic-tac-toe/src/game.rs:60-63 | the default board has every one of the nine cells empty |
| `TicTacToe.Mark` | tic-tac-toe/src/game.rs:143 | writing a cell changes that cell to the new value and leaves the other eight as they were |
| `TicTacToe.WinnableSlices` | tic-tac-toe/src/game.rs:93-107 | the board has exactly eight winnable lines |
| `TicTacToe.WinnableSlicesOrder` | tic-tac-toe/src/game.rs:96-105 | the line table lists the three rows top to bottom, then the three columns left to right, then the main diagonal, then the anti-diagonal |
| `TicTacToe.SliceOwnedIffWon` | tic-tac-toe/src/game.rs:93-106 | a player owns one of the eight listed lines if and only if it holds a complete row, column or diagonal |
| `TicTacToe.AllCells` | tic-tac-toe/src/game.rs:109-111 | the nine cells in row-major order: position 3*r+c holds the cell at row r, column c |
| `TicTacToe.NoEmptyCellIffFull` | tic-tac-toe/src/game.rs:164-171 | no flattened cell is empty if and only if every cell of the board is filled |
| `TicTacToe.IsWinningSlice` | tic-tac-toe/src/game.rs:159 | the per-line test the engine applies: first cell filled and all three cells equal; what it means is stated by WinningSliceIsOwned |
| `TicTacToe.WinningSliceIsOwned` | tic-tac-toe/src/game.rs:159-160 | the per-line test (first cell filled, all three equal) holds exactly when one player fills the line, and that player is the first cell's owner |
| `TicTacToe.StatusOf` | tic-tac-toe/src/game.rs:157-174 | a win is reported exactly when some listed line passes the per-line test, and the winner fills such a line; otherwise Draw exactly when no cell is empty, else Continue (the meaning in terms of rows, columns and diagonals is stated by StatusWinIffWon, StatusDrawIff and StatusContinueIff) |
| `TicTacToe.FirstWin` | tic-tac-toe/src/game.rs:158-162 | none is returned exactly when no line from k on passes the test; otherwise the returned player fills a passing line and no earlier line passes |
| `TicTacToe.StatusFirstMatch` | tic-tac-toe/src/game.rs:158-162 | the status is PlayerWins(p) exactly when p fills a line and no earlier line in the scan order passes the test |
| `TicTacToe.StatusWinIffWon` | tic-tac-toe/src/game.rs:157-162 | a win is reported exactly when some player holds a line, and the reported winner holds one |
| `TicTacToe.StatusDrawIff` | tic-tac-toe/src/game.rs:164-171 | Draw is reported exactly when nobody holds a line and no cell is empty |
| `TicTacToe.StatusContinueIff` | tic-tac-toe/src/game.rs:164-173 | Continue is reported exactly when nobody holds a line and some cell is empty |
| `TicTacToe.WinBeatsDraw` | tic-tac-toe/src/game.rs:157-171 | a full board on which some line is complete is reported as a win, never a draw |
| `TicTacToe.MarkKeepsOthersLines` | tic-tac-toe/src/game.rs:143 | marking a cell for one player cannot complete a line for the other player |
| `TicTacToe.OnlyMoverCanWin` | tic-tac-toe/src/game.rs:143-162 | after a move on a board nobody had won, only the mover can hold a line, so the reported winner is the mover whatever the scan order |
| `TicTacToe.NewGame` | tic-tac-toe/src/game.rs:131-136 | a new game has all nine cells empty and X to move |
| `TicTacToe.Step` | tic-tac-toe/src/game.rs:138-154 | an occupied cell gives InvalidMove and no change; otherwise exactly that cell gets the mover's mark, the status of the new board is reported, the turn passes exactly when it is Continue, and no filled cell ever changes |
| `TicTacToe.RepeatedInvalidMoveRefused` | tic-tac-toe/src/game.rs:138-141 | a refused move, repeated, is refused again with the same state |
| `TicTacToe.NewGameOnlyCurrentHolds` | tic-tac-toe/src/game.rs:131-136 | on a new game nobody holds a line, so at most the player to move does |
| `TicTacToe.StepKeepsOnlyCurrentHolds` | tic-tac-toe/src/game.rs:138-154 | every move, accepted or refused and even after the game has ended, keeps the invariant that only the player to move can hold a line; a reported winner is always the mover |
| `TicTacToe.StepWinnerIsMover` | tic-tac-toe/src/game.rs:143-154 | on a board nobody has won, a move that reports a win reports the mover as the winner |
| `TicTacToe.WinGameMove1` | tic-tac-toe/src/game.rs:138-154 | in the top-row game, move 1 (X at 0, 0) is accepted, marks exactly that cell, reports Continue and passes the turn to O |
| `TicTacToe.WinGameMove2` | tic-tac-toe/src/game.rs:138-154 | in the top-row game, move 2 (O at 1, 0) is accepted, marks exactly that cell, reports Continue and passes the turn to X |
| `TicTacToe.WinGameMove3` | tic-tac-toe/src/game.rs:138-154 | in the top-row game, move 3 (X at 0, 1) is accepted, marks exactly that cell, reports Continue and passes the turn to O |
| `TicTacToe.WinGameMove4` | tic-tac-toe/src/game.rs:138-154 | in the top-row game, move 4 (O at 1, 1) is accepted, marks exactly that cell, reports Continue and passes the turn to X |
| `TicTacToe.WinGameMove5` | tic-tac-toe/src/game.rs:138-162 | move 5 (X at 0, 2) completes the top row: PlayerWins(X) is reported and X keeps the turn |
| `TicTacToe.DrawGameMove2` | tic-tac-toe/src/game.rs:138-154 | in the drawn game, move 2 (O at 0, 1) is accepted, marks exactly that cell, reports Continue and passes the turn to X |
| `TicTacToe.DrawGameMove3` | tic-tac-toe/src/game.rs:138-154 | in the drawn game, move 3 (X at 0, 2) is accepted, marks exactly that cell, reports Continue and passes the turn to O |
| `TicTacToe.DrawGameMove4` | tic-tac-toe/src/game.rs:138-154 | in the drawn game, move 4 (O at 1, 1) is accepted, marks exactly that cell, reports Continue and passes the turn to X |
| `TicTacToe.DrawGameMove5` | tic-tac-toe/src/game.rs:138-154 | in the drawn game, move 5 (X at 1, 0) is accepted, marks exactly that cell, reports Continue and passes the turn to O |
| `TicTacToe.DrawGameMove6` | tic-tac-toe/src/game.rs:138-154 | in the drawn game, move 6 (O at 2, 0) is accepted, marks exactly that cell, reports Continue and passes the turn to X |
| `TicTacToe.DrawGameMove7` | tic-tac-toe/src/game.rs:138-154 | in the drawn game, move 7 (X at 1, 2) is accepted, marks exactly that cell, reports Continue and passes the turn to O |
| `TicTacToe.DrawGameMove8` | tic-tac-toe/src/game.rs:138-154 | in the drawn game, move 8 (O at 2, 2) is accepted, marks exactly that cell, reports Continue and passes the turn to X |
| `TicTacToe.DrawGameMove9` | tic-tac-toe/src/game.rs:164-171 | move 9 (X at 2, 1) fills the last cell with no line completed: Draw is reported and X keeps the turn |
| `TicTacToe.InvalidMoveScenario` | tic-tac-toe/src/game.rs:138-141 | after X opens at (0,0), O's move at (0,0) is refused; the board keeps only X's mark and O keeps the turn |
| `TicTacToe.Game.Cells` | tic-tac-toe/src/game.rs:60-63 | the snapshot holds, at row r and column c, the array's cell [r, c] |
| `TicTacToe.Game.constructor` | tic-tac-toe/src/game.rs:131-136 | a fresh 3x3 board with every cell empty, and X to move |
| `TicTacToe.Game.GetGameStatus` | tic-tac-toe/src/game.rs:157-174 | the loop's result equals the status of the board: a reported winner holds a line; Draw exactly when nobody holds a line and the board is full; Continue exactly when nobody holds a line and it is not full |
| `TicTacToe.Game.Play` | tic-tac-toe/src/game.rs:138-155 | the result and the new board and player are those of one move from the old board and player |
| `TicTacToe.RepeatedInvalidMove` | tic-tac-toe/src/game.rs:138-141 | calling play twice on an occupied cell gives InvalidMove both times and leaves the game unchanged |

## Left out

- The box-drawing `Display` for the board (tic-tac-toe/src/game.rs:79-90) is text layout only. Just the cell-symbol mapping is modelled (`Symbol`, `PlayerSymbol`).
- The `Deref`/`DerefMut` plumbing of `Board` (tic-tac-toe/src/game.rs:65-77) is not modelled. The model indexes the array directly.
- `get_winnable_slices` and `get_all_cells` return references into the board. The model copies the cell values into sequences, since the board does not change while they are read.
- tic-tac-toe/src/main.rs only builds and prints an empty board. It is not part of this model.
- tic-tac-toe-druid/src/main.rs is a GUI animation (floating point, event callbacks, window setup). It has no connection to the game. It is not part of this model.
- Out-of-range indices: the source panics on them. In the model they are excluded by `Play`'s precondition and are not an error value.
- `TicTacToe.WinnableSlices`: its own contract states only that there are eight lines. Which lines they are, and in which order, is stated by the separate lemma `WinnableSlicesOrder`; putting it in the function's own contract makes every proof that unfolds a board much more expensive.
