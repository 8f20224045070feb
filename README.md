# Tic-tac-toe game engine, modelled in Dafny

This project models the core of a small N x N tic-tac-toe program: the game
engine `TicTacToeGame` of `main.py` and the random opponent `ia` of `ia.py`.

- `wrappers.dfy` (module `Wrappers`): the `Option` type used for "no move" and
  "no winning line".
- `grid.dfy` (module `Grid`): the value types `Player` and `Move`, the board as
  a grid of moves, writing a move into its cell (`Place`), the engine's win
  test for one line (the labels along it collapse to one non-empty value) and
  the short-circuiting scan that reports the first won line (`FirstWin`).
- `win_patterns.dfy` (module `WinPatterns`): the winning lines of an n x n
  board, built as the engine builds them: the rows of coordinates, the columns
  as their transpose (`zip`), the main diagonal read off the rows and the
  second diagonal read off the reversed columns. The lemmas give the count
  (2n + 2), the length of each line (n), the exact layout and order, that every
  coordinate is on the board and that no line repeats a cell.
- `engine.dfy` (module `Engine`): the class `TicTacToeGame` with the board,
  the turn pointer, the winner flag and the winning combo as fields. Its
  object invariant `Valid()` says that the winner record is exactly what the
  scan reports on the current board. `ProcessMove` writes the move and runs the
  scan as a loop that stops at the first won line; `ResetGame` clears the
  board with nested loops and keeps the turn pointer.
- `random_mover.dfy` (module `RandomMover`): `Ia` on a flat board where 0 marks
  a free cell. The random draw is a parameter: the pick is entry
  `draw % |free|` of the free list, so it always comes from the free set and
  every free cell is the pick of some draw.
- `scenarios.dfy` (module `Scenarios`): two concrete 3 x 3 games, a win along
  the top row and a full board without a complete line.

Facts about the code that the model keeps:
- The winning lines are an ordered list, not a set. Their order (rows, then
  columns, then the two diagonals) decides which line is reported.
- Player labels are not checked to be non-empty or distinct. An empty list of
  players, like `None`, selects the default pair X, O (`players or [...]`).
- The label of a player or a move is the field `mark` in the model, because
  `label` is a reserved word in Dafny.

## Model

| member | source | states |
|---|---|---|
| `Grid.EmptyBoard` | main.py:30 | The initial board is n x n, and cell (r, c) holds `Move(r, c, "")` |
| `Grid.Place` | main.py:55-56 | Writing a move changes exactly the cell at its coordinates, which then holds the move; every other cell and the board's shape are unchanged |
| `Grid.PlaceKeepsShape` | main.py:55-56 | Writing an in-range move keeps the board n x n, with every cell still carrying its own coordinates |
| `Grid.ComboWonIff` | main.py:58-59 | The set-collapse test `Grid.ComboWon` (exactly one distinct label, and it is not "") holds iff the line is non-empty and all its cells carry the first cell's non-empty label |
| `Grid.NotWonThroughEmptyCell` | main.py:59 | A line through an unoccupied cell is never won |
| `Grid.FirstWin` | main.py:57-63 | The scan reports nothing iff no line is won; otherwise it reports a won line with no won line before it in scan order |
| `Grid.FirstWinAt` | main.py:57-63 | If line i is won and no earlier line is, the scan reports line i |
| `Grid.NoWinOnEmptyBoard` | main.py:30-31 | On the initial board no line is won, so the winner flag starts out consistent with the board |
| `Grid.ClearedBoardIsEmpty` | main.py:76-81 | A board whose every cell (i, j) was overwritten with `Move(i, j, "")` is the initial board, and no line of it is won |
| `Grid.WinPassesThroughMove` | main.py:54-63 | A line that becomes won by a move runs through the moved cell, and all its cells carry the mover's label |
| `Grid.PlaceKeepsCombosOnBoard` | main.py:55-57 | After a write, every winning line can still be looked up on the board |
| `Grid.OnlyTheMoverCanWin` | main.py:54-63 | From a board with no won line, a line reported after a move contains the moved cell and carries the mover's label throughout |
| `WinPatterns.RowsOf` | main.py:36 | Row r of the result lists the coordinates of the cells of board row r, in column order |
| `WinPatterns.Transpose` | main.py:37 | Column c of the result holds entry c of every row, in row order (the `zip(*rows)` transpose) |
| `WinPatterns.Reverse` | main.py:39 | The result has the same length and lists the input back to front |
| `WinPatterns.Diagonal` | main.py:38 | Takes one entry per line, so the diagonal is as long as the list of lines |
| `WinPatterns.CombosOf` | main.py:36-40 | The lines of a square board of size n, read off its cells as rows, columns (the transpose), the main diagonal and the second diagonal (from the reversed columns), are 2n + 2 lines of n cells each; `WinningCombosLayout` gives their coordinates |
| `WinPatterns.WinningCombos` | main.py:35-40 | An n x n board has exactly 2n + 2 winning lines, each of n cells |
| `WinPatterns.WinningCombosLayout` | main.py:35-40 | Lines 0..n-1 are the rows (k, j), lines n..2n-1 the columns (j, k - n), line 2n the main diagonal (j, j) and line 2n+1 the second diagonal (j, n - 1 - j) |
| `WinPatterns.WinningCombosInRange` | main.py:35-40 | Every coordinate of every winning line lies in [0, n) x [0, n) |
| `WinPatterns.WinningCombosDistinct` | main.py:35-40 | No winning line lists the same cell twice |
| `WinPatterns.WinningCombosOnBoard` | main.py:35-40 | Every winning line can be looked up on any n x n board |
| `Engine.DefaultPlayers` | main.py:22-25 | Without players the game has two: "X" first, then "O" |
| `Engine.NextIndex` | main.py:43-44 | The turn passes to the next player in the list, wrapping from the last back to the first |
| `Engine.TicTacToeGame.constructor` | main.py:21-32 | A new game (by default 3 x 3 with the players X and O) has the given (or default) players with the first to move, every cell (r, c) holding `Move(r, c, "")`, no winner, an empty winning combo and the winning lines of an n x n board |
| `Engine.TicTacToeGame.CurrentPlayer` | main.py:27 | The current player is one of the game's players |
| `Engine.TicTacToeGame.TogglePlayer` | main.py:43-44 | Only the turn pointer changes, and it moves to the next player cyclically |
| `Engine.TicTacToeGame.IsValidMove` | main.py:47-51 | A move is valid iff no winning line on the board is complete and its target cell is unoccupied; it reads the state and changes nothing |
| `Engine.TicTacToeGame.ProcessMove` | main.py:54-63 | Only the move's cell is written; if some line is now won, the flag is set and the combo is the first won line in scan order, otherwise flag and combo keep their old values; a reported line passes through the moved cell with the mover's label |
| `Engine.TicTacToeGame.HasWinner` | main.py:66-67 | The winner flag is true iff some winning line on the board is complete |
| `Engine.TicTacToeGame.IsTied` | main.py:70-73 | A tie holds iff no winning line is complete and every cell is occupied; a tie and a win never hold together |
| `Engine.TicTacToeGame.ResetGame` | main.py:76-81 | Every cell (r, c) becomes `Move(r, c, "")`, the flag is cleared and the combo emptied; the turn pointer, the players and the winning lines are kept |
| `RandomMover.FreePositions` | ia.py:7 | The free list holds exactly the indices whose cell is 0, in strictly ascending order |
| `RandomMover.Ia` | ia.py:5-12 | The result is "none" iff no cell is 0; otherwise it is an index on the board whose cell is 0 |
| `RandomMover.OneFreeCell` | ia.py:7-10 | With exactly one free cell, every draw picks that cell |
| `RandomMover.EveryFreeCellReachable` | ia.py:9-10 | Every free cell is the pick of some draw, so the choice ranges over the whole free set |
| `RandomMover.MarkIgnored` | ia.py:5-12 | The player's label passed in has no effect on the pick |
| `Scenarios.ThreeByThreeCombos` | main.py:35-40 | The eight lines of the 3 x 3 board, written out in scan order |
| `Scenarios.TopRowGameBoards` | main.py:55-56 | The boards after each move of the game X(0,0), O(1,1), X(0,1), O(1,0), X(0,2) |
| `Scenarios.TopRowScenario` | main.py:57-63 | In that game no line is won before the fifth move, whose cell is still free, and after it the scan reports the top row |
| `Scenarios.TieScenario` | main.py:70-73 | The full board X O X / X O O / O X X has no complete line, so it is a tie |

## Left out

- The graphical front end (`TicTacToeBoard`), the launcher and the event loop:
  window plumbing with no game logic. The front end's calling protocol
  (validate, process, check tie or win, toggle) is reflected only in the
  preconditions of `ProcessMove`.
- `Player.color`: an opaque display string that the engine never reads.
- The `itertools.cycle` iterator: modelled as an index into the players with
  a modulo increment.
- Out-of-range coordinates: `IsValidMove` and `ProcessMove` require the move's
  cell to lie on the board. Python would raise on a too-large index and wrap
  a negative one; neither is modelled.
- `Engine.TicTacToeGame.ProcessMove` requires that the move was validated; the
  code does no validation itself, and what it does with an unvalidated move
  (overwriting an occupied cell, or scanning after a win) is not modelled.
- Negative board sizes: the size is a natural number here. In Python a
  negative size builds the same empty board as size 0.
- In-place update of the row lists in `reset_game`, and aliasing of those
  lists: the board is a sequence field that the methods reassign.
- The uniform distribution of `random.choice`: the draw is a parameter, and the
  model proves only that the pick comes from the free set and that every free
  cell can be picked.
- The `False == 0` ambiguity of the value `ia` returns when the board is full:
  "none" is a distinct `Option` value.
- The replay property (a reset followed by the same moves reaches the same
  outcome) is not stated as a separate lemma; it follows from `ResetGame`
  restoring the initial board and winner record, with the outcome of every
  move a function of the board alone.
