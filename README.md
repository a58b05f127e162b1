# Tic-Tac-Toe rules engine

A Dafny model of the game logic of a React Tic-Tac-Toe app (`src/App.js`), with
the rendering left out. It has four parts:

- **Win detection.** `calculateWinner` scans eight fixed triples of square
  positions (three rows, three columns, two diagonals) in a fixed order. It
  returns the first triple whose three squares hold the same mark, together
  with that mark. Module `WinDetection` holds the table `Lines`, the scan as a
  function `Winner` and the source's loop as the method `CalculateWinner`.
- **Click handling.** `Board.handleClick` ignores a click when the board is
  already won or the square is taken. Otherwise it copies the board and writes
  `X` (even `currentMove`) or `O` (odd) into the square. Module `BoardRules`
  holds this rule and the status line.
- **History state machine.** `Game` holds the list of board snapshots
  `history`, the cursor `currentMove` and the sort flag `isAscending`.
  `handlePlay` cuts the history after the cursor, appends the new board and
  moves the cursor onto it. `jumpTo` moves only the cursor. `handleSortToggle`
  flips the flag. Module `History` has these as functions on valid
  `GameState` values, with the invariants they keep. Module `GameComponent` has
  them as a class `Game` whose methods update its fields. Each method is proved
  to produce exactly the state the matching function gives.
- **Derived views.** These are the status (winner, then draw, then next player)
  and the move list ("Go to game start", "Go to move #N"), reversed when the
  order is descending (module `MoveList`). `${move}` is modelled as shortest
  decimal notation (module `Decimal`).

Cells are `Empty | X | O`, where `Empty` stands for the source's `null`. A
board is a sequence of exactly nine cells in row-major order. A snapshot in
`history` is never changed after it is appended, because `handleClick` writes
into a fresh copy. So snapshots are values (`seq<Cell>`). `HandleClick` does the
copy on a fresh array before handing the result over.

A history is *legal* (`History.Legal`) when it starts from the empty board and
each later snapshot adds the mark of the player whose turn it was to an empty
square of a board that had no winning triple. Clicks keep histories legal, and
the lemmas about legal histories give the game's invariants:

- snapshot `k` has `k` marks;
- X and O alternate;
- there are at most ten snapshots;
- only the last snapshot can be won, and the player who just moved is the winner;
- a full board occurs only at move 9.

`jumpTo` (`src/App.js:81-83`) does no range check, so `JumpTo` requires an
index inside the history; its only caller passes an index of the rendered
history list. The winning line is the ordered triple `[a, b, c]` that
`src/App.js:141` returns, and the model keeps that order.

## Model

| member | source | states |
|---|---|---|
| WinDetection.Lines | src/App.js:128-137 | the eight triples in scan order (a constant; `WinnerSpec` and `WinnerIsFirstMatch` state what the order decides) |
| WinDetection.Matches | src/App.js:140 | the three squares are equal and not empty (a predicate without ensures; used by `HasLine`, `FirstFrom` and every lemma about the scan) |
| WinDetection.Winner | src/App.js:127-145 | the value `calculateWinner` returns (no ensures of its own; `WinnerSpec`, `WinnerLine` and `WinnerIsFirstMatch` carry its contract, and `CalculateWinner` is proved equal to it) |
| WinDetection.ScanFrom | src/App.js:138-144 | the scan from row `i` of the table returns "no winner" when no triple from `i` on matches, and the report of the first matching triple otherwise |
| WinDetection.CalculateWinner | src/App.js:127-145 | the `for` loop with early return computes exactly the scan `Winner` |
| WinDetection.FirstMatch | src/App.js:138-142 | any matching triple has a first matching triple at or before it |
| WinDetection.WinnerSpec | src/App.js:127-145 | the result is `{winner: null, line: []}` exactly when no triple matches; otherwise it is the first matching triple in table order |
| WinDetection.WinnerLine | src/App.js:139-141 | a reported line is one of the eight triples, and all three of its squares hold the reported mark |
| WinDetection.WinnerIsFirstMatch | src/App.js:138-141 | when triple `k` matches and none before it does, the result is triple `k` with its mark |
| WinDetection.EmptyBoardNoWinner | src/App.js:68 | the all-`null` starting board has no winner |
| Grid.EmptyBoard | src/App.js:68 | `Array(9).fill(null)` (a constant; `EmptyBoardHasNoMarks` states that it holds only empty squares) |
| Grid.CountOf | src/App.js:29 | the number of squares holding a value is at most the board length (its recursive contract; `CountOfZero` ties it to `includes`) |
| Grid.CountOfUpdate | src/App.js:21-22 | writing one square moves one cell from the old value's count to the new value's count |
| Grid.CountOfZero | src/App.js:29 | a value's count is zero exactly when the board does not include it |
| Grid.CountsPartition | src/App.js:29 | the empty, X and O counts add up to the board length |
| Grid.FullIffNineMarks | src/App.js:29 | `!squares.includes(null)` holds exactly when all nine squares are marked |
| Grid.EmptyBoardHasNoMarks | src/App.js:68 | every square of `Array(9).fill(null)` is empty, and it holds no X and no O |
| BoardRules.PlayerMark | src/App.js:22 | the mark written, `xIsNext ? 'X' : 'O'`, is never empty |
| BoardRules.ClickResult | src/App.js:17-24 | the rule of `handleClick`, `None` for an ignored click (no ensures of its own; `ClickSpec` states it) |
| BoardRules.ClickSpec | src/App.js:17-24 | a click is ignored exactly when a triple matches or the square is taken; otherwise the new board equals the old one except at `i`, which holds the mover's mark, and has one mark more |
| BoardRules.Status | src/App.js:26-33 | the status choice (no ensures of its own; `StatusSpec` states the precedence) |
| BoardRules.StatusSpec | src/App.js:26-33 | with a matching triple the status is "Winner: " and the first triple's mark; with none, a full board gives "Draw: No one wins!", otherwise "Next player: " and the mover; the "Winner: " prefix appears exactly when a triple matches |
| Decimal.NatToString | src/App.js:91 | `${move}` is a non-empty digit string with no leading zero (`"0"` is the only one starting with `0`) |
| Decimal.ParseNatToString | src/App.js:91 | reading the digits back gives the number |
| Decimal.NatToStringInjective | src/App.js:91 | different move numbers are written differently |
| MoveList.Description | src/App.js:90-92 | the button text of a move (no ensures of its own; `DescriptionInjective` states that labels are distinct) |
| MoveList.Entries | src/App.js:89-102 | the `history.map` entries in history order (no ensures of its own; `Moves` states entry `k` in both orders) |
| MoveList.DescriptionInjective | src/App.js:90-92 | "Go to game start" and the "Go to move #N" labels name one move each |
| MoveList.Reverse | src/App.js:104-106 | `reverse()` puts element `k` at position `length - 1 - k` |
| MoveList.ReverseReverse | src/App.js:104-106 | reversing twice restores the list |
| MoveList.Moves | src/App.js:89-106 | one entry per snapshot; entry `k` jumps to move `k` when ascending and to move `count - 1 - k` when descending, and carries that move's description |
| MoveList.MovesFlip | src/App.js:85-87 | flipping the order reverses the move list |
| History.XIsNext | src/App.js:71 | `currentMove % 2 === 0` (no ensures of its own; `ClickAccepted` states that X moves on even cursors and O on odd ones) |
| History.CurrentSquares | src/App.js:72 | `history[currentMove]` (no ensures of its own; `JumpIsReversible` states that a jump to `m` shows `history[m]`) |
| History.ToggleSort | src/App.js:85-87 | `handleSortToggle` on the state (no ensures of its own; `ToggleSortSpec` states what it keeps and reverses) |
| History.View | src/App.js:108-124 | what the component renders: board, status, winning line and move list (no ensures of its own; `ToggleSortSpec` and `Game.Render` state its properties) |
| History.Init | src/App.js:68-70 | the starting state is valid: one snapshot, cursor 0 |
| History.Play | src/App.js:74-79 | `handlePlay` keeps the state valid: the history is non-empty, the cursor is in range and the history starts from the empty board |
| History.Click | src/App.js:17-24 | a click, ignored or played, keeps the state valid |
| History.JumpTo | src/App.js:81-83 | a jump to an index of the history keeps the state valid |
| History.ClickIgnored | src/App.js:17-20 | a click leaves the whole state unchanged exactly when the board on screen has a matching triple or the square is taken |
| History.ClickAccepted | src/App.js:21-23 | an accepted click keeps `history[0..currentMove]`, drops later snapshots, appends one board and moves the cursor onto it; that board differs from the one on screen only at `i`, which gets X on an even cursor and O on an odd one |
| History.FinishedIgnoresClicks | src/App.js:17-20 | on a won or full board every click is ignored |
| History.BranchDiscardsFuture | src/App.js:74-79 | jumping to move `m` and then clicking an empty square of the un-won `history[m]` leaves `m + 2` snapshots, and the first `m + 1` are unchanged |
| History.JumpIsReversible | src/App.js:81-83 | a jump keeps the history and the sort flag, shows `history[m]`, and jumping back restores the state |
| History.ToggleSortSpec | src/App.js:85-87 | toggling twice restores the state; one toggle keeps the board, status and winning line and reverses the move list |
| History.InitLegal | src/App.js:68 | the starting history is legal |
| History.LegalPrefix | src/App.js:75 | the part of a legal history that `slice(0, currentMove + 1)` keeps is legal |
| History.ClickKeepsLegal | src/App.js:17-24 | clicks keep the history legal |
| History.MarkCounts | src/App.js:21-22 | snapshot `k` of a legal history has `(k + 1) / 2` X marks and `k / 2` O marks |
| History.MovesMade | src/App.js:68 | snapshot `k` of a legal history has exactly `k` marks, and there are at most ten snapshots |
| History.DrawOnlyAtMoveNine | src/App.js:29-30 | a snapshot of a legal history is full exactly when it is move 9 |
| History.NewLineIsMovers | src/App.js:21-22 | one mark written on a board with no matching triple can only complete a triple of that mark |
| History.OnlyLastIsWon | src/App.js:18-19 | in a legal history only the last snapshot can be won |
| History.WinnerIsLastMover | src/App.js:18-22 | a won snapshot of a legal history was won by the player who made its last move |
| GameComponent.Game.constructor | src/App.js:68-70 | the fields start as one empty board, cursor 0 and ascending order, and the history is legal |
| GameComponent.Game.HandlePlay | src/App.js:74-79 | the fields become the state `Play` gives |
| GameComponent.Game.HandleClick | src/App.js:17-24 | the guard, the copy and the write, then `handlePlay`: the fields become the state `Click` gives, and a legal history stays legal |
| GameComponent.Game.JumpTo | src/App.js:81-83 | only `currentMove` changes, to the given index |
| GameComponent.Game.HandleSortToggle | src/App.js:85-87 | only `isAscending` changes, to its negation |
| GameComponent.Game.Render | src/App.js:13-106 | one render pass: the scan result and status choice of the `Board` component (13-33), `xIsNext` and the board on screen (71-72), and the move list (89-106), together equal to what `View` describes (the JSX inside this span is not modelled) |
| Scenarios.Accept | src/App.js:17-23 | a click on an empty square of a board with no matching triple plays the mover's mark there |
| Scenarios.ThreeMoves | src/App.js:17-23 | clicks 0, 1 and 3 from the start give four snapshots, with the cursor at 3 |
| Scenarios.FourthMove | src/App.js:17-23 | the fourth move (O on square 4) is accepted |
| Scenarios.FifthMove | src/App.js:17-23 | the fifth move (X on square 6) is accepted |
| Scenarios.FiveMoves | src/App.js:74-79 | clicks 0, 1, 3, 4, 6 give six snapshots, with the cursor at 5 |
| Scenarios.LeftColumnReported | src/App.js:127-145 | on that board the first matching triple is the left column, reported as X with line 0, 3, 6, and the status is "Winner: X" |
| Scenarios.LeftColumnWin | src/App.js:26-28 | after clicks 0, 1, 3, 4, 6 the view shows "Winner: X" and highlights squares 0, 3 and 6 |
| Scenarios.PlayAfterJump | src/App.js:74-79 | playing square 4 from move 1 of a four-snapshot history leaves three snapshots |
| Scenarios.BranchFromMoveOne | src/App.js:81-83 | after three moves, jumping to move 1 and playing square 4 drops the old moves 2 and 3 |
| Scenarios.Append | src/App.js:74-79 | a click accepted with the cursor on the last snapshot appends exactly the new board and moves the cursor onto it |
| Scenarios.DrawMove1 | src/App.js:17-23 | move 1 of the drawn game (X on square 0) is accepted and appends board `B1` |
| Scenarios.DrawMove2 | src/App.js:17-23 | move 2 of the drawn game (O on square 1) is accepted and appends board `B2` |
| Scenarios.DrawMove3 | src/App.js:17-23 | move 3 of the drawn game (X on square 2) is accepted and appends board `B3` |
| Scenarios.DrawMove4 | src/App.js:17-23 | move 4 of the drawn game (O on square 4) is accepted and appends board `B4` |
| Scenarios.DrawMove5 | src/App.js:17-23 | move 5 of the drawn game (X on square 3) is accepted and appends board `B5` |
| Scenarios.DrawMove6 | src/App.js:17-23 | move 6 of the drawn game (O on square 5) is accepted and appends board `B6` |
| Scenarios.DrawMove7 | src/App.js:17-23 | move 7 of the drawn game (X on square 7) is accepted and appends board `B7` |
| Scenarios.DrawMove8 | src/App.js:17-23 | move 8 of the drawn game (O on square 6) is accepted and appends board `B8` |
| Scenarios.DrawMove9 | src/App.js:17-23 | move 9 of the drawn game (X on square 8) is accepted and appends board `B9` |
| Scenarios.DrawFirstThree | src/App.js:74-79 | clicks 0, 1, 2 from the start give four snapshots, with the cursor at 3 |
| Scenarios.DrawFirstSix | src/App.js:74-79 | clicks 0, 1, 2, 4, 3, 5 give seven snapshots, with the cursor at 6 |
| Scenarios.DrawAllNine | src/App.js:74-79 | all nine clicks give ten snapshots ending in the full board `B9`, with the cursor at 9 |
| Scenarios.FullBoardDraw | src/App.js:29-30 | the full board `B9` has no matching triple and shows "Draw: No one wins!" with an empty winning line |
| Scenarios.DrawnGame | src/App.js:26-33 | clicks 0, 1, 2, 4, 3, 5, 7, 6, 8 from the start end on the full board with status "Draw: No one wins!" and no winning line |

## Left out

- Rendering is left out: the `Square` component, the row and column JSX loop (`src/App.js:44-57`), the Bootstrap containers and list items, and the highlight and bold styles. None of it affects game state. The winning line and the move list are modelled as data.
- React's `useState` updates are asynchronous and batched. The model applies them synchronously, in the order the handlers call the setters.
- `handleClick` on an index outside 0–8 is left out. In JavaScript it would extend the array, but `renderSquare` passes only 0–8, so the model takes an `Index`.
- `jumpTo` on an index outside the history is left out. The code does no check, and its caller passes only rendered indices.
- `handlePlay` accepts any board. The legality invariants cover histories that clicks build, not arbitrary `handlePlay` calls.
- There is no new-game or reset operation, because the code has none.
