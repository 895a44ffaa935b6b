# Eight queens by backtracking, in Dafny

This project models `EightQueens.java`, a small Java class that places queens on an 8×8 chess board by recursive backtracking. The model covers:

- **The board.** An 8×8 `char` array whose cells hold `'Q'` (a queen) or `'o'` (an empty square).
- **The cell operations.** The constructor, `setQueen` and `emptySquare`.
- **The deep copy.** `clone`.
- **The attack check.** `isValid` scans the row, the column and both diagonals through a cell.
- **The solver.** `setQueens(k)` scans the whole board in row-major order on every call. At each cell `isValid` accepts, it places a queen, counts it, and recurses with `k - 1`. If the recursion fails, it removes the queen, uncounts it, and scans on.

The project has four modules:

- **`Board`** (`board.dfy`) treats the board as a value (`Grid`, a sequence of rows). It defines:
  - what a safe cell is and what a non-attacking board is;
  - the set of queens on a board;
  - `Completes(g, h, k)`: h is g with exactly k empty squares turned into queens, and each added queen is attacked by no queen of h.
- **`Search`** (`search.dfy`) defines `Solve(g, k)`, a pure function that follows `setQueens`' loops and recursion cell by cell and gives the board the search leaves behind, or `None`. It proves two things:
  - **soundness:** a success is a completion;
  - **completeness:** if a completion exists, the search succeeds.
- **`Chess`** (`eight_queens.dfy`) is the class `EightQueens`. It holds an `array2<char>` and the queen counter. A ghost field `Contents` mirrors the array as a `Grid`. Each method is written with the Java code's own loops and early returns, and is proved against the functions of `Board` and `Search`.
- **`Scenarios`** (`scenarios.dfy`) covers the driver in `main`, which is commented out in the source. For each of its six `setQueens` calls, a client method states the outcome and proves it without running the search: it names a completion and appeals to completeness. The deep-copy demonstration is a client method too.

Two points where the code does something other than a first reading suggests:

- The first driver scenario puts queens on (0,0), (1,4), (7,7) and (6,3), then calls `setQueens(4)`. One might expect eight mutually non-attacking queens at the end. But (0,0) and (7,7) already share a diagonal. `setQueens` checks each new cell against the queens present (through `isValid`, EightQueens.java:125-166); it never checks those queens against each other. The model proves that the call succeeds and that its final board is *not* non-attacking (`Scenarios.FourPreplacedTakesFour`).
- `isValid`'s comments call the row scan "vertical" and the column scan "horizontal". The model follows what the loops index.

## Model

| member | source | states |
|---|---|---|
| Board.EmptyGrid | EightQueens.java:22-28 | the board a new object starts with has 8 rows of 8 cells, every one an empty square |
| Board.Place | EightQueens.java:77-80 | putting a queen on (r, c) makes that cell a queen and leaves every other cell as it was |
| Board.Clear | EightQueens.java:87-90 | emptying (r, c) makes that cell an empty square and leaves every other cell as it was |
| Board.EmptyGridHasNoQueens | EightQueens.java:22-28 | a new board holds no queen |
| Board.PlaceAddsQueen | EightQueens.java:194 | placing a queen on a cell without one adds exactly that queen to the set of queens, so the count rises by one |
| Board.ClearUndoesPlace | EightQueens.java:204 | emptying a square right after placing a queen on a previously empty square gives back the original board |
| Board.PlaceSafeKeepsNonAttacking | EightQueens.java:192-194 | a queen put on a cell that the attack check accepts keeps a non-attacking board non-attacking |
| Board.CompletesKeepsNonAttacking | EightQueens.java:170-176 | if every added queen is unattacked on the final board, a non-attacking start gives a non-attacking result |
| Board.CompletesSelf | EightQueens.java:182-185 | a board is its own completion with zero added queens |
| Board.CompletesStep | EightQueens.java:192-200 | a safe queen on (r, c) followed by a completion with k - 1 queens is a completion of the original board with k queens |
| Board.PickNewQueen | EightQueens.java:188-200 | every completion with at least one added queen has an added queen that is safe on the starting board, and the rest of the completion completes the board with that queen on it |
| Search.Solve | EightQueens.java:176-212 | the board `setQueens(k)` leaves on success, or None: the range guard, the k = 0 base case, otherwise Scan from (0, 0); a result is again a board of 'Q' and 'o' cells. Its properties are SolveSound, SolveComplete and SolveSucceedsIff |
| Search.Scan | EightQueens.java:188-211 | the nested row-major scan from (i, j): the first cell that isValid accepts and whose recursive call succeeds decides the result, a failed cell is undone and the scan moves on; a result is a board. Its properties are ScanSound and ScanFinds, and through Solve SolveSound, SolveComplete and SolveSucceedsIff |
| Search.SolveSound | EightQueens.java:176-212 | when the search succeeds, its board keeps every queen that was there, adds exactly k queens on empty squares, changes no other cell, and no added queen shares a line with another queen |
| Search.ScanSound | EightQueens.java:188-211 | the scan from any cell on, when it succeeds, yields a completion with k added queens |
| Search.ScanFinds | EightQueens.java:188-211 | the scan from (i, j) succeeds whenever some cell at or after (i, j) in row-major order is safe and its tentative queen leads to a successful recursive call |
| Search.SolveComplete | EightQueens.java:176-212 | if the board has any completion with k added queens, 0 <= k <= 8, the search succeeds |
| Search.SolveSucceedsIff | EightQueens.java:176-212 | the search succeeds if and only if k is in 0..8 and a completion with k added queens exists |
| Search.SolveKeepsNonAttacking | EightQueens.java:170-176 | a successful search on a non-attacking board ends on a non-attacking board (with only 'Q' and 'o' cells) |
| Chess.EightQueens.constructor | EightQueens.java:22-28 | a new object has a fresh 8×8 array with every cell 'o', and a counter of zero |
| Chess.EightQueens.ShallowCopy | EightQueens.java:98 | the field-by-field copy shares the other object's array and takes its counter value |
| Chess.EightQueens.SetQueen | EightQueens.java:77-80 | cell (row, column) becomes 'Q' and every other cell of the array keeps its value |
| Chess.EightQueens.EmptySquare | EightQueens.java:87-90 | cell (row, column) becomes 'o' and every other cell of the array keeps its value |
| Chess.EightQueens.Clone | EightQueens.java:96-111 | the copy is a new object with a newly allocated array holding the same cells and the same counter, so later writes to either array leave the other unchanged |
| Chess.EightQueens.IsValid | EightQueens.java:122-168 | true exactly when no queen lies in the cell's row, its column or either diagonal through it; a cell that holds a queen is never valid |
| Chess.EightQueens.SetQueens | EightQueens.java:176-212 | the outcome and final board are those of `Solve`. For k outside 0..8 it returns false and changes nothing. For k = 0 it returns true and changes nothing, whatever the queens already there. On failure the board and the counter are back to their values before the call. On success the counter rose by k. |
| Scenarios.FourPreplacedTakesFour | EightQueens.java:221-226 | with queens on (0,0), (1,4), (7,7) and (6,3), the search for four more succeeds; its board keeps (0,0) and (7,7) and is therefore not non-attacking |
| Scenarios.ThreePreplacedTakesFive | EightQueens.java:233-237 | with queens on (6,6), (1,5) and (4,7), the search for five more succeeds |
| Scenarios.TwoPreplacedTakesSix | EightQueens.java:240-243 | with queens on (0,6) and (4,4), the search for six more succeeds |
| Scenarios.OnePreplacedTakesSeven | EightQueens.java:246-248 | with a queen on (1,2), the search for seven more succeeds; its board keeps (1,2) and is non-attacking |
| Scenarios.EmptyBoardTakesEight | EightQueens.java:251-252 | on the empty board the search for eight queens succeeds with eight non-attacking queens |
| Scenarios.FourPreplacedTest | EightQueens.java:221-226 | the object-level run of the first driver scenario returns true |
| Scenarios.OutOfRangeTest | EightQueens.java:229-230 | `setQueens(9)` on a new object returns false and leaves the counter at zero |
| Scenarios.ThreePreplacedTest | EightQueens.java:233-237 | the object-level run of the three-queen scenario returns true |
| Scenarios.TwoPreplacedTest | EightQueens.java:240-243 | the object-level run of the two-queen scenario returns true |
| Scenarios.OnePreplacedTest | EightQueens.java:246-248 | the object-level run of the one-queen scenario returns true |
| Scenarios.EmptyBoardTest | EightQueens.java:251-252 | `setQueens(8)` on a new object returns true and the counter ends at eight |
| Scenarios.DeepCopyTest | EightQueens.java:256-262 | after the clone gains queens on (0,0) and (7,7) and loses the one on (7,2), the original still has its queen on (7,2) and none on (0,0) |

## Left out

- `printChessBoard` (EightQueens.java:33-44) writes to the console. It is not modelled, and neither are the `println` calls of the driver in `main`.
- `getBoard` (EightQueens.java:50-53) only hands out the array reference. The model reads the array through the object's field instead.
- `getNumOfQueens` and `setNumOfQueens` (EightQueens.java:58-69) are plain accessors of the counter. `SetQueens` reads and writes the field directly.
- The counter `numOfQueens` is `static` in the source (EightQueens.java:15), so all objects share it, and the constructor (EightQueens.java:22-28) does not reset it. The model gives each object its own counter, starting at zero. The counter never affects control flow, and the method contracts state how each call changes it. So the counter values that `Scenarios.OutOfRangeTest` (0) and `Scenarios.EmptyBoardTest` (8) state are the model's. The Java driver, run in order, would read 4 at `setQueens(9)` and 30 after `setQueens(8)`.
- `clone`'s `CloneNotSupportedException` cannot be thrown, because the class implements `Cloneable`. `Clone` is total.
- Chess.EightQueens.IsValid: requires both row and column to be in 0..7. The Java code throws an index exception for an out-of-range row. For an out-of-range column it can return false early, from the row scan, before any index is out of bounds.
- Chess.EightQueens.SetQueen: requires an in-range cell, where Java would throw an index exception. `EmptySquare` has the same requirement.
- Chess.EightQueens.SetQueens: its contract ties the result to `Solve` and does not restate the completion property. That property is `Search.SolveSound` applied to the same `Solve` value.
- The board size is the constant 8, as in the source, whose range guard hard-codes 8 (EightQueens.java:178). There is no general N.
- The driver's scenarios are settled by proof that a completion exists, and completeness argues that the search finds one. The particular board each search ends on is not computed.
