/**
 * The backtracking search of setQueens as a pure function of the board.
 * Solve(g, k) is the board the search leaves behind when it succeeds, or
 * None when it fails; Scan follows the two nested loops cell by cell, in
 * row-major order, restarting from (0, 0) on every level of recursion.
 */
module Search {
  import opened Board

  datatype Option<T> = None | Some(value: T)

  /**
   * The outcome of setQueens(k) on board g: the range guard, the base case
   * k == 0, and otherwise the scan from (0, 0).  It is stated for boards,
   * the only grids an object's array can hold ('Q' and 'o' cells only).
   */
  ghost function Solve(g: Grid, k: int): (r: Option<Grid>)
    requires IsBoard(g)
    ensures r.Some? ==> IsBoard(r.value)
    decreases k, N + 1, 0
  {
    if k < 0 || k > N then None
    else if k == 0 then Some(g)
    else Scan(g, k, 0, 0)
  }

  /**
   * The rest of setQueens' scan from cell (i, j) on: the first safe cell whose
   * tentative queen leads to a successful recursive call decides the result.
   */
  ghost function Scan(g: Grid, k: int, i: int, j: int): (r: Option<Grid>)
    requires IsBoard(g) && 1 <= k <= N && 0 <= i <= N && 0 <= j <= N
    ensures r.Some? ==> IsBoard(r.value)
    decreases k, N - i, N - j
  {
    if i == N then None
    else if j == N then Scan(g, k, i + 1, 0)
    else if Safe(g, i, j) && Solve(Place(g, i, j), k - 1).Some? then Solve(Place(g, i, j), k - 1)
    else Scan(g, k, i, j + 1)
  }

  /**
   * Soundness: a successful search adds exactly k queens, keeps every queen
   * that was there, changes no other cell, and every added queen is attacked
   * by no queen of the final board.
   */
  lemma {:induction false} SolveSound(g: Grid, k: int)
    requires IsBoard(g) && Solve(g, k).Some?
    ensures Completes(g, Solve(g, k).value, k)
    decreases k, N + 1, 0
  {
    if k == 0 {
      CompletesSelf(g);
    } else {
      ScanSound(g, k, 0, 0);
    }
  }

  lemma {:induction false} ScanSound(g: Grid, k: int, i: int, j: int)
    requires IsBoard(g) && 1 <= k <= N && 0 <= i <= N && 0 <= j <= N
    requires Scan(g, k, i, j).Some?
    ensures Completes(g, Scan(g, k, i, j).value, k)
    decreases k, N - i, N - j
  {
    if j == N {
      ScanSound(g, k, i + 1, 0);
    } else if Safe(g, i, j) && Solve(Place(g, i, j), k - 1).Some? {
      SolveSound(Place(g, i, j), k - 1);
      CompletesStep(g, i, j, Solve(Place(g, i, j), k - 1).value, k);
    } else {
      ScanSound(g, k, i, j + 1);
    }
  }

  /**
   * The scan from (i, j) succeeds whenever some cell (r, c) not before (i, j)
   * in row-major order is safe and its tentative queen leads to success.
   */
  lemma {:induction false} ScanFinds(g: Grid, k: int, i: int, j: int, r: int, c: int)
    requires IsBoard(g) && 1 <= k <= N && 0 <= i <= N && 0 <= j <= N && InRange(r, c)
    requires i < r || (i == r && j <= c)
    requires Safe(g, r, c) && Solve(Place(g, r, c), k - 1).Some?
    ensures Scan(g, k, i, j).Some?
    decreases N - i, N - j
  {
    if j == N {
      ScanFinds(g, k, i + 1, 0, r, c);
    } else if (i, j) != (r, c) && !(Safe(g, i, j) && Solve(Place(g, i, j), k - 1).Some?) {
      ScanFinds(g, k, i, j + 1, r, c);
    }
  }

  /**
   * Completeness: if the board can be given k more queens, each attacked by
   * no queen of the result, the search finds some such placement.
   */
  lemma {:induction false} SolveComplete(g: Grid, h: Grid, k: int)
    requires IsBoard(g) && 0 <= k <= N && Completes(g, h, k)
    ensures Solve(g, k).Some?
    decreases k
  {
    if k > 0 {
      var r, c := PickNewQueen(g, h, k);
      SolveComplete(Place(g, r, c), h, k - 1);
      ScanFinds(g, k, 0, 0, r, c);
    }
  }

  /**
   * The search succeeds exactly when the request is in range and a
   * completion with that many added queens exists.
   */
  lemma SolveSucceedsIff(g: Grid, k: int)
    requires IsBoard(g)
    ensures Solve(g, k).Some? <==> 0 <= k <= N && exists h :: Completes(g, h, k)
  {
    if Solve(g, k).Some? {
      SolveSound(g, k);
    }
    if 0 <= k <= N && exists h :: Completes(g, h, k) {
      var h :| Completes(g, h, k);
      SolveComplete(g, h, k);
    }
  }

  /**
   * Every queen placed by the search was safe when it was placed, so a board
   * that starts non-attacking ends non-attacking.
   */
  lemma SolveKeepsNonAttacking(g: Grid, k: int)
    requires IsBoard(g) && NonAttacking(g) && Solve(g, k).Some?
    ensures var h := Solve(g, k).value; IsBoard(h) && NonAttacking(h)
  {
    SolveSound(g, k);
    CompletesKeepsNonAttacking(g, Solve(g, k).value, k);
  }
}
