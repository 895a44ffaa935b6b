/**
 * The chess board of the eight-queens program as a value: N rows of N
 * character cells, 'Q' for a queen and 'o' for an empty square.  The class
 * in module Chess keeps such a value as the abstract contents of its array.
 */
module Board {
  /** The board dimension, fixed at 8 by the program. */
  const N: int := 8
  const QUEEN: char := 'Q'
  const EMPTY: char := 'o'

  type Grid = seq<seq<char>>

  predicate InRange(r: int, c: int) {
    0 <= r < N && 0 <= c < N
  }

  /** g has N rows of N cells each. */
  ghost predicate IsGrid(g: Grid) {
    |g| == N && forall r :: 0 <= r < N ==> |g[r]| == N
  }

  /** A grid whose every cell holds one of the two markers. */
  ghost predicate IsBoard(g: Grid) {
    IsGrid(g) && forall r, c :: InRange(r, c) ==> g[r][c] == QUEEN || g[r][c] == EMPTY
  }

  /** The board a fresh object starts with. */
  ghost function EmptyGrid(): (g: Grid)
    ensures IsBoard(g)
    ensures forall r, c :: InRange(r, c) ==> g[r][c] == EMPTY
  {
    seq(N, r => seq(N, c => EMPTY))
  }

  /** g with a queen put on (r, c). */
  ghost function Place(g: Grid, r: int, c: int): (h: Grid)
    requires IsGrid(g) && InRange(r, c)
    ensures IsGrid(h) && h[r][c] == QUEEN
    ensures forall a, b :: InRange(a, b) && (a, b) != (r, c) ==> h[a][b] == g[a][b]
    ensures IsBoard(g) ==> IsBoard(h)
  {
    g[r := g[r][c := QUEEN]]
  }

  /** g with (r, c) made an empty square. */
  ghost function Clear(g: Grid, r: int, c: int): (h: Grid)
    requires IsGrid(g) && InRange(r, c)
    ensures IsGrid(h) && h[r][c] == EMPTY
    ensures forall a, b :: InRange(a, b) && (a, b) != (r, c) ==> h[a][b] == g[a][b]
    ensures IsBoard(g) ==> IsBoard(h)
  {
    g[r := g[r][c := EMPTY]]
  }

  /** (a, b) and (r, c) share a row, a column or one of the two diagonals. */
  predicate SameLine(a: int, b: int, r: int, c: int) {
    a == r || b == c || a - b == r - c || a + b == r + c
  }

  /**
   * No queen on g shares a line with (r, c).  The cell (r, c) lies on its
   * own lines, so a cell that holds a queen is never safe.
   */
  ghost predicate Safe(g: Grid, r: int, c: int)
    requires IsGrid(g)
  {
    forall a, b :: InRange(a, b) && SameLine(a, b, r, c) ==> g[a][b] != QUEEN
  }

  /** No two queens on g attack each other. */
  ghost predicate NonAttacking(g: Grid)
    requires IsGrid(g)
  {
    forall a, b, c, d ::
      InRange(a, b) && InRange(c, d) && (a, b) != (c, d) && g[a][b] == QUEEN && g[c][d] == QUEEN
      ==> !SameLine(a, b, c, d)
  }

  /** The positions of the queens on g. */
  ghost function Queens(g: Grid): (qs: set<(int, int)>)
    requires IsGrid(g)
  {
    set a, b | 0 <= a < N && 0 <= b < N && g[a][b] == QUEEN :: (a, b)
  }

  /** h is g with some empty squares turned into queens, and nothing else changed. */
  ghost predicate Extends(g: Grid, h: Grid)
    requires IsGrid(g) && IsGrid(h)
  {
    forall a, b :: InRange(a, b) ==> h[a][b] == g[a][b] || (g[a][b] != QUEEN && h[a][b] == QUEEN)
  }

  /** Every queen of h that g lacks is attacked by no other queen of h. */
  ghost predicate NewQueensSafe(g: Grid, h: Grid)
    requires IsGrid(g) && IsGrid(h)
  {
    forall a, b, c, d ::
      InRange(a, b) && InRange(c, d) && (a, b) != (c, d) &&
      g[a][b] != QUEEN && h[a][b] == QUEEN && h[c][d] == QUEEN
      ==> !SameLine(a, b, c, d)
  }

  /**
   * h is a way of putting k more queens on g such that each added queen is
   * attacked by no queen of h: exactly what a successful search produces.
   */
  ghost predicate Completes(g: Grid, h: Grid, k: int)
    requires IsGrid(g)
  {
    IsBoard(h) && Extends(g, h) && |Queens(h)| == |Queens(g)| + k && NewQueensSafe(g, h)
  }

  /** An empty board holds no queen. */
  lemma EmptyGridHasNoQueens()
    ensures Queens(EmptyGrid()) == {}
  {
    var g := EmptyGrid();
    assert forall p :: p !in Queens(g);
  }

  /** Putting a queen on a square that has none adds exactly that queen. */
  lemma PlaceAddsQueen(g: Grid, r: int, c: int)
    requires IsGrid(g) && InRange(r, c) && g[r][c] != QUEEN
    ensures Queens(Place(g, r, c)) == Queens(g) + {(r, c)}
    ensures |Queens(Place(g, r, c))| == |Queens(g)| + 1
  {
    var h := Place(g, r, c);
    forall p | p in Queens(h) ensures p in Queens(g) + {(r, c)} {
      if p != (r, c) {
        assert g[p.0][p.1] == QUEEN;
      }
    }
    assert (r, c) in Queens(h);
    forall p | p in Queens(g) ensures p in Queens(h) {
      assert h[p.0][p.1] == QUEEN;
    }
    assert Queens(h) == Queens(g) + {(r, c)};
    assert (r, c) !in Queens(g);
  }

  /**
   * Emptying a square that was empty before a queen was put on it gives
   * back the original board: the undo step of the backtracking search.
   */
  lemma ClearUndoesPlace(g: Grid, r: int, c: int)
    requires IsGrid(g) && InRange(r, c) && g[r][c] == EMPTY
    ensures Clear(Place(g, r, c), r, c) == g
  {
    var h := Clear(Place(g, r, c), r, c);
    forall a | 0 <= a < N ensures h[a] == g[a] {
      assert forall b :: 0 <= b < N ==> h[a][b] == g[a][b];
    }
  }

  /** Adding a safe queen to a non-attacking board keeps it non-attacking. */
  lemma PlaceSafeKeepsNonAttacking(g: Grid, r: int, c: int)
    requires IsGrid(g) && InRange(r, c) && Safe(g, r, c) && NonAttacking(g)
    ensures NonAttacking(Place(g, r, c))
  {
    var h := Place(g, r, c);
    forall a, b, x, y |
      InRange(a, b) && InRange(x, y) && (a, b) != (x, y) && h[a][b] == QUEEN && h[x][y] == QUEEN
      ensures !SameLine(a, b, x, y)
    {
      if (a, b) == (r, c) {
        assert g[x][y] == QUEEN;
      } else if (x, y) == (r, c) {
        assert g[a][b] == QUEEN;
      } else {
        assert g[a][b] == QUEEN && g[x][y] == QUEEN;
      }
    }
  }

  /** A board whose added queens are each safe keeps a non-attacking start non-attacking. */
  lemma CompletesKeepsNonAttacking(g: Grid, h: Grid, k: int)
    requires IsGrid(g) && Completes(g, h, k) && NonAttacking(g)
    ensures NonAttacking(h)
  {
    forall a, b, x, y |
      InRange(a, b) && InRange(x, y) && (a, b) != (x, y) && h[a][b] == QUEEN && h[x][y] == QUEEN
      ensures !SameLine(a, b, x, y)
    {
      if g[a][b] != QUEEN {
        assert h[a][b] == QUEEN;
      } else if g[x][y] != QUEEN {
        assert !SameLine(x, y, a, b);
      } else {
        assert g[a][b] == QUEEN && g[x][y] == QUEEN;
      }
    }
  }

  /** Every board completes itself with no added queen. */
  lemma CompletesSelf(g: Grid)
    requires IsBoard(g)
    ensures Completes(g, g, 0)
  {
  }

  /**
   * One step of the search, read forwards: if a safe queen is put on (r, c)
   * and the result is completed by h with k - 1 more queens, then h
   * completes the original board with k more queens.
   */
  lemma CompletesStep(g: Grid, r: int, c: int, h: Grid, k: int)
    requires IsBoard(g) && InRange(r, c) && Safe(g, r, c)
    requires Completes(Place(g, r, c), h, k - 1)
    ensures Completes(g, h, k)
  {
    var p := Place(g, r, c);
    assert g[r][c] != QUEEN;
    PlaceAddsQueen(g, r, c);
    forall a, b | InRange(a, b) ensures h[a][b] == g[a][b] || (g[a][b] != QUEEN && h[a][b] == QUEEN) {
      if (a, b) != (r, c) {
        assert p[a][b] == g[a][b];
      }
    }
    forall a, b, x, y |
      InRange(a, b) && InRange(x, y) && (a, b) != (x, y) &&
      g[a][b] != QUEEN && h[a][b] == QUEEN && h[x][y] == QUEEN
      ensures !SameLine(a, b, x, y)
    {
      if (a, b) == (r, c) {
        if g[x][y] != QUEEN {
          assert p[x][y] != QUEEN;
          assert !SameLine(x, y, a, b);
        }
      } else {
        assert p[a][b] != QUEEN;
      }
    }
  }

  /**
   * One step of the search, read backwards: a completion with k >= 1 added
   * queens has an added queen (r, c) that is safe on g, and what is left is
   * a completion of g with that queen on it.
   */
  lemma PickNewQueen(g: Grid, h: Grid, k: int) returns (r: int, c: int)
    requires IsBoard(g) && k >= 1 && Completes(g, h, k)
    ensures InRange(r, c) && g[r][c] == EMPTY && h[r][c] == QUEEN
    ensures Safe(g, r, c) && Completes(Place(g, r, c), h, k - 1)
  {
    var qg, qh := Queens(g), Queens(h);
    assert qg <= qh by {
      forall p | p in qg ensures p in qh {
        assert h[p.0][p.1] == QUEEN;
      }
    }
    assert |qh| > |qg|;
    assert qh != qg;
    var q :| q in qh && q !in qg;
    r, c := q.0, q.1;
    assert g[r][c] != QUEEN;
    assert Safe(g, r, c);
    PlaceAddsQueen(g, r, c);
    var p := Place(g, r, c);
    forall a, b | InRange(a, b) ensures h[a][b] == p[a][b] || (p[a][b] != QUEEN && h[a][b] == QUEEN) {
      if (a, b) != (r, c) {
        assert p[a][b] == g[a][b];
      }
    }
    forall a, b, x, y |
      InRange(a, b) && InRange(x, y) && (a, b) != (x, y) &&
      p[a][b] != QUEEN && h[a][b] == QUEEN && h[x][y] == QUEEN
      ensures !SameLine(a, b, x, y)
    {
      assert g[a][b] != QUEEN;
    }
  }
}
