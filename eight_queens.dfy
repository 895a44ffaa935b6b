/**
 * The EightQueens class: an 8x8 array of characters changed in place, a
 * counter of placed queens, the attack check and the recursive
 * backtracking solver.  The ghost field Contents is the board as a value
 * (module Board); every method states its effect on it.
 */
module Chess {
  import opened Board
  import opened Search

  class EightQueens {
    var chessBoard: array2<char>
    /** The number of queens placed by setQueens; one counter per object. */
    var numOfQueens: int
    ghost var Contents: Grid

    /** The array is 8x8, holds only 'Q' and 'o', and Contents mirrors it cell by cell. */
    ghost predicate Valid()
      reads this, chessBoard
    {
      chessBoard.Length0 == N && chessBoard.Length1 == N && IsBoard(Contents) &&
      forall r, c :: 0 <= r < N && 0 <= c < N ==> chessBoard[r, c] == Contents[r][c]
    }

    /** A new board with every square empty. */
    constructor ()
      ensures Valid() && fresh(chessBoard)
      ensures Contents == EmptyGrid() && numOfQueens == 0
    {
      chessBoard := new char[8, 8];
      numOfQueens := 0;
      Contents := EmptyGrid();
      new;
      for i := 0 to chessBoard.Length0
        invariant fresh(chessBoard) && chessBoard.Length0 == N && chessBoard.Length1 == N
        invariant Contents == EmptyGrid() && numOfQueens == 0
        invariant forall r, c :: 0 <= r < i && 0 <= c < N ==> chessBoard[r, c] == EMPTY
      {
        // fill row i with empty squares
        for j := 0 to chessBoard.Length1
          invariant fresh(chessBoard) && chessBoard.Length0 == N && chessBoard.Length1 == N
          invariant Contents == EmptyGrid() && numOfQueens == 0
          invariant forall r, c :: 0 <= r < i && 0 <= c < N ==> chessBoard[r, c] == EMPTY
          invariant forall c :: 0 <= c < j ==> chessBoard[i, c] == EMPTY
        {
          chessBoard[i, j] := EMPTY;
        }
      }
    }

    /**
     * Object.clone's field-by-field copy: the new object shares the other's
     * array and counter value.
     */
    constructor ShallowCopy(other: EightQueens)
      requires other.Valid()
      ensures chessBoard == other.chessBoard && numOfQueens == other.numOfQueens
      ensures Contents == other.Contents && Valid()
    {
      chessBoard := other.chessBoard;
      numOfQueens := other.numOfQueens;
      Contents := other.Contents;
    }

    /** Puts a queen on (row, column); no other cell changes. */
    method SetQueen(row: int, column: int)
      requires Valid() && InRange(row, column)
      modifies this`Contents, chessBoard
      ensures Valid() && Contents == Place(old(Contents), row, column)
      ensures chessBoard[row, column] == QUEEN
      ensures forall r, c :: InRange(r, c) && (r, c) != (row, column) ==> chessBoard[r, c] == old(chessBoard[r, c])
    {
      chessBoard[row, column] := QUEEN;
      Contents := Place(Contents, row, column);
    }

    /** Makes (row, column) an empty square; no other cell changes. */
    method EmptySquare(row: int, column: int)
      requires Valid() && InRange(row, column)
      modifies this`Contents, chessBoard
      ensures Valid() && Contents == Clear(old(Contents), row, column)
      ensures chessBoard[row, column] == EMPTY
      ensures forall r, c :: InRange(r, c) && (r, c) != (row, column) ==> chessBoard[r, c] == old(chessBoard[r, c])
    {
      chessBoard[row, column] := EMPTY;
      Contents := Clear(Contents, row, column);
    }

    /**
     * A deep copy: a new object with the same cells in a newly allocated
     * array, so later changes to either board leave the other unchanged.
     */
    method Clone() returns (copy: EightQueens)
      requires Valid()
      ensures fresh(copy) && fresh(copy.chessBoard)
      ensures copy.Valid() && copy.Contents == Contents && copy.numOfQueens == numOfQueens
    {
      copy := new EightQueens.ShallowCopy(this);
      var originalBoard := chessBoard;
      var copyBoard := new char[8, 8];
      for i := 0 to originalBoard.Length0
        invariant copy.chessBoard == chessBoard && copy.numOfQueens == numOfQueens && copy.Contents == Contents
        invariant forall r, c :: 0 <= r < i && 0 <= c < N ==> copyBoard[r, c] == originalBoard[r, c]
      {
        for j := 0 to originalBoard.Length1
          invariant copy.chessBoard == chessBoard && copy.numOfQueens == numOfQueens && copy.Contents == Contents
          invariant forall r, c :: 0 <= r < i && 0 <= c < N ==> copyBoard[r, c] == originalBoard[r, c]
          invariant forall c :: 0 <= c < j ==> copyBoard[i, c] == originalBoard[i, c]
        {
          copyBoard[i, j] := originalBoard[i, j];
        }
      }
      copy.chessBoard := copyBoard;
    }

    /**
     * Whether a queen on (row, column) would be attacked: the row, the
     * column and both diagonals through the cell are scanned for a queen.
     */
    method IsValid(row: int, column: int) returns (valid: bool)
      requires Valid() && InRange(row, column)
      ensures valid == Safe(Contents, row, column)
      ensures valid ==> Contents[row][column] == EMPTY
    {
      // the row through the cell
      for j := 0 to chessBoard.Length1
        invariant forall c :: 0 <= c < j ==> Contents[row][c] != QUEEN
      {
        if chessBoard[row, j] == QUEEN {
          return false;
        }
      }
      // the column through the cell
      for i := 0 to chessBoard.Length0
        invariant forall r :: 0 <= r < i ==> Contents[r][column] != QUEEN
      {
        if chessBoard[i, column] == QUEEN {
          return false;
        }
      }
      // the diagonal from upper left to lower right, both directions
      for i := 0 to chessBoard.Length0
        invariant forall r, c :: InRange(r, c) && r - c == row - column && row - i < r < row + i ==> Contents[r][c] != QUEEN
      {
        if row - i >= 0 && column - i >= 0 && chessBoard[row - i, column - i] == QUEEN {
          return false;
        }
        if row + i < chessBoard.Length0 && column + i < chessBoard.Length0 && chessBoard[row + i, column + i] == QUEEN {
          return false;
        }
      }
      // the diagonal from lower left to upper right, both directions
      for i := 0 to chessBoard.Length0
        invariant forall r, c :: InRange(r, c) && r + c == row + column && row - i < r < row + i ==> Contents[r][c] != QUEEN
      {
        if row - i >= 0 && column + i < chessBoard.Length0 && chessBoard[row - i, column + i] == QUEEN {
          return false;
        }
        if row + i < chessBoard.Length0 && column - i >= 0 && chessBoard[row + i, column - i] == QUEEN {
          return false;
        }
      }
      return true;
    }

    /**
     * Tries to put queensRemaining more queens on the board, scanning every
     * cell in row-major order on every call, placing a queen on each cell
     * that IsValid accepts, recursing, and removing the queen again when the
     * recursive call fails.  The outcome is the one Solve describes; on
     * failure the board is back to where it started.
     */
    method SetQueens(queensRemaining: int) returns (placed: bool)
      requires Valid()
      modifies this`Contents, this`numOfQueens, chessBoard
      decreases queensRemaining
      ensures Valid()
      ensures Solve(old(Contents), queensRemaining) == if placed then Some(Contents) else None
      ensures !placed ==> Contents == old(Contents)
      ensures numOfQueens == old(numOfQueens) + if placed then queensRemaining else 0
      ensures queensRemaining < 0 || queensRemaining > N ==> !placed
      ensures queensRemaining == 0 ==> placed && Contents == old(Contents)
    {
      if queensRemaining < 0 || queensRemaining > 8 {
        return false;
      } else if queensRemaining == 0 {
        return true;
      }
      ghost var start := Contents;
      for i := 0 to chessBoard.Length0
        invariant Valid() && Contents == start && numOfQueens == old(numOfQueens)
        invariant Solve(start, queensRemaining) == Scan(start, queensRemaining, i, 0)
      {
        for j := 0 to chessBoard.Length1
          invariant Valid() && Contents == start && numOfQueens == old(numOfQueens)
          invariant Solve(start, queensRemaining) == Scan(start, queensRemaining, i, j)
        {
          var valid := IsValid(i, j);
          if valid {
            SetQueen(i, j);
            numOfQueens := numOfQueens + 1;
            var done := SetQueens(queensRemaining - 1);
            if done {
              return true;
            } else {
              EmptySquare(i, j);
              numOfQueens := numOfQueens - 1;
              ClearUndoesPlace(start, i, j);
            }
          }
        }
      }
      return false;
    }
  }
}
