/**
 * The scenarios of the program's (commented-out) test driver, settled by
 * proof instead of by running the search: each placement request is shown
 * to succeed by exhibiting a completion and appealing to completeness.
 */
module Scenarios {
  import opened Board
  import opened Search
  import opened Chess

  type Pos = (int, int)

  /** The board with a queen on exactly the listed squares. */
  ghost function Layout(qs: seq<Pos>): (g: Grid)
    ensures IsBoard(g)
    ensures forall r, c :: InRange(r, c) ==> (g[r][c] == QUEEN <==> (r, c) in qs)
  {
    seq(N, r => seq(N, c => if (r, c) in qs then QUEEN else EMPTY))
  }

  /** The listed squares are on the board and pairwise different. */
  ghost predicate Spread(qs: seq<Pos>) {
    (forall i :: 0 <= i < |qs| ==> InRange(qs[i].0, qs[i].1)) &&
    forall i, j :: 0 <= i < j < |qs| ==> qs[i] != qs[j]
  }

  /** Every square of ps is attacked by no other square of all. */
  ghost predicate AllUnattacked(ps: seq<Pos>, all: seq<Pos>) {
    forall p, q :: p in ps && q in all && p != q ==> !SameLine(p.0, p.1, q.0, q.1)
  }

  /** The queens of a layout are its listed squares, one per entry. */
  lemma {:induction false} LayoutQueens(qs: seq<Pos>)
    requires forall i :: 0 <= i < |qs| ==> InRange(qs[i].0, qs[i].1)
    requires forall i, j :: 0 <= i < j < |qs| ==> qs[i] != qs[j]
    ensures |Queens(Layout(qs))| == |qs|
    decreases |qs|
  {
    var g := Layout(qs);
    if qs == [] {
      assert forall p :: p !in Queens(g);
      assert Queens(g) == {};
    } else {
      var init, last := qs[..|qs| - 1], qs[|qs| - 1];
      LayoutQueens(init);
      var h := Layout(init);
      assert qs == init + [last];
      forall p | p in Queens(g) ensures p in Queens(h) + {last} {
        assert p in qs;
      }
      forall p | p in Queens(h) + {last} ensures p in Queens(g) {
        assert p in qs;
      }
      assert Queens(g) == Queens(h) + {last};
      assert last !in Queens(h);
    }
  }

  lemma LayoutEmpty()
    ensures Layout([]) == EmptyGrid()
  {
    var g, e := Layout([]), EmptyGrid();
    forall r | 0 <= r < N ensures g[r] == e[r] {
      assert forall c :: 0 <= c < N ==> g[r][c] == e[r][c];
    }
  }

  lemma LayoutPlace(qs: seq<Pos>, r: int, c: int)
    requires InRange(r, c)
    ensures Place(Layout(qs), r, c) == Layout(qs + [(r, c)])
  {
    var g, h := Place(Layout(qs), r, c), Layout(qs + [(r, c)]);
    forall a | 0 <= a < N ensures g[a] == h[a] {
      assert forall b :: 0 <= b < N ==> g[a][b] == h[a][b];
    }
  }

  /**
   * If the squares ps, added to the queens qs, are each attacked by no other
   * square of the combined list, then the search asked for |ps| queens on
   * the board with queens qs succeeds.
   */
  lemma LayoutSolvable(qs: seq<Pos>, ps: seq<Pos>)
    requires Spread(qs + ps) && |ps| <= N
    requires AllUnattacked(ps, qs + ps)
    ensures Solve(Layout(qs), |ps|).Some?
  {
    var all := qs + ps;
    assert forall i :: 0 <= i < |qs| ==> qs[i] == all[i];
    LayoutQueens(qs);
    LayoutQueens(all);
    var g, h := Layout(qs), Layout(all);
    assert forall p :: p in all <==> p in qs || p in ps;
    assert Completes(g, h, |ps|);
    SolveComplete(g, h, |ps|);
  }

  /*
   * Each driver scenario below has the same parts: the squares already
   * holding queens (Given), a completion found by hand (Added), a Checks
   * lemma establishing Spread and AllUnattacked for the two lists, and a
   * Witness lemma passing them to LayoutSolvable.  The Checks lemmas work
   * through small per-index (Cells) and per-pair (Pairs) lemmas on the
   * literal lists, which keeps each proof obligation small.
   */

  /** The backtracking search puts eight non-attacking queens on the empty board. */
  lemma EmptyBoardTakesEight()
    ensures Solve(EmptyGrid(), 8).Some?
    ensures var h := Solve(EmptyGrid(), 8).value; IsBoard(h) && NonAttacking(h) && |Queens(h)| == 8
  {
    EmptyWitness();
    LayoutEmpty();
    EmptyGridHasNoQueens();
    SolveSound(EmptyGrid(), 8);
    SolveKeepsNonAttacking(EmptyGrid(), 8);
  }

  /** The queens already on the board and the 8 squares the search can add to them. */
  function EmptyGiven(): seq<Pos> { [] }
  function EmptyAdded(): seq<Pos> { [(0, 0), (1, 4), (2, 7), (3, 5), (4, 2), (5, 6), (6, 1), (7, 3)] }

  lemma EmptyWitness()
    ensures Solve(Layout(EmptyGiven()), 8).Some?
  {
    EmptyChecks();
    LayoutSolvable(EmptyGiven(), EmptyAdded());
  }

  /** The squares of EmptyGiven and EmptyAdded are on the board, distinct, and the added ones unattacked. */
  lemma EmptyChecks()
    ensures Spread(EmptyGiven() + EmptyAdded()) && AllUnattacked(EmptyAdded(), EmptyGiven() + EmptyAdded())
  {
    var all := EmptyGiven() + EmptyAdded();
    // the first ensures of EmptyCells holds for every index, so any j will do
    forall i | 0 <= i < |all| ensures InRange(all[i].0, all[i].1) {
      EmptyCells(i, i);
    }
    forall i, j | 0 <= i < j < |all| ensures all[i] != all[j] {
      EmptyCells(i, j);
    }
    forall p, q | p in EmptyAdded() && q in all && p != q ensures !SameLine(p.0, p.1, q.0, q.1) {
      EmptyPairs(p, q);
    }
  }

  /** Entry i of the combined list is on the board, and differs from entry j when i != j. */
  lemma EmptyCells(i: int, j: int)
    requires 0 <= i < 8 && 0 <= j < 8
    ensures InRange((EmptyGiven() + EmptyAdded())[i].0, (EmptyGiven() + EmptyAdded())[i].1)
    ensures i != j ==> (EmptyGiven() + EmptyAdded())[i] != (EmptyGiven() + EmptyAdded())[j]
  {
  }

  /** An added square shares no line with any other square of the combined list. */
  lemma EmptyPairs(p: Pos, q: Pos)
    requires p in EmptyAdded() && q in EmptyGiven() + EmptyAdded() && p != q
    ensures !SameLine(p.0, p.1, q.0, q.1)
  {
  }

  /** The board with queens on (0,0), (1,4), (7,7) and (6,3), placed in that order. */
  ghost function FourPreplaced(): Grid {
    Place(Place(Place(Place(EmptyGrid(), 0, 0), 1, 4), 7, 7), 6, 3)
  }

  /**
   * Four more queens can be added to FourPreplaced, but since (0,0) and
   * (7,7) already share a diagonal, the final board is not non-attacking.
   */
  lemma FourPreplacedTakesFour()
    ensures Solve(FourPreplaced(), 4).Some?
    ensures var h := Solve(FourPreplaced(), 4).value;
      IsBoard(h) && h[0][0] == QUEEN && h[7][7] == QUEEN && !NonAttacking(h)
  {
    FourPreplacedLayout();
    FourPreplacedWitness();
    SolveSound(FourPreplaced(), 4);
    FourPreplacedCorners();
    var h := Solve(FourPreplaced(), 4).value;
    assert h[0][0] == QUEEN && h[7][7] == QUEEN;
    assert SameLine(0, 0, 7, 7);
  }

  /** The opposite corners (0,0) and (7,7) both hold a queen on FourPreplaced. */
  lemma FourPreplacedCorners()
    ensures FourPreplaced()[0][0] == QUEEN && FourPreplaced()[7][7] == QUEEN
  {
    var g := Place(Place(EmptyGrid(), 0, 0), 1, 4);
    assert g[0][0] == QUEEN;
    assert Place(g, 7, 7)[0][0] == QUEEN;
  }

  lemma FourPreplacedLayout()
    ensures FourPreplaced() == Layout(FourPreplacedGiven())
  {
    var e: seq<Pos> := [];
    LayoutEmpty();
    LayoutPlace(e, 0, 0);
    assert e + [(0, 0)] == [(0, 0)];
    assert [(0, 0)] + [(1, 4)] == [(0, 0), (1, 4)];
    LayoutPlace([(0, 0)], 1, 4);
    assert [(0, 0), (1, 4)] + [(7, 7)] == [(0, 0), (1, 4), (7, 7)];
    LayoutPlace([(0, 0), (1, 4)], 7, 7);
    assert [(0, 0), (1, 4), (7, 7)] + [(6, 3)] == [(0, 0), (1, 4), (7, 7), (6, 3)];
    LayoutPlace([(0, 0), (1, 4), (7, 7)], 6, 3);
  }

  /** The queens already on the board and the 4 squares the search can add to them. */
  function FourPreplacedGiven(): seq<Pos> { [(0, 0), (1, 4), (7, 7), (6, 3)] }
  function FourPreplacedAdded(): seq<Pos> { [(2, 1), (3, 5), (4, 2), (5, 6)] }

  lemma FourPreplacedWitness()
    ensures Solve(Layout(FourPreplacedGiven()), 4).Some?
  {
    FourPreplacedChecks();
    LayoutSolvable(FourPreplacedGiven(), FourPreplacedAdded());
  }

  /** The squares of FourPreplacedGiven and FourPreplacedAdded are on the board, distinct, and the added ones unattacked. */
  lemma FourPreplacedChecks()
    ensures Spread(FourPreplacedGiven() + FourPreplacedAdded()) && AllUnattacked(FourPreplacedAdded(), FourPreplacedGiven() + FourPreplacedAdded())
  {
    var all := FourPreplacedGiven() + FourPreplacedAdded();
    // the first ensures of FourPreplacedCells holds for every index, so any j will do
    forall i | 0 <= i < |all| ensures InRange(all[i].0, all[i].1) {
      FourPreplacedCells(i, i);
    }
    forall i, j | 0 <= i < j < |all| ensures all[i] != all[j] {
      FourPreplacedCells(i, j);
    }
    forall p, q | p in FourPreplacedAdded() && q in all && p != q ensures !SameLine(p.0, p.1, q.0, q.1) {
      FourPreplacedPairs(p, q);
    }
  }

  /** Entry i of the combined list is on the board, and differs from entry j when i != j. */
  lemma FourPreplacedCells(i: int, j: int)
    requires 0 <= i < 8 && 0 <= j < 8
    ensures InRange((FourPreplacedGiven() + FourPreplacedAdded())[i].0, (FourPreplacedGiven() + FourPreplacedAdded())[i].1)
    ensures i != j ==> (FourPreplacedGiven() + FourPreplacedAdded())[i] != (FourPreplacedGiven() + FourPreplacedAdded())[j]
  {
  }

  /** An added square shares no line with any other square of the combined list. */
  lemma FourPreplacedPairs(p: Pos, q: Pos)
    requires p in FourPreplacedAdded() && q in FourPreplacedGiven() + FourPreplacedAdded() && p != q
    ensures !SameLine(p.0, p.1, q.0, q.1)
  {
  }

  /** The board with queens on (6,6), (1,5) and (4,7). */
  ghost function ThreePreplaced(): Grid {
    Place(Place(Place(EmptyGrid(), 6, 6), 1, 5), 4, 7)
  }

  lemma ThreePreplacedTakesFive()
    ensures Solve(ThreePreplaced(), 5).Some?
  {
    ThreePreplacedLayout();
    ThreePreplacedWitness();
  }

  lemma ThreePreplacedLayout()
    ensures ThreePreplaced() == Layout(ThreePreplacedGiven())
  {
    var e: seq<Pos> := [];
    LayoutEmpty();
    LayoutPlace(e, 6, 6);
    assert e + [(6, 6)] == [(6, 6)];
    assert [(6, 6)] + [(1, 5)] == [(6, 6), (1, 5)];
    LayoutPlace([(6, 6)], 1, 5);
    assert [(6, 6), (1, 5)] + [(4, 7)] == [(6, 6), (1, 5), (4, 7)];
    LayoutPlace([(6, 6), (1, 5)], 4, 7);
  }

  /** The queens already on the board and the 5 squares the search can add to them. */
  function ThreePreplacedGiven(): seq<Pos> { [(6, 6), (1, 5), (4, 7)] }
  function ThreePreplacedAdded(): seq<Pos> { [(0, 2), (2, 1), (3, 4), (5, 0), (7, 3)] }

  lemma ThreePreplacedWitness()
    ensures Solve(Layout(ThreePreplacedGiven()), 5).Some?
  {
    ThreePreplacedChecks();
    LayoutSolvable(ThreePreplacedGiven(), ThreePreplacedAdded());
  }

  /** The squares of ThreePreplacedGiven and ThreePreplacedAdded are on the board, distinct, and the added ones unattacked. */
  lemma ThreePreplacedChecks()
    ensures Spread(ThreePreplacedGiven() + ThreePreplacedAdded()) && AllUnattacked(ThreePreplacedAdded(), ThreePreplacedGiven() + ThreePreplacedAdded())
  {
    var all := ThreePreplacedGiven() + ThreePreplacedAdded();
    // the first ensures of ThreePreplacedCells holds for every index, so any j will do
    forall i | 0 <= i < |all| ensures InRange(all[i].0, all[i].1) {
      ThreePreplacedCells(i, i);
    }
    forall i, j | 0 <= i < j < |all| ensures all[i] != all[j] {
      ThreePreplacedCells(i, j);
    }
    forall p, q | p in ThreePreplacedAdded() && q in all && p != q ensures !SameLine(p.0, p.1, q.0, q.1) {
      ThreePreplacedPairs(p, q);
    }
  }

  /** Entry i of the combined list is on the board, and differs from entry j when i != j. */
  lemma ThreePreplacedCells(i: int, j: int)
    requires 0 <= i < 8 && 0 <= j < 8
    ensures InRange((ThreePreplacedGiven() + ThreePreplacedAdded())[i].0, (ThreePreplacedGiven() + ThreePreplacedAdded())[i].1)
    ensures i != j ==> (ThreePreplacedGiven() + ThreePreplacedAdded())[i] != (ThreePreplacedGiven() + ThreePreplacedAdded())[j]
  {
  }

  /** An added square shares no line with any other square of the combined list. */
  lemma ThreePreplacedPairs(p: Pos, q: Pos)
    requires p in ThreePreplacedAdded() && q in ThreePreplacedGiven() + ThreePreplacedAdded() && p != q
    ensures !SameLine(p.0, p.1, q.0, q.1)
  {
  }

  /** The board with queens on (0,6) and (4,4). */
  ghost function TwoPreplaced(): Grid {
    Place(Place(EmptyGrid(), 0, 6), 4, 4)
  }

  lemma TwoPreplacedTakesSix()
    ensures Solve(TwoPreplaced(), 6).Some?
  {
    TwoPreplacedLayout();
    TwoPreplacedWitness();
  }

  lemma TwoPreplacedLayout()
    ensures TwoPreplaced() == Layout(TwoPreplacedGiven())
  {
    var e: seq<Pos> := [];
    LayoutEmpty();
    LayoutPlace(e, 0, 6);
    assert e + [(0, 6)] == [(0, 6)];
    assert [(0, 6)] + [(4, 4)] == [(0, 6), (4, 4)];
    LayoutPlace([(0, 6)], 4, 4);
  }

  /** The queens already on the board and the 6 squares the search can add to them. */
  function TwoPreplacedGiven(): seq<Pos> { [(0, 6), (4, 4)] }
  function TwoPreplacedAdded(): seq<Pos> { [(1, 2), (2, 7), (3, 1), (5, 0), (6, 5), (7, 3)] }

  lemma TwoPreplacedWitness()
    ensures Solve(Layout(TwoPreplacedGiven()), 6).Some?
  {
    TwoPreplacedChecks();
    LayoutSolvable(TwoPreplacedGiven(), TwoPreplacedAdded());
  }

  /** The squares of TwoPreplacedGiven and TwoPreplacedAdded are on the board, distinct, and the added ones unattacked. */
  lemma TwoPreplacedChecks()
    ensures Spread(TwoPreplacedGiven() + TwoPreplacedAdded()) && AllUnattacked(TwoPreplacedAdded(), TwoPreplacedGiven() + TwoPreplacedAdded())
  {
    var all := TwoPreplacedGiven() + TwoPreplacedAdded();
    // the first ensures of TwoPreplacedCells holds for every index, so any j will do
    forall i | 0 <= i < |all| ensures InRange(all[i].0, all[i].1) {
      TwoPreplacedCells(i, i);
    }
    forall i, j | 0 <= i < j < |all| ensures all[i] != all[j] {
      TwoPreplacedCells(i, j);
    }
    forall p, q | p in TwoPreplacedAdded() && q in all && p != q ensures !SameLine(p.0, p.1, q.0, q.1) {
      TwoPreplacedPairs(p, q);
    }
  }

  /** Entry i of the combined list is on the board, and differs from entry j when i != j. */
  lemma TwoPreplacedCells(i: int, j: int)
    requires 0 <= i < 8 && 0 <= j < 8
    ensures InRange((TwoPreplacedGiven() + TwoPreplacedAdded())[i].0, (TwoPreplacedGiven() + TwoPreplacedAdded())[i].1)
    ensures i != j ==> (TwoPreplacedGiven() + TwoPreplacedAdded())[i] != (TwoPreplacedGiven() + TwoPreplacedAdded())[j]
  {
  }

  /** An added square shares no line with any other square of the combined list. */
  lemma TwoPreplacedPairs(p: Pos, q: Pos)
    requires p in TwoPreplacedAdded() && q in TwoPreplacedGiven() + TwoPreplacedAdded() && p != q
    ensures !SameLine(p.0, p.1, q.0, q.1)
  {
  }

  /** The board with a single queen on (1,2). */
  ghost function OnePreplaced(): Grid {
    Place(EmptyGrid(), 1, 2)
  }

  /** Seven more queens fit, and the result keeps (1,2) and is non-attacking. */
  lemma OnePreplacedTakesSeven()
    ensures Solve(OnePreplaced(), 7).Some?
    ensures var h := Solve(OnePreplaced(), 7).value; IsBoard(h) && h[1][2] == QUEEN && NonAttacking(h)
  {
    OnePreplacedLayout();
    OnePreplacedWitness();
    assert NonAttacking(EmptyGrid()) && Safe(EmptyGrid(), 1, 2);
    PlaceSafeKeepsNonAttacking(EmptyGrid(), 1, 2);
    SolveSound(OnePreplaced(), 7);
    SolveKeepsNonAttacking(OnePreplaced(), 7);
  }

  lemma OnePreplacedLayout()
    ensures OnePreplaced() == Layout(OnePreplacedGiven())
  {
    var e: seq<Pos> := [];
    LayoutEmpty();
    LayoutPlace(e, 1, 2);
    assert e + [(1, 2)] == [(1, 2)];
  }

  /** The queens already on the board and the 7 squares the search can add to them. */
  function OnePreplacedGiven(): seq<Pos> { [(1, 2)] }
  function OnePreplacedAdded(): seq<Pos> { [(0, 4), (2, 0), (3, 5), (4, 7), (5, 1), (6, 3), (7, 6)] }

  lemma OnePreplacedWitness()
    ensures Solve(Layout(OnePreplacedGiven()), 7).Some?
  {
    OnePreplacedChecks();
    LayoutSolvable(OnePreplacedGiven(), OnePreplacedAdded());
  }

  /** The squares of OnePreplacedGiven and OnePreplacedAdded are on the board, distinct, and the added ones unattacked. */
  lemma OnePreplacedChecks()
    ensures Spread(OnePreplacedGiven() + OnePreplacedAdded()) && AllUnattacked(OnePreplacedAdded(), OnePreplacedGiven() + OnePreplacedAdded())
  {
    var all := OnePreplacedGiven() + OnePreplacedAdded();
    // the first ensures of OnePreplacedCells holds for every index, so any j will do
    forall i | 0 <= i < |all| ensures InRange(all[i].0, all[i].1) {
      OnePreplacedCells(i, i);
    }
    forall i, j | 0 <= i < j < |all| ensures all[i] != all[j] {
      OnePreplacedCells(i, j);
    }
    forall p, q | p in OnePreplacedAdded() && q in all && p != q ensures !SameLine(p.0, p.1, q.0, q.1) {
      OnePreplacedPairs(p, q);
    }
  }

  /** Entry i of the combined list is on the board, and differs from entry j when i != j. */
  lemma OnePreplacedCells(i: int, j: int)
    requires 0 <= i < 8 && 0 <= j < 8
    ensures InRange((OnePreplacedGiven() + OnePreplacedAdded())[i].0, (OnePreplacedGiven() + OnePreplacedAdded())[i].1)
    ensures i != j ==> (OnePreplacedGiven() + OnePreplacedAdded())[i] != (OnePreplacedGiven() + OnePreplacedAdded())[j]
  {
  }

  /** An added square shares no line with any other square of the combined list. */
  lemma OnePreplacedPairs(p: Pos, q: Pos)
    requires p in OnePreplacedAdded() && q in OnePreplacedGiven() + OnePreplacedAdded() && p != q
    ensures !SameLine(p.0, p.1, q.0, q.1)
  {
  }

  /** The driver's first test: four queens set by hand, then setQueens(4). */
  method FourPreplacedTest() returns (result: bool)
    ensures result
  {
    var board := new EightQueens();
    board.SetQueen(0, 0);
    board.SetQueen(1, 4);
    board.SetQueen(7, 7);
    board.SetQueen(6, 3);
    FourPreplacedTakesFour();
    result := board.SetQueens(4);
  }

  /** The driver's second test: setQueens(9) on an empty board is refused and places nothing. */
  method OutOfRangeTest() returns (result: bool, count: int)
    ensures !result && count == 0
  {
    var board := new EightQueens();
    result := board.SetQueens(9);
    count := board.numOfQueens;
  }

  method ThreePreplacedTest() returns (result: bool)
    ensures result
  {
    var board := new EightQueens();
    board.SetQueen(6, 6);
    board.SetQueen(1, 5);
    board.SetQueen(4, 7);
    ThreePreplacedTakesFive();
    result := board.SetQueens(5);
  }

  method TwoPreplacedTest() returns (result: bool)
    ensures result
  {
    var board := new EightQueens();
    board.SetQueen(0, 6);
    board.SetQueen(4, 4);
    TwoPreplacedTakesSix();
    result := board.SetQueens(6);
  }

  method OnePreplacedTest() returns (result: bool)
    ensures result
  {
    var board := new EightQueens();
    board.SetQueen(1, 2);
    OnePreplacedTakesSeven();
    result := board.SetQueens(7);
  }

  /** The driver's full test: setQueens(8) on an empty board succeeds and counts eight queens. */
  method EmptyBoardTest() returns (result: bool, count: int)
    ensures result && count == 8
  {
    var board := new EightQueens();
    EmptyBoardTakesEight();
    result := board.SetQueens(8);
    count := board.numOfQueens;
  }

  /**
   * The driver's deep-copy test: changes to the clone (two queens added,
   * the shared queen on (7,2) removed) leave the original untouched.
   */
  method DeepCopyTest() returns (original72: char, original00: char, copy72: char, copy00: char)
    ensures original72 == QUEEN && original00 == EMPTY
    ensures copy72 == EMPTY && copy00 == QUEEN
  {
    var originalObj := new EightQueens();
    originalObj.SetQueen(7, 2);
    var clonedObj := originalObj.Clone();
    clonedObj.SetQueen(0, 0);
    clonedObj.SetQueen(7, 7);
    clonedObj.EmptySquare(7, 2);
    original72, original00 := originalObj.chessBoard[7, 2], originalObj.chessBoard[0, 0];
    copy72, copy00 := clonedObj.chessBoard[7, 2], clonedObj.chessBoard[0, 0];
  }
}
