/**
 * The regular 21 x 21 board of board2.js: eight fixed unit deltas, the
 * direction classifier that inverts them, and the cost of one step
 * (diagonals dearer, wind halving or doubling).
 */
module SquareGrid {
  import opened Compass

  const NumRows: int := 21
  const NumCols: int := 21

  predicate OnBoard(c: Cell) {
    0 <= c.row < NumRows && 0 <= c.col < NumCols
  }

  /** The `dirs` table of getAdjacent; its order is also windOrder. */
  function Delta(d: Dir): (int, int) {
    match d
    case N => (-1, 0)
    case NE => (-1, 1)
    case E => (0, 1)
    case SE => (1, 1)
    case S => (1, 0)
    case SW => (1, -1)
    case W => (0, -1)
    case NW => (-1, -1)
  }

  function Step(c: Cell, d: Dir): Cell {
    Cell(c.row + Delta(d).0, c.col + Delta(d).1)
  }

  /** The loop of getAdjacent after its first `k` turns, one per delta of `dirs`. */
  function AdjacentUpTo(c: Cell, k: nat): (r: seq<Cell>)
    requires k <= |WindOrder|
    ensures |r| <= k
  {
    if k == 0 then []
    else
      var d := WindOrder[k - 1];
      AdjacentUpTo(c, k - 1) + (if OnBoard(Step(c, d)) then [Step(c, d)] else [])
  }

  /** The loop keeps exactly the on-board targets of the deltas it has visited. */
  lemma {:induction false} AdjacentUpToMembers(c: Cell, k: nat, x: Cell)
    requires k <= |WindOrder|
    ensures x in AdjacentUpTo(c, k) <==> OnBoard(x) && exists j :: 0 <= j < k && x == Step(c, WindOrder[j])
  {
    if k > 0 {
      AdjacentUpToMembers(c, k - 1, x);
    }
  }

  /** getAdjacent: the neighbours along the eight deltas that stay on the board. */
  function Adjacent(c: Cell): seq<Cell> {
    AdjacentUpTo(c, |WindOrder|)
  }

  /** getAdjacent as written: a loop over `dirs` pushing the in-bounds targets. */
  method GetAdjacent(row: int, col: int) returns (adj: seq<Cell>)
    ensures adj == Adjacent(Cell(row, col))
  {
    adj := [];
    for i := 0 to |WindOrder|
      invariant adj == AdjacentUpTo(Cell(row, col), i)
    {
      var (dr, dc) := Delta(WindOrder[i]);
      var nr, nc := row + dr, col + dc;
      if nr >= 0 && nr < NumRows && nc >= 0 && nc < NumCols {
        adj := adj + [Cell(nr, nc)];
      }
    }
  }

  /** A cell is adjacent exactly when it is on the board and one unit delta away. */
  lemma AdjacentExactly(c: Cell, x: Cell)
    ensures x in Adjacent(c) <==> OnBoard(x) && exists d :: x == Step(c, d)
  {
    AdjacentUpToMembers(c, |WindOrder|, x);
    if exists d :: x == Step(c, d) {
      var d :| x == Step(c, d);
      assert WindOrder[Index(d)] == d;
    }
  }

  lemma DeltaInjective(d: Dir, e: Dir)
    ensures Delta(d) == Delta(e) <==> d == e
  {
  }

  /** windOrder lists each direction once: the position of its `j`-th entry is `j`. */
  lemma IndexOfEntry(j: nat)
    requires j < |WindOrder|
    ensures Index(WindOrder[j]) == j
  {
  }

  /** The delta visited on turn `k` leads to a cell none of the earlier turns reached. */
  lemma FreshNeighbour(c: Cell, k: nat)
    requires 0 < k <= |WindOrder|
    ensures Step(c, WindOrder[k - 1]) !in AdjacentUpTo(c, k - 1)
  {
    var d := WindOrder[k - 1];
    AdjacentUpToMembers(c, k - 1, Step(c, d));
    forall j | 0 <= j < k - 1
      ensures Step(c, d) != Step(c, WindOrder[j])
    {
      IndexOfEntry(j);
      IndexOfEntry(k - 1);
      DeltaInjective(d, WindOrder[j]);
    }
  }

  /** Appending at most one new element keeps a sequence free of repetitions. */
  lemma AppendDistinct<T>(s: seq<T>, t: seq<T>)
    requires Distinct(s) && |t| <= 1
    requires forall x :: x in t ==> x !in s
    ensures Distinct(s + t)
  {
    var r := s + t;
    forall i, j | 0 <= i < j < |r| ensures r[i] != r[j] {
      if j < |s| {
        assert r[i] == s[i] && r[j] == s[j];
      } else {
        assert i < |s| && j == |s|;
        assert r[j] == t[0] && t[0] in t;
        assert r[i] == s[i] && s[i] in s;
      }
    }
  }

  /** The first `k` deltas are different, so they give neighbours without repetition. */
  lemma {:induction false} AdjacentUpToDistinct(c: Cell, k: nat)
    requires k <= |WindOrder|
    ensures Distinct(AdjacentUpTo(c, k))
  {
    if k > 0 {
      var d := WindOrder[k - 1];
      AdjacentUpToDistinct(c, k - 1);
      FreshNeighbour(c, k);
      AppendDistinct(AdjacentUpTo(c, k - 1), if OnBoard(Step(c, d)) then [Step(c, d)] else []);
    }
  }

  /** getAdjacent never lists a cell twice. */
  lemma AdjacentDistinct(c: Cell)
    ensures Distinct(Adjacent(c))
  {
    AdjacentUpToDistinct(c, |WindOrder|);
  }

  /** What the loop of getAdjacent has collected at (0, 0) after `k` turns. */
  function CornerSoFar(k: nat): seq<Cell> {
    if k <= 2 then []
    else if k == 3 then [Cell(0, 1)]
    else if k == 4 then [Cell(0, 1), Cell(1, 1)]
    else [Cell(0, 1), Cell(1, 1), Cell(1, 0)]
  }

  lemma {:induction false} CornerUpTo(c: Cell, k: nat)
    requires c == Cell(0, 0) && k <= |WindOrder|
    ensures AdjacentUpTo(c, k) == CornerSoFar(k)
    ensures k >= 5 ==> AdjacentUpTo(c, k) == [Cell(0, 1), Cell(1, 1), Cell(1, 0)]
  {
    if k > 0 {
      CornerUpTo(c, k - 1);
      var d := WindOrder[k - 1];
      assert OnBoard(Step(c, d)) <==> k - 1 in {2, 3, 4};
    }
  }

  /** The corner (0, 0) keeps only the E, SE and S deltas: exactly three neighbours. */
  lemma CornerNeighbours(c: Cell)
    requires c == Cell(0, 0)
    ensures Adjacent(c) == [Cell(0, 1), Cell(1, 1), Cell(1, 0)]
  {
    CornerUpTo(c, |WindOrder|);
  }

  lemma CornerCount(c: Cell)
    requires c == Cell(0, 0)
    ensures |Adjacent(c)| == 3
  {
    CornerNeighbours(c);
  }

  /** getDirection of board2.js. */
  function Direction(from: Cell, to: Cell): Option<Dir> {
    var dr := to.row - from.row;
    var dc := to.col - from.col;
    if dr == -1 && dc == 0 then Some(N)
    else if dr == -1 && dc == 1 then Some(NE)
    else if dr == 0 && dc == 1 then Some(E)
    else if dr == 1 && dc == 1 then Some(SE)
    else if dr == 1 && dc == 0 then Some(S)
    else if dr == 1 && dc == -1 then Some(SW)
    else if dr == 0 && dc == -1 then Some(W)
    else if dr == -1 && dc == -1 then Some(NW)
    else None
  }

  /** Direction is the exact inverse of the delta table, and every other delta is unclassified. */
  lemma DirectionInvertsDelta(from: Cell, to: Cell)
    ensures forall d :: Direction(from, to) == Some(d) <==> to == Step(from, d)
    ensures Direction(from, to) == None <==> forall d :: to != Step(from, d)
  {
  }

  /** `x` is one of the cells getAdjacent returns for `c`, stated without the list. */
  predicate Touches(c: Cell, x: Cell) {
    OnBoard(x) && Direction(c, x).Some?
  }

  /** Every neighbour getAdjacent returns has a direction, and an on-board cell with a direction is a neighbour. */
  lemma AdjacentIffTouches(c: Cell, x: Cell)
    ensures x in Adjacent(c) <==> Touches(c, x)
  {
    AdjacentExactly(c, x);
    DirectionInvertsDelta(c, x);
  }

  function Abs(x: int): nat {
    if x < 0 then -x else x
  }

  /** The cost of one step before wind, in quarters of a point: 1.5 for diagonal steps, 1 otherwise. */
  function BaseCost(d: Dir): nat {
    if IsDiagonal(d) then 6 else 4
  }

  /**
   * The cost of one step in updateMovementRange of board2.js, in quarters
   * of a point: diagonal 1.5 or straight 1, halved along the wind and
   * doubled against it.
   */
  function MoveCost(wind: Wind, from: Cell, to: Cell): (q: nat)
    ensures q in {2, 3, 4, 6, 8, 12}
  {
    var moveCost := StraightOrDiagonal(from, to);
    if wind == Calm then moveCost
    else
      var dir := Direction(from, to);
      if dir == Some(wind.toward) then moveCost / 2
      else
        var oppDir := Opposite(wind.toward);
        if dir == Some(oppDir) then moveCost * 2 else moveCost
  }

  /** The price before wind: 1.5 when both coordinates change by one, 1 otherwise. */
  function StraightOrDiagonal(from: Cell, to: Cell): (q: nat)
    ensures q == 4 || q == 6
  {
    var dr := to.row - from.row;
    var dc := to.col - from.col;
    if Abs(dr) == 1 && Abs(dc) == 1 then 6 else 4
  }

  /** A unit step is priced by its direction: the diagonals are the dear ones. */
  lemma StraightOrDiagonalAlong(from: Cell, to: Cell, d: Dir)
    requires Direction(from, to) == Some(d)
    ensures StraightOrDiagonal(from, to) == BaseCost(d)
  {
  }

  /**
   * Along a step in direction `d` the price is the base price of `d`,
   * halved when the wind blows toward `d` and doubled when it blows the
   * opposite way.
   */
  lemma MoveCostAlong(wind: Wind, from: Cell, to: Cell, d: Dir)
    requires Direction(from, to) == Some(d)
    ensures MoveCost(wind, from, to) ==
      if wind == Blowing(d) then BaseCost(d) / 2
      else if wind == Blowing(Opposite(d)) then 2 * BaseCost(d)
      else BaseCost(d)
  {
    StraightOrDiagonalAlong(from, to, d);
    OppositeInvolutive(d);
    if wind.Blowing? {
      OppositeInvolutive(wind.toward);
    }
  }

  /** Choosing any direction as wind halves the step along it and doubles the step against it. */
  lemma WindSymmetry(c: Cell, d: Dir)
    ensures 2 * MoveCost(Blowing(d), c, Step(c, d)) == MoveCost(Calm, c, Step(c, d))
    ensures MoveCost(Blowing(d), c, Step(c, Opposite(d))) == 2 * MoveCost(Calm, c, Step(c, Opposite(d)))
  {
    DirectionInvertsDelta(c, Step(c, d));
    DirectionInvertsDelta(c, Step(c, Opposite(d)));
    OppositeInvolutive(d);
    MoveCostAlong(Blowing(d), c, Step(c, d), d);
    MoveCostAlong(Calm, c, Step(c, d), d);
    MoveCostAlong(Blowing(d), c, Step(c, Opposite(d)), Opposite(d));
    MoveCostAlong(Calm, c, Step(c, Opposite(d)), Opposite(d));
  }
}
