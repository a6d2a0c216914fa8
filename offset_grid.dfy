/**
 * The hex-like offset board of board.js and board1.js: 21 rows, even rows
 * with 21 tiles and odd rows with 20, diagonal columns depending on the
 * row's parity. Both files carry the same getAdjacent; board1.js adds the
 * direction classifier and the wind cost of one step.
 */
module OffsetGrid {
  import opened Compass

  const NumRows: int := 21

  /** Last column of a row: 20 on even rows (21 tiles), 19 on odd rows (20 tiles). */
  function MaxCol(row: int): int {
    if row % 2 == 0 then 20 else 19
  }

  predicate OnBoard(c: Cell) {
    0 <= c.row < NumRows && 0 <= c.col <= MaxCol(c.row)
  }

  /** The cell getAdjacent pushes for direction d, before the bound filter. */
  function Step(row: int, col: int, d: Dir): Cell {
    var even := row % 2 == 0;
    match d
    case N => Cell(row - 1, col)
    case S => Cell(row + 1, col)
    case W => Cell(row, col - 1)
    case E => Cell(row, col + 1)
    case NW => Cell(row - 1, if even then col - 1 else col)
    case NE => Cell(row - 1, if even then col else col + 1)
    case SW => Cell(row + 1, if even then col - 1 else col)
    case SE => Cell(row + 1, if even then col else col + 1)
  }

  /** The condition in front of each push. */
  predicate Guard(row: int, col: int, d: Dir) {
    var even := row % 2 == 0;
    match d
    case N => row > 0
    case NW => row > 0
    case NE => row > 0
    case S => row < NumRows - 1
    case SW => row < NumRows - 1
    case SE => row < NumRows - 1
    case W => col > 0
    case E => (even && col < 20) || (!even && col < 19)
  }

  /** The order in which getAdjacent pushes its candidates. */
  const PushOrder: seq<Dir> := [N, S, W, E, NW, NE, SW, SE]

  lemma PushOrderComplete()
    ensures forall d :: d in PushOrder
  {
    forall d ensures d in PushOrder {
      match d
      case N => assert PushOrder[0] == d;
      case S => assert PushOrder[1] == d;
      case W => assert PushOrder[2] == d;
      case E => assert PushOrder[3] == d;
      case NW => assert PushOrder[4] == d;
      case NE => assert PushOrder[5] == d;
      case SW => assert PushOrder[6] == d;
      case SE => assert PushOrder[7] == d;
    }
  }

  /** The candidate list getAdjacent builds for the directions in `order`. */
  function Pushes(row: int, col: int, order: seq<Dir>): (r: seq<Cell>)
    ensures |r| <= |order|
    ensures forall x :: x in r <==> exists d :: d in order && Guard(row, col, d) && x == Step(row, col, d)
  {
    if order == [] then []
    else
      var rest := Pushes(row, col, order[1..]);
      (if Guard(row, col, order[0]) then [Step(row, col, order[0])] else []) + rest
  }

  /** The `filter` at the end of getAdjacent: keeps the cells that are on the board, in order. */
  function KeepOnBoard(s: seq<Cell>): (r: seq<Cell>)
    ensures forall x :: x in r <==> x in s && OnBoard(x)
    ensures |r| <= |s|
  {
    if s == [] then []
    else (if OnBoard(s[0]) then [s[0]] else []) + KeepOnBoard(s[1..])
  }

  /** getAdjacent: the guarded candidates that lie on the board (duplicates kept). */
  function Adjacent(row: int, col: int): (r: seq<Cell>)
    ensures |r| <= 8
    ensures forall x :: x in r ==> OnBoard(x)
  {
    KeepOnBoard(Pushes(row, col, PushOrder))
  }

  /** A cell is adjacent exactly when it is on the board and some guarded push yields it. */
  lemma AdjacentExactly(row: int, col: int, x: Cell)
    ensures x in Adjacent(row, col) <==> OnBoard(x) && exists d :: Guard(row, col, d) && x == Step(row, col, d)
  {
    PushOrderComplete();
  }

  /**
   * Row parity makes two pushes coincide on either side: on an even row
   * N and NE are the same cell, as are S and SE; on an odd row N and NW,
   * and S and SW.
   */
  lemma ParityDuplicates(row: int, col: int)
    ensures row % 2 == 0 ==> Step(row, col, N) == Step(row, col, NE) && Step(row, col, S) == Step(row, col, SE)
    ensures row % 2 != 0 ==> Step(row, col, N) == Step(row, col, NW) && Step(row, col, S) == Step(row, col, SW)
  {
  }

  /** The six different cells the eight pushes can yield, the two coinciding pairs counted once. */
  function SixCells(row: int, col: int): set<Cell> {
    var even := row % 2 == 0;
    {Step(row, col, N), Step(row, col, S), Step(row, col, W), Step(row, col, E),
     Step(row, col, if even then NW else NE), Step(row, col, if even then SW else SE)}
  }

  lemma StepInSix(row: int, col: int, d: Dir)
    ensures Step(row, col, d) in SixCells(row, col)
  {
    ParityDuplicates(row, col);
  }

  /** Because of the coincidences above, at most six distinct tiles are adjacent. */
  lemma AtMostSixNeighbours(row: int, col: int)
    ensures |set x | x in Adjacent(row, col)| <= 6
  {
    var adj := set x | x in Adjacent(row, col);
    var six := SixCells(row, col);
    forall x | x in adj ensures x in six {
      AdjacentExactly(row, col, x);
      var d :| Guard(row, col, d) && x == Step(row, col, d);
      StepInSix(row, col, d);
    }
    SubsetCard(adj, six);
    CardAtMostSix(six);
  }

  lemma SubsetCard<T>(a: set<T>, b: set<T>)
    requires a <= b
    ensures |a| <= |b|
  {
    assert b == a + (b - a);
  }

  lemma CardAtMostSix<T>(s: set<T>)
    requires exists a, b, c, d, e, f :: s == {a, b, c, d, e, f}
    ensures |s| <= 6
  {
    var a, b, c, d, e, f :| s == {a, b, c, d, e, f};
    assert s == {a} + {b} + {c} + {d} + {e} + {f};
  }

  /** getDirection of board1.js: straight deltas first, then the parity-dependent diagonals. */
  function Direction(from: Cell, to: Cell): Option<Dir> {
    var dr := to.row - from.row;
    var dc := to.col - from.col;
    var even := from.row % 2 == 0;
    if dr == -1 && dc == 0 then Some(N)
    else if dr == 1 && dc == 0 then Some(S)
    else if dc == 1 && dr == 0 then Some(E)
    else if dc == -1 && dr == 0 then Some(W)
    else if dr == -1 && ((even && dc == 0) || (!even && dc == 1)) then Some(NE)
    else if dr == -1 && ((even && dc == -1) || (!even && dc == 0)) then Some(NW)
    else if dr == 1 && ((even && dc == 0) || (!even && dc == 1)) then Some(SE)
    else if dr == 1 && ((even && dc == -1) || (!even && dc == 0)) then Some(SW)
    else None
  }

  /**
   * The label a push for `d` gets back from Direction: the straight label
   * wherever the diagonal coincides with it.
   */
  function Canonical(row: int, d: Dir): Dir {
    var even := row % 2 == 0;
    if even && d == NE then N
    else if even && d == SE then S
    else if !even && d == NW then N
    else if !even && d == SW then S
    else d
  }

  /** Direction inverts Step: it names a direction whose step lands on the target, and only such. */
  lemma DirectionInvertsStep(from: Cell, to: Cell)
    ensures forall d :: Direction(from, to) == Some(d) ==> to == Step(from.row, from.col, d)
    ensures forall d :: to == Step(from.row, from.col, d) ==> Direction(from, to) == Some(Canonical(from.row, d))
  {
  }

  /**
   * Every neighbour is classified; an even row never yields '↗'/'↘' and an
   * odd row never '↖'/'↙', since the straight deltas are checked first.
   */
  lemma NeighbourDirection(row: int, col: int, x: Cell)
    requires x in Adjacent(row, col)
    ensures Direction(Cell(row, col), x).Some?
    ensures row % 2 == 0 ==> Direction(Cell(row, col), x).value !in {NE, SE}
    ensures row % 2 != 0 ==> Direction(Cell(row, col), x).value !in {NW, SW}
  {
    AdjacentExactly(row, col, x);
    var d :| Guard(row, col, d) && x == Step(row, col, d);
    DirectionInvertsStep(Cell(row, col), x);
  }

  /** `x` is one of the cells getAdjacent returns for `p`, stated without the list. */
  predicate Touches(p: Cell, x: Cell) {
    OnBoard(x) && Direction(p, x).Some?
  }

  /** Every guard of getAdjacent is implied by its target being on the board, so membership is Touches. */
  lemma AdjacentIffTouches(p: Cell, x: Cell)
    ensures x in Adjacent(p.row, p.col) <==> Touches(p, x)
  {
    AdjacentExactly(p.row, p.col, x);
    DirectionInvertsStep(p, x);
    if Touches(p, x) {
      var d := Direction(p, x).value;
      assert x == Step(p.row, p.col, d) && Guard(p.row, p.col, d);
    }
  }

  /**
   * The wind-modified cost of one step in showMovementRange of board1.js,
   * in quarters of a movement point (1 point is 4): only the four
   * cardinal winds are priced.
   */
  function StepCost(wind: Wind, from: Cell, to: Cell): (q: nat)
    ensures q == 2 || q == 4 || q == 8
  {
    if wind == Calm then 4
    else
      var dir := Direction(from, to);
      match wind.toward
      case W => if dir == Some(W) then 2 else if dir == Some(E) then 8 else 4
      case E => if dir == Some(E) then 2 else if dir == Some(W) then 8 else 4
      case N => if dir == Some(N) then 2 else if dir == Some(S) then 8 else 4
      case S => if dir == Some(S) then 2 else if dir == Some(N) then 8 else 4
      case _ => 4
  }

  /**
   * A step costs one point unless a cardinal wind blows: then half a point
   * along the wind and two points against it, and those are the only
   * steps whose price changes.
   */
  lemma StepCostByWind(wind: Wind, from: Cell, to: Cell)
    ensures wind == Calm ==> StepCost(wind, from, to) == 4
    ensures wind.Blowing? && !IsDiagonal(wind.toward) && Direction(from, to) == Some(wind.toward) ==> StepCost(wind, from, to) == 2
    ensures wind.Blowing? && !IsDiagonal(wind.toward) && Direction(from, to) == Some(Opposite(wind.toward)) ==> StepCost(wind, from, to) == 8
    ensures StepCost(wind, from, to) != 4 ==> wind.Blowing? && !IsDiagonal(wind.toward) && Direction(from, to).Some?
    ensures StepCost(wind, from, to) != 4 ==>
      Direction(from, to).value == (if StepCost(wind, from, to) == 2 then wind.toward else Opposite(wind.toward))
  {
  }
}
