/**
 * board1.js: the offset board with a movable ship and wind. Its search is
 * a FIFO queue with a `visited` flag set when a cell is queued; a step
 * costs half a point along the wind, two points against it and one point
 * otherwise. Because a cell is never queued again, the first price found
 * sticks, whether or not it is the cheapest: the model proves what the
 * search does guarantee, not least costs.
 *
 * Costs are in quarters of a movement point: a budget of `movement`
 * points is `4 * movement` quarters.
 */
module WindBoard {
  import opened Compass
  import OffsetGrid
  import opened Paths
  import OffsetBoard

  type Entry = OffsetBoard.Entry

  /** `parseInt(this.moveInput.value) || 1`: NaN and 0 both fall back to 1. */
  function OrOne(v: Option<int>): (r: int)
    ensures r != 0
    ensures v.Some? && v.value != 0 ==> r == v.value
  {
    if v.None? || v.value == 0 then 1 else v.value
  }

  /** What the search keeps of its table throughout, with step prices from the wind. */
  ghost predicate Table(order: seq<Cell>, dist: map<Cell, nat>, parent: map<Cell, Cell>, start: Cell, wind: Wind, budget: int) {
    && Distinct(order)
    && ExactTree(OffsetWind(wind), start, dist, parent)
    && (forall x :: x in dist ==> OffsetGrid.OnBoard(x))
    && forall x :: x in dist && x != start ==> dist[x] <= budget
  }

  ghost predicate Search(visited: array2<bool>, queue: seq<Entry>, order: seq<Cell>, head: nat,
                         dist: map<Cell, nat>, parent: map<Cell, Cell>, start: Cell, wind: Wind, budget: int)
    reads visited
  {
    OffsetBoard.Tracks(visited, dist) && OffsetBoard.QueueIs(queue, order, head, dist) && Table(order, dist, parent, start, wind, budget)
  }

  /**
   * A dequeued cell leaves no neighbour behind: every neighbour is visited
   * or the step to it overshoots the budget.
   */
  ghost predicate NoFrontier(dist: map<Cell, nat>, p: Cell, wind: Wind, budget: int)
    requires p in dist
  {
    forall n :: Adj(OffsetWind(wind), p, n) ==> n in dist || dist[p] + Weight(OffsetWind(wind), p, n) > budget
  }

  /** Queuing an unvisited neighbour of `p` at the price of the step keeps the table. */
  lemma PushKeeps(queue: seq<Entry>, order: seq<Cell>, head: nat, dist: map<Cell, nat>, parent: map<Cell, Cell>,
                  start: Cell, wind: Wind, budget: int, p: Cell, n: Cell, v: nat)
    requires OffsetBoard.QueueIs(queue, order, head, dist) && Table(order, dist, parent, start, wind, budget)
    requires p in dist && Adj(OffsetWind(wind), p, n) && n !in dist
    requires v == dist[p] + Weight(OffsetWind(wind), p, n) && v <= budget
    ensures OffsetBoard.QueueIs(queue + [OffsetBoard.Entry(n, v)], order + [n], head, dist[n := v])
    ensures Table(order + [n], dist[n := v], parent[n := p], start, wind, budget)
    ensures OffsetBoard.Grown(dist, order, queue, dist[n := v], order + [n], queue + [OffsetBoard.Entry(n, v)])
  {
    OffsetBoard.PushQueue(queue, order, head, dist, n, v);
    OffsetBoard.PushDistinct(order, dist, n);
    ExactTreeGrows(OffsetWind(wind), start, dist, parent, p, n, v);
  }

  /** Queue `n` at price `v`, flag it and record `p` as its parent. */
  method Push(visited: array2<bool>, wind: Wind, budget: int, p: Cell, n: Cell, v: nat,
              queue0: seq<Entry>, ghost dist0: map<Cell, nat>, ghost parent0: map<Cell, Cell>, ghost order0: seq<Cell>, ghost head: nat, ghost start: Cell)
    returns (queue: seq<Entry>, ghost dist: map<Cell, nat>, ghost parent: map<Cell, Cell>, ghost order: seq<Cell>)
    modifies visited
    requires Search(visited, queue0, order0, head, dist0, parent0, start, wind, budget)
    requires p in dist0 && Adj(OffsetWind(wind), p, n) && n !in dist0
    requires v == dist0[p] + Weight(OffsetWind(wind), p, n) && v <= budget
    ensures Search(visited, queue, order, head, dist, parent, start, wind, budget)
    ensures OffsetBoard.Grown(dist0, order0, queue0, dist, order, queue)
    ensures n in dist
  {
    PushKeeps(queue0, order0, head, dist0, parent0, start, wind, budget, p, n, v);
    OffsetBoard.Mark(visited, dist0, n, v);
    queue, dist, parent, order := queue0 + [OffsetBoard.Entry(n, v)], dist0[n := v], parent0[n := p], order0 + [n];
  }

  /** An unvisited neighbour is priced by the wind and queued only when the price fits the budget. */
  method Offer(visited: array2<bool>, wind: Wind, budget: int, p: Cell, d: nat, n: Cell,
               queue0: seq<Entry>, ghost dist0: map<Cell, nat>, ghost parent0: map<Cell, Cell>, ghost order0: seq<Cell>, ghost head: nat, ghost start: Cell)
    returns (queue: seq<Entry>, ghost dist: map<Cell, nat>, ghost parent: map<Cell, Cell>, ghost order: seq<Cell>)
    modifies visited
    requires Search(visited, queue0, order0, head, dist0, parent0, start, wind, budget)
    requires p in dist0 && dist0[p] == d && Adj(OffsetWind(wind), p, n) && n !in dist0
    ensures Search(visited, queue, order, head, dist, parent, start, wind, budget)
    ensures OffsetBoard.Grown(dist0, order0, queue0, dist, order, queue)
    ensures n in dist || d + Weight(OffsetWind(wind), p, n) > budget
  {
    var cost := OffsetGrid.StepCost(wind, p, n);
    if d + cost <= budget {
      queue, dist, parent, order := Push(visited, wind, budget, p, n, d + cost, queue0, dist0, parent0, order0, head, start);
    } else {
      queue, dist, parent, order := queue0, dist0, parent0, order0;
      OffsetBoard.GrownRefl(dist, order, queue);
    }
  }

  /** One round of the inner `for`: a neighbour not yet visited is offered to the queue. */
  method Visit(visited: array2<bool>, wind: Wind, budget: int, p: Cell, d: nat, n: Cell,
               queue0: seq<Entry>, ghost dist0: map<Cell, nat>, ghost parent0: map<Cell, Cell>, ghost order0: seq<Cell>, ghost head: nat, ghost start: Cell)
    returns (queue: seq<Entry>, ghost dist: map<Cell, nat>, ghost parent: map<Cell, Cell>, ghost order: seq<Cell>)
    modifies visited
    requires Search(visited, queue0, order0, head, dist0, parent0, start, wind, budget)
    requires p in dist0 && dist0[p] == d && Adj(OffsetWind(wind), p, n)
    ensures Search(visited, queue, order, head, dist, parent, start, wind, budget)
    ensures OffsetBoard.Grown(dist0, order0, queue0, dist, order, queue)
    ensures n in dist || d + Weight(OffsetWind(wind), p, n) > budget
  {
    assert OffsetGrid.OnBoard(n) && Cell(n.row, n.col) == n;
    if !visited[n.row, n.col] {
      queue, dist, parent, order := Offer(visited, wind, budget, p, d, n, queue0, dist0, parent0, order0, head, start);
    } else {
      queue, dist, parent, order := queue0, dist0, parent0, order0;
      OffsetBoard.GrownRefl(dist, order, queue);
    }
  }

  /** The neighbours already looked at stay handled as the table grows. */
  lemma CoverStep(adj: seq<Cell>, k: nat, wind: Wind, budget: int, p: Cell, d: nat, dist1: map<Cell, nat>, dist: map<Cell, nat>)
    requires k < |adj|
    requires forall j :: 0 <= j < k ==> adj[j] in dist1 || d + Weight(OffsetWind(wind), p, adj[j]) > budget
    requires forall x :: x in dist1 ==> x in dist
    requires adj[k] in dist || d + Weight(OffsetWind(wind), p, adj[k]) > budget
    ensures forall j :: 0 <= j < k + 1 ==> adj[j] in dist || d + Weight(OffsetWind(wind), p, adj[j]) > budget
  {
  }

  /** The inner `for` of showMovementRange over the list `adj`. */
  method Expand(visited: array2<bool>, wind: Wind, budget: int, p: Cell, adj: seq<Cell>, d: nat,
                queue0: seq<Entry>, ghost dist0: map<Cell, nat>, ghost parent0: map<Cell, Cell>, ghost order0: seq<Cell>, ghost head: nat, ghost start: Cell)
    returns (queue: seq<Entry>, ghost dist: map<Cell, nat>, ghost parent: map<Cell, Cell>, ghost order: seq<Cell>)
    modifies visited
    requires Search(visited, queue0, order0, head, dist0, parent0, start, wind, budget)
    requires p in dist0 && dist0[p] == d
    requires forall j :: 0 <= j < |adj| ==> Adj(OffsetWind(wind), p, adj[j])
    ensures Search(visited, queue, order, head, dist, parent, start, wind, budget)
    ensures OffsetBoard.Grown(dist0, order0, queue0, dist, order, queue)
    ensures forall j :: 0 <= j < |adj| ==> adj[j] in dist || d + Weight(OffsetWind(wind), p, adj[j]) > budget
  {
    queue, dist, parent, order := queue0, dist0, parent0, order0;
    OffsetBoard.GrownRefl(dist, order, queue);
    for k := 0 to |adj|
      invariant Search(visited, queue, order, head, dist, parent, start, wind, budget)
      invariant p in dist && dist[p] == d
      invariant OffsetBoard.Grown(dist0, order0, queue0, dist, order, queue)
      invariant forall j :: 0 <= j < k ==> adj[j] in dist || d + Weight(OffsetWind(wind), p, adj[j]) > budget
    {
      ghost var queue1, order1, dist1 := queue, order, dist;
      queue, dist, parent, order := Visit(visited, wind, budget, p, d, adj[k], queue, dist, parent, order, head, start);
      OffsetBoard.GrownTrans(dist0, order0, queue0, dist1, order1, queue1, dist, order, queue);
      CoverStep(adj, k, wind, budget, p, d, dist1, dist);
    }
  }

  /** Every cell of getAdjacent's list is a step of the wind rule. */
  lemma AdjacentAreAdj(wind: Wind, p: Cell)
    ensures forall j :: 0 <= j < |OffsetGrid.Adjacent(p.row, p.col)| ==> Adj(OffsetWind(wind), p, OffsetGrid.Adjacent(p.row, p.col)[j])
  {
    var adj := OffsetGrid.Adjacent(p.row, p.col);
    forall j | 0 <= j < |adj| ensures Adj(OffsetWind(wind), p, adj[j]) {
      OffsetGrid.AdjacentIffTouches(p, adj[j]);
    }
  }

  /** Handling every cell of getAdjacent's list leaves no frontier at `p`. */
  lemma CoveredNoFrontier(wind: Wind, budget: int, p: Cell, dist: map<Cell, nat>)
    requires p in dist
    requires forall j :: 0 <= j < |OffsetGrid.Adjacent(p.row, p.col)| ==>
      OffsetGrid.Adjacent(p.row, p.col)[j] in dist || dist[p] + Weight(OffsetWind(wind), p, OffsetGrid.Adjacent(p.row, p.col)[j]) > budget
    ensures NoFrontier(dist, p, wind, budget)
  {
    var adj := OffsetGrid.Adjacent(p.row, p.col);
    forall n | Adj(OffsetWind(wind), p, n) ensures n in dist || dist[p] + Weight(OffsetWind(wind), p, n) > budget {
      OffsetGrid.AdjacentIffTouches(p, n);
      var j :| 0 <= j < |adj| && adj[j] == n;
    }
  }

  /** A cell whose entry has used up the budget has no frontier, as every step costs something. */
  lemma SpentNoFrontier(wind: Wind, budget: int, p: Cell, dist: map<Cell, nat>)
    requires p in dist && dist[p] >= budget
    ensures NoFrontier(dist, p, wind, budget)
  {
  }

  /** The tiles highlighted after `head` dequeues: dequeued, not the start, and dearer than `low`. */
  ghost predicate LitIs(lit: set<Cell>, order: seq<Cell>, head: nat, dist: map<Cell, nat>, start: Cell, low: int)
    requires head <= |order| && forall i :: 0 <= i < |order| ==> order[i] in dist
  {
    forall x :: x in lit <==> x in order[..head] && x != start && dist[x] > low
  }

  /** The state of the outer `while` after `head` dequeues. */
  ghost predicate Outer(visited: array2<bool>, queue: seq<Entry>, order: seq<Cell>, head: nat, dist: map<Cell, nat>,
                        parent: map<Cell, Cell>, start: Cell, wind: Wind, budget: int, low: int, lit: set<Cell>)
    reads visited
  {
    && Search(visited, queue, order, head, dist, parent, start, wind, budget)
    && |order| >= 1 && order[0] == start
    && (forall i :: 0 <= i < head ==> NoFrontier(dist, order[i], wind, budget))
    && LitIs(lit, order, head, dist, start, low)
  }

  /** Highlighting the dequeued cell when it is in the window keeps LitIs. */
  lemma LitStep(order: seq<Cell>, head: nat, dist: map<Cell, nat>, start: Cell, low: int, lit0: set<Cell>, lit: set<Cell>, cell: Cell)
    requires head < |order| && order[head] == cell
    requires forall i :: 0 <= i < |order| ==> order[i] in dist
    requires LitIs(lit0, order, head, dist, start, low)
    requires lit == if cell != start && dist[cell] > low then lit0 + {cell} else lit0
    ensures LitIs(lit, order, head + 1, dist, start, low)
  {
    assert order[..head + 1] == order[..head] + [cell];
  }

  /** After the inner `for` the dequeued prefix, its highlights and frontiers survive, and `p` joins them. */
  lemma ExpandOuter(visited: array2<bool>, p: Cell, d: nat, order0: seq<Cell>, dist0: map<Cell, nat>, queue1: seq<Entry>, head: nat,
                    queue: seq<Entry>, order: seq<Cell>, dist: map<Cell, nat>, parent: map<Cell, Cell>,
                    start: Cell, wind: Wind, budget: int, low: int, lit: set<Cell>)
    requires Search(visited, queue, order, head, dist, parent, start, wind, budget)
    requires OffsetBoard.Grown(dist0, order0, queue1, dist, order, queue)
    requires forall j :: 0 <= j < |OffsetGrid.Adjacent(p.row, p.col)| ==>
      OffsetGrid.Adjacent(p.row, p.col)[j] in dist || d + Weight(OffsetWind(wind), p, OffsetGrid.Adjacent(p.row, p.col)[j]) > budget
    requires 1 <= head <= |order0| && order0[head - 1] == p && p in dist0 && dist0[p] == d
    requires |order0| >= 1 && order0[0] == start
    requires forall i :: 0 <= i < |order0| ==> order0[i] in dist0
    requires forall i :: 0 <= i < head - 1 ==> NoFrontier(dist0, order0[i], wind, budget)
    requires LitIs(lit, order0, head, dist0, start, low)
    ensures Outer(visited, queue, order, head, dist, parent, start, wind, budget, low, lit)
    ensures dist.Keys == dist0.Keys || OffsetBoard.Grid - dist.Keys < OffsetBoard.Grid - dist0.Keys
  {
    CoveredNoFrontier(wind, budget, p, dist);
    assert order[..head] == order0[..head];
    forall i | 0 <= i < head - 1 ensures NoFrontier(dist, order[i], wind, budget) {
      assert order[i] == order0[i];
      assert NoFrontier(dist0, order0[i], wind, budget);
    }
    assert order[head - 1] == p;
    OffsetBoard.Shrinks(dist0, dist);
  }

  /** A dequeued cell that is not expanded: the outer state moves past it. */
  lemma SkipOuter(visited: array2<bool>, queue0: seq<Entry>, order0: seq<Cell>, head0: nat, dist0: map<Cell, nat>,
                  parent0: map<Cell, Cell>, start: Cell, wind: Wind, budget: int, low: int, lit0: set<Cell>, lit: set<Cell>)
    requires Outer(visited, queue0, order0, head0, dist0, parent0, start, wind, budget, low, lit0) && queue0 != []
    requires queue0[0].dist >= budget
    requires lit == if queue0[0].cell != start && queue0[0].dist <= budget && queue0[0].dist > low then lit0 + {queue0[0].cell} else lit0
    ensures Outer(visited, queue0[1..], order0, head0 + 1, dist0, parent0, start, wind, budget, low, lit)
  {
    OffsetBoard.PopKeeps(queue0, order0, head0, dist0);
    var e := queue0[0];
    if e.cell != start {
      assert dist0[e.cell] <= budget;
    }
    LitStep(order0, head0, dist0, start, low, lit0, lit, e.cell);
    SpentNoFrontier(wind, budget, e.cell, dist0);
  }

  /** Taking the front of the queue leaves a search state, with the front's entry in the table. */
  lemma PopSearch(visited: array2<bool>, queue0: seq<Entry>, order0: seq<Cell>, head0: nat, dist0: map<Cell, nat>,
                  parent0: map<Cell, Cell>, start: Cell, wind: Wind, budget: int, low: int, lit0: set<Cell>)
    requires Outer(visited, queue0, order0, head0, dist0, parent0, start, wind, budget, low, lit0) && queue0 != []
    ensures head0 < |order0| && order0[head0] == queue0[0].cell
    ensures queue0[0].cell in dist0 && dist0[queue0[0].cell] == queue0[0].dist
    ensures Search(visited, queue0[1..], order0, head0 + 1, dist0, parent0, start, wind, budget)
  {
    OffsetBoard.PopKeeps(queue0, order0, head0, dist0);
  }

  /**
   * One round of the outer `while`: take the front of the queue, skip it
   * beyond the budget, highlight it inside the window unless it is the
   * ship, and expand it below the budget.
   */
  method Round(visited: array2<bool>, start: Cell, wind: Wind, budget: int, low: int, queue0: seq<Entry>, lit0: set<Cell>,
               ghost dist0: map<Cell, nat>, ghost parent0: map<Cell, Cell>, ghost order0: seq<Cell>, ghost head0: nat)
    returns (queue: seq<Entry>, lit: set<Cell>, ghost dist: map<Cell, nat>, ghost parent: map<Cell, Cell>, ghost order: seq<Cell>, ghost head: nat)
    modifies visited
    requires Outer(visited, queue0, order0, head0, dist0, parent0, start, wind, budget, low, lit0) && queue0 != []
    ensures Outer(visited, queue, order, head, dist, parent, start, wind, budget, low, lit)
    ensures dist.Keys == dist0.Keys || OffsetBoard.Grid - dist.Keys < OffsetBoard.Grid - dist0.Keys
    ensures dist.Keys == dist0.Keys ==> queue == queue0[1..]
  {
    PopSearch(visited, queue0, order0, head0, dist0, parent0, start, wind, budget, low, lit0);
    var e := queue0[0];
    queue, head, dist, parent, order := queue0[1..], head0 + 1, dist0, parent0, order0;
    lit := lit0;
    if e.dist > budget {
      SkipOuter(visited, queue0, order0, head0, dist0, parent0, start, wind, budget, low, lit0, lit);
      return;
    }
    if e.cell != start && e.dist > low {
      lit := lit + {e.cell};
    }
    if e.dist == budget {
      SkipOuter(visited, queue0, order0, head0, dist0, parent0, start, wind, budget, low, lit0, lit);
      return;
    }
    LitStep(order0, head0, dist0, start, low, lit0, lit, e.cell);
    var adj := OffsetGrid.Adjacent(e.cell.row, e.cell.col);
    AdjacentAreAdj(wind, e.cell);
    queue, dist, parent, order := Expand(visited, wind, budget, e.cell, adj, e.dist, queue, dist, parent, order, head, start);
    ExpandOuter(visited, e.cell, e.dist, order0, dist0, queue0[1..], head, queue, order, dist, parent, start, wind, budget, low, lit);
  }

  /**
   * What a finished search guarantees: every cell is queued once, the start
   * first; every entry is the exact price of some walk from the start
   * (not necessarily the cheapest) and, but for
   * the start, within the budget; and no step out of a queued cell that
   * fits the budget leads to an unqueued cell.
   */
  ghost predicate Outcome(start: Cell, wind: Wind, budget: int, dist: map<Cell, nat>, order: seq<Cell>) {
    && Distinct(order) && |order| >= 1 && order[0] == start
    && (forall x :: x in dist <==> x in order)
    && start in dist && dist[start] == 0
    && (forall x :: x in dist && x != start ==> dist[x] <= budget)
    && (forall x :: x in dist ==> PricedAt(OffsetWind(wind), start, x, dist[x]))
    && forall p, n :: p in dist && Adj(OffsetWind(wind), p, n) ==>
         n in dist || dist[p] + Weight(OffsetWind(wind), p, n) > budget
  }

  /** An empty queue: every queued cell is dequeued, and the outcome follows from the invariant. */
  lemma Drained(visited: array2<bool>, order: seq<Cell>, head: nat, dist: map<Cell, nat>, parent: map<Cell, Cell>,
                start: Cell, wind: Wind, budget: int, low: int, lit: set<Cell>)
    requires Outer(visited, [], order, head, dist, parent, start, wind, budget, low, lit)
    ensures Outcome(start, wind, budget, dist, order)
    ensures forall x :: x in lit <==> x in dist && x != start && dist[x] > low
  {
    OffsetBoard.KeysAreOrder(order, dist);
    assert order[..head] == order;
    forall x | x in dist ensures PricedAt(OffsetWind(wind), start, x, dist[x]) {
      var w := ExactTreeWalk(OffsetWind(wind), start, dist, parent, x);
    }
    forall p, n | p in dist && Adj(OffsetWind(wind), p, n)
      ensures n in dist || dist[p] + Weight(OffsetWind(wind), p, n) > budget
    {
      var i :| 0 <= i < |order| && order[i] == p;
      assert NoFrontier(dist, order[i], wind, budget);
    }
  }

  /**
   * showMovementRange of board1.js for `movement` points, with `width` the
   * value `parseInt(moveInput.value) || 1`: the tiles it gives the
   * `movement-range` class are the queued cells other than the ship whose
   * price lies above `movement - width` points.
   */
  method ShowMovementRange(start: Cell, wind: Wind, movement: int, width: int)
    returns (lit: set<Cell>, ghost dist: map<Cell, nat>, ghost order: seq<Cell>)
    requires OffsetGrid.OnBoard(start)
    ensures Outcome(start, wind, 4 * movement, dist, order)
    ensures forall x :: x in lit <==> x in dist && x != start && dist[x] > 4 * (movement - width)
    ensures forall x :: x in lit ==> x != start && OffsetGrid.OnBoard(x) && Reachable(OffsetWind(wind), start, x, 4 * movement)
  {
    var budget, low := 4 * movement, 4 * (movement - width);
    var visited := new bool[21, 21]((_, _) => false);
    visited[start.row, start.col] := true;
    var queue := [OffsetBoard.Entry(start, 0)];
    dist := map[start := 0];
    order := [start];
    ghost var parent: map<Cell, Cell> := map[];
    ghost var head: nat := 0;
    lit := {};
    while queue != []
      invariant Outer(visited, queue, order, head, dist, parent, start, wind, budget, low, lit)
      decreases OffsetBoard.Grid - dist.Keys, |queue|
    {
      queue, lit, dist, parent, order, head := Round(visited, start, wind, budget, low, queue, lit, dist, parent, order, head);
    }
    Drained(visited, order, head, dist, parent, start, wind, budget, low, lit);
    forall x | x in lit ensures OffsetGrid.OnBoard(x) && Reachable(OffsetWind(wind), start, x, budget) {
      PricedReachable(OffsetWind(wind), start, x, dist[x]);
      ReachableMonotone(OffsetWind(wind), start, x, dist[x], budget);
      ReachableOnBoard(OffsetWind(wind), start, x, budget);
    }
  }

  /**
   * Within one step each highlighted tile's entry is the exact price of a
   * walk to it, within the step's budget and dearer than the window's lower
   * edge: with `width` the move value, the tiles of step `s` cost more than
   * `s - 1` moves.
   */
  lemma HighlightWindow(start: Cell, wind: Wind, move: int, s: int, dist: map<Cell, nat>, order: seq<Cell>, lit: set<Cell>, x: Cell)
    requires Outcome(start, wind, 4 * (move * s), dist, order)
    requires forall y :: y in lit <==> y in dist && y != start && dist[y] > 4 * (move * s - move)
    requires x in lit
    ensures 4 * (move * (s - 1)) < dist[x] <= 4 * (move * s)
    ensures PricedAt(OffsetWind(wind), start, x, dist[x])
    ensures Reachable(OffsetWind(wind), start, x, 4 * (move * s))
    ensures OffsetGrid.OnBoard(x)
  {
    PreviousStep(move, s);
    PricedReachable(OffsetWind(wind), start, x, dist[x]);
    ReachableMonotone(OffsetWind(wind), start, x, dist[x], 4 * (move * s));
    ReachableOnBoard(OffsetWind(wind), start, x, dist[x]);
  }

  /** The lower edge of step `s`'s window is the budget of step `s - 1`. */
  lemma PreviousStep(move: int, s: int)
    ensures move * s - move == move * (s - 1)
  {
  }

  /** Every neighbour of the start whose step fits the budget is queued. */
  lemma FirstRing(start: Cell, wind: Wind, budget: int, dist: map<Cell, nat>, order: seq<Cell>, n: Cell)
    requires Outcome(start, wind, budget, dist, order)
    requires Adj(OffsetWind(wind), start, n) && Weight(OffsetWind(wind), start, n) <= budget
    ensures n in dist
  {
  }

  /** The check updateMovementRange makes of a parsed input: a number, and positive. */
  predicate Positive(v: Option<int>) {
    v.Some? && v.value > 0
  }

  /**
   * The marks `(tile, t)` of step `t` are the highlighted tiles of one
   * search from `ship` for `move * t` points, the window being one move wide.
   */
  ghost predicate StepDrawn(ship: Cell, wind: Wind, move: int, t: int, drawn: set<(Cell, int)>) {
    exists dist: map<Cell, nat>, order: seq<Cell> ::
      && Outcome(ship, wind, 4 * (move * t), dist, order)
      && forall x :: (x, t) in drawn <==> x in dist && x != ship && dist[x] > 4 * (move * t - move)
  }

  /** Steps 1 to `steps` are drawn, nothing else is, and `tiles` are the tiles marked at some step. */
  ghost predicate Drawn(ship: Cell, wind: Wind, move: int, steps: int, drawn: set<(Cell, int)>, tiles: set<Cell>) {
    && (forall x, t :: (x, t) in drawn ==> 1 <= t <= steps)
    && (forall t :: 1 <= t <= steps ==> StepDrawn(ship, wind, move, t, drawn))
    && forall x :: x in tiles <==> exists t :: (x, t) in drawn
  }

  /** clearMovementRange removes the classes `step-1` to `step-5` only; marks of other steps stay. */
  function Kept(marks: set<(Cell, int)>): set<(Cell, int)> {
    set m | m in marks && !(1 <= m.1 <= 5)
  }

  /** Marks of another step leave a drawn step drawn. */
  lemma StepDrawnFrame(ship: Cell, wind: Wind, move: int, t: int, drawn: set<(Cell, int)>, drawn': set<(Cell, int)>)
    requires StepDrawn(ship, wind, move, t, drawn)
    requires forall x :: (x, t) in drawn' <==> (x, t) in drawn
    ensures StepDrawn(ship, wind, move, t, drawn')
  {
    var dist: map<Cell, nat>, order: seq<Cell> :|
      && Outcome(ship, wind, 4 * (move * t), dist, order)
      && forall x :: (x, t) in drawn <==> x in dist && x != ship && dist[x] > 4 * (move * t - move);
    assert forall x :: (x, t) in drawn' <==> x in dist && x != ship && dist[x] > 4 * (move * t - move);
  }

  /** Adding the marks of step `s` to steps 1 to `s - 1` draws steps 1 to `s`. */
  lemma DrawnGrows(ship: Cell, wind: Wind, move: int, s: int, drawn: set<(Cell, int)>, tiles: set<Cell>,
                   lit: set<Cell>, dist: map<Cell, nat>, order: seq<Cell>)
    requires s >= 1 && Drawn(ship, wind, move, s - 1, drawn, tiles)
    requires Outcome(ship, wind, 4 * (move * s), dist, order)
    requires forall x :: x in lit <==> x in dist && x != ship && dist[x] > 4 * (move * s - move)
    ensures Drawn(ship, wind, move, s, drawn + set x | x in lit :: (x, s), tiles + lit)
  {
    var drawn' := drawn + set x | x in lit :: (x, s);
    forall t | 1 <= t <= s ensures StepDrawn(ship, wind, move, t, drawn') {
      if t < s {
        StepDrawnFrame(ship, wind, move, t, drawn, drawn');
      } else {
        assert forall x :: (x, t) in drawn' <==> x in lit;
      }
    }
    forall x | x in tiles + lit ensures exists t :: (x, t) in drawn' {
      if x in lit {
        assert (x, s) in drawn';
      } else {
        var t :| (x, t) in drawn;
        assert (x, t) in drawn';
      }
    }
  }

  /**
   * A mark of step `t` is for a tile other than the ship, on the board,
   * reached by a walk whose exact price lies in the window of the step:
   * above `move * (t - 1)` points and at most `move * t` points.
   */
  lemma MarkWindow(ship: Cell, wind: Wind, move: int, t: int, drawn: set<(Cell, int)>, x: Cell)
    requires StepDrawn(ship, wind, move, t, drawn) && (x, t) in drawn
    ensures x != ship && OffsetGrid.OnBoard(x)
    ensures exists c: nat :: 4 * (move * (t - 1)) < c <= 4 * (move * t) && PricedAt(OffsetWind(wind), ship, x, c)
  {
    var dist: map<Cell, nat>, order: seq<Cell> :|
      && Outcome(ship, wind, 4 * (move * t), dist, order)
      && forall y :: (y, t) in drawn <==> y in dist && y != ship && dist[y] > 4 * (move * t - move);
    var lit := set y | y in dist && y != ship && dist[y] > 4 * (move * t - move);
    HighlightWindow(ship, wind, move, t, dist, order, lit, x);
  }

  /**
   * The Board1 object: ship position, selected wind, the parsed "Ruch" and
   * "Kroki" inputs (None for NaN), the tiles with the `movement-range`
   * class and the `step-s` classes as pairs (tile, s). `drawn` records the
   * marks the last update drew.
   */
  class Board1 {
    var ship: Cell
    var selectedWind: Wind
    var move: Option<int>
    var step: Option<int>
    var rangeTiles: set<Cell>
    var stepMarks: set<(Cell, int)>
    ghost var drawn: set<(Cell, int)>

    /** The ship stands on a tile. */
    predicate Valid()
      reads this
    {
      OffsetGrid.OnBoard(ship)
    }

    /** What the last update drew for the current fields. */
    ghost predicate Shown()
      reads this
    {
      if Positive(move) && Positive(step) then Drawn(ship, selectedWind, move.value, step.value, drawn, rangeTiles)
      else drawn == {} && rangeTiles == {}
    }

    /** The page as it loads: ship on the middle tile, no wind, move 2, one step, first range drawn. */
    constructor()
      ensures Valid() && Shown()
      ensures ship == Cell(OffsetBoard.MidRow, OffsetBoard.MidCol) && selectedWind == Calm
      ensures move == Some(2) && step == Some(1)
      ensures stepMarks == drawn
    {
      ship := Cell(OffsetBoard.MidRow, OffsetBoard.MidCol);
      selectedWind := Calm;
      move, step := Some(2), Some(1);
      rangeTiles, stepMarks, drawn := {}, {}, {};
      new;
      UpdateMovementRange();
    }

    /**
     * updateMovementRange: clear the highlights, then for valid inputs run
     * one search per step `s` from 1 to the step value, with `move * s`
     * points, marking its tiles with step `s`.
     */
    method UpdateMovementRange()
      modifies this
      requires Valid()
      ensures Valid() && Shown()
      ensures ship == old(ship) && selectedWind == old(selectedWind) && move == old(move) && step == old(step)
      ensures stepMarks == Kept(old(stepMarks)) + drawn
      ensures forall m :: m in stepMarks && 1 <= m.1 <= 5 ==> m in drawn
      ensures forall m :: m in old(stepMarks) && !(1 <= m.1 <= 5) ==> m in stepMarks
    {
      rangeTiles := {};
      stepMarks := Kept(stepMarks);
      ghost var kept := stepMarks;
      drawn := {};
      if Positive(move) && Positive(step) {
        var moveVal, stepVal := move.value, step.value;
        for s := 1 to stepVal + 1
          invariant ship == old(ship) && selectedWind == old(selectedWind) && move == old(move) && step == old(step)
          invariant Drawn(ship, selectedWind, moveVal, s - 1, drawn, rangeTiles)
          invariant stepMarks == kept + drawn
        {
          var lit, dist, order := ShowMovementRange(ship, selectedWind, moveVal * s, OrOne(move));
          DrawnGrows(ship, selectedWind, moveVal, s, drawn, rangeTiles, lit, dist, order);
          var marks := set x | x in lit :: (x, s);
          rangeTiles := rangeTiles + lit;
          stepMarks := stepMarks + marks;
          drawn := drawn + marks;
        }
      }
    }

    /** A tile click moves the ship there and redraws. */
    method ClickTile(r: int, c: int)
      modifies this
      requires Valid() && OffsetGrid.OnBoard(Cell(r, c))
      ensures Valid() && Shown()
      ensures ship == Cell(r, c) && selectedWind == old(selectedWind) && move == old(move) && step == old(step)
      ensures stepMarks == Kept(old(stepMarks)) + drawn
    {
      ship := Cell(r, c);
      UpdateMovementRange();
    }

    /** A wind button click selects the wind and redraws. */
    method SelectWind(wind: Wind)
      modifies this
      requires Valid()
      ensures Valid() && Shown()
      ensures selectedWind == wind && ship == old(ship) && move == old(move) && step == old(step)
      ensures stepMarks == Kept(old(stepMarks)) + drawn
    {
      selectedWind := wind;
      UpdateMovementRange();
    }

    /** The `input` listener of "Ruch". */
    method EditMove(value: Option<int>)
      modifies this
      requires Valid()
      ensures Valid() && Shown()
      ensures move == value && ship == old(ship) && selectedWind == old(selectedWind) && step == old(step)
      ensures stepMarks == Kept(old(stepMarks)) + drawn
    {
      move := value;
      UpdateMovementRange();
    }

    /** The `input` listener of "Kroki". */
    method EditStep(value: Option<int>)
      modifies this
      requires Valid()
      ensures Valid() && Shown()
      ensures step == value && ship == old(ship) && selectedWind == old(selectedWind) && move == old(move)
      ensures stepMarks == Kept(old(stepMarks)) + drawn
    {
      step := value;
      UpdateMovementRange();
    }
  }
}
