/**
 * board2.js: the regular 21 x 21 board with a movable ship, wind and
 * dearer diagonals. For every step `s` from 1 to the step value it runs a
 * search from the ship with a budget of `moveVal * s` points: a FIFO queue
 * where a cell is queued again whenever its price improves, so stale
 * entries are expanded too. Such a search ends with exactly the least
 * prices within the budget. Each tile remembers the first step whose
 * search priced it; the ship is never marked.
 *
 * Prices are in quarters of a point, so `newCost <= moveVal * s` is
 * `q <= Budget(moveVal, s)` with the whole quarters of `moveVal * s`.
 */
module SquareBoard {
  import opened Compass
  import SquareGrid
  import opened Paths
  import OffsetBoard

  type Entry = OffsetBoard.Entry

  /** `newCost < costs[nr][nc]`, a price against an entry that is a price or Infinity (None). */
  predicate Below(v: nat, c: Option<nat>) {
    c.None? || v < c.value
  }

  /** The `costs` grid holds the table: a price for the cells in it, Infinity for the rest. */
  ghost predicate Tracks(costs: array2<Option<nat>>, dist: map<Cell, nat>)
    reads costs
  {
    && costs.Length0 == 21 && costs.Length1 == 21
    && (forall x :: x in dist ==> SquareGrid.OnBoard(x))
    && forall r, c :: 0 <= r < 21 && 0 <= c < 21 ==>
         costs[r, c] == (if Cell(r, c) in dist then Some(dist[Cell(r, c)]) else None)
  }

  /** The first-reached step of a tile after step `s`: kept once set, else `s` when the tile was priced at this step. */
  function NewMark(before: nat, hit: bool, s: nat): (m: nat)
    ensures before != 0 ==> m == before
    ensures before == 0 ==> (m != 0 <==> hit && s != 0)
  {
    if before != 0 then before else if hit then s else 0
  }

  /** `stepReached` after the improvements so far of step `s`, given what it held before the step. */
  ghost predicate Marks(reached: array2<nat>, prev: map<Cell, nat>, dist: map<Cell, nat>, ship: Cell, s: nat)
    reads reached
  {
    && reached.Length0 == 21 && reached.Length1 == 21
    && forall r, c :: 0 <= r < 21 && 0 <= c < 21 ==>
         Cell(r, c) in prev && reached[r, c] == NewMark(prev[Cell(r, c)], Cell(r, c) != ship && Cell(r, c) in dist, s)
  }

  /** Every price is paid for by a parent edge and fits the budget. */
  ghost predicate Table(dist: map<Cell, nat>, parent: map<Cell, Cell>, ship: Cell, wind: Wind, budget: int) {
    && LooseTree(SquareWind(wind), ship, dist, parent)
    && forall x :: x in dist ==> dist[x] <= budget
  }

  /** A queued entry is for a priced cell and is never cheaper than its current price. */
  ghost predicate QueueOk(queue: seq<Entry>, dist: map<Cell, nat>) {
    forall i :: 0 <= i < |queue| ==> queue[i].cell in dist && dist[queue[i].cell] <= queue[i].dist
  }

  ghost predicate State(costs: array2<Option<nat>>, reached: array2<nat>, queue: seq<Entry>, dist: map<Cell, nat>,
                        parent: map<Cell, Cell>, ship: Cell, wind: Wind, budget: int, s: nat, prev: map<Cell, nat>)
    reads costs, reached
  {
    Tracks(costs, dist) && Marks(reached, prev, dist, ship, s) && Table(dist, parent, ship, wind, budget) && QueueOk(queue, dist)
  }

  /** The step from `p` to `n` at price `c` for `p` gives `n` nothing new: it overshoots or `n` is as cheap already. */
  ghost predicate Handled(dist: map<Cell, nat>, p: Cell, c: nat, n: Cell, wind: Wind, budget: int) {
    c + Weight(SquareWind(wind), p, n) > budget || (n in dist && dist[n] <= c + Weight(SquareWind(wind), p, n))
  }

  /** No step out of `p` at its current price improves a neighbour. */
  ghost predicate Relaxed(dist: map<Cell, nat>, p: Cell, wind: Wind, budget: int)
    requires p in dist
  {
    forall n :: Adj(SquareWind(wind), p, n) ==> Handled(dist, p, dist[p], n, wind, budget)
  }

  /** Every priced cell still has an entry at its price in the queue, or is relaxed already. */
  ghost predicate Pending(queue: seq<Entry>, dist: map<Cell, nat>, wind: Wind, budget: int) {
    forall q :: q in dist ==> OffsetBoard.Entry(q, dist[q]) in queue || Relaxed(dist, q, wind, budget)
  }

  /** The pairs (cell, price) that could still become a cell's price: the measure that ends the search. */
  ghost function Slack(dist: map<Cell, nat>, budget: int): set<(Cell, int)> {
    set x, v | x in OffsetBoard.Grid && 0 <= v <= budget && (x !in dist || v < dist[x]) :: (x, v)
  }

  /** A better price within the budget removes at least one pair from the slack and adds none. */
  lemma SlackShrinks(dist: map<Cell, nat>, budget: int, n: Cell, v: nat)
    requires SquareGrid.OnBoard(n) && v <= budget && (n !in dist || v < dist[n])
    ensures Slack(dist[n := v], budget) < Slack(dist, budget)
  {
    assert n == Cell(n.row, n.col) && n in OffsetBoard.Grid;
    assert (n, v as int) in Slack(dist, budget);
    assert (n, v as int) !in Slack(dist[n := v], budget);
  }

  /** How a later state of one step's search relates to an earlier one. */
  ghost predicate Lowered(dist0: map<Cell, nat>, queue0: seq<Entry>, dist: map<Cell, nat>, queue: seq<Entry>, budget: int) {
    && (forall x :: x in dist0 ==> x in dist && dist[x] <= dist0[x])
    && |queue0| <= |queue| && queue[..|queue0|] == queue0
    && (forall q :: q in dist ==> (q in dist0 && dist[q] == dist0[q]) || OffsetBoard.Entry(q, dist[q]) in queue)
    && Slack(dist, budget) <= Slack(dist0, budget)
    && (Slack(dist, budget) == Slack(dist0, budget) ==> queue == queue0)
  }

  lemma LoweredRefl(dist: map<Cell, nat>, queue: seq<Entry>, budget: int)
    ensures Lowered(dist, queue, dist, queue, budget)
  {
    assert queue[..|queue|] == queue;
  }

  lemma LoweredTrans(dist0: map<Cell, nat>, queue0: seq<Entry>, dist1: map<Cell, nat>, queue1: seq<Entry>,
                     dist: map<Cell, nat>, queue: seq<Entry>, budget: int)
    requires Lowered(dist0, queue0, dist1, queue1, budget) && Lowered(dist1, queue1, dist, queue, budget)
    ensures Lowered(dist0, queue0, dist, queue, budget)
  {
    assert queue[..|queue0|] == queue1[..|queue0|];
    forall q | q in dist ensures (q in dist0 && dist[q] == dist0[q]) || OffsetBoard.Entry(q, dist[q]) in queue {
      if !(q in dist0 && dist[q] == dist0[q]) {
        if q in dist1 && dist[q] == dist1[q] {
          var e := OffsetBoard.Entry(q, dist[q]);
          assert e in queue1;
          var i :| 0 <= i < |queue1| && queue1[i] == e;
          assert queue[i] == e;
        }
      }
    }
  }

  /** One relaxation either leaves the search alone or lowers one price and queues it. */
  lemma RelaxLowered(dist0: map<Cell, nat>, queue0: seq<Entry>, budget: int, n: Cell, v: nat)
    requires SquareGrid.OnBoard(n) && v <= budget && (n !in dist0 || v < dist0[n])
    ensures Lowered(dist0, queue0, dist0[n := v], queue0 + [OffsetBoard.Entry(n, v)], budget)
  {
    SlackShrinks(dist0, budget, n, v);
    var queue := queue0 + [OffsetBoard.Entry(n, v)];
    assert queue[..|queue0|] == queue0;
    assert queue[|queue0|] == OffsetBoard.Entry(n, v);
  }

  /** A better price paid by the edge from `p` keeps the table, and the ship's price 0 is never beaten. */
  lemma RelaxTable(dist: map<Cell, nat>, parent: map<Cell, Cell>, queue: seq<Entry>, ship: Cell, wind: Wind, budget: int,
                   p: Cell, c: nat, n: Cell, v: nat)
    requires Table(dist, parent, ship, wind, budget) && QueueOk(queue, dist)
    requires p in dist && dist[p] <= c && Adj(SquareWind(wind), p, n)
    requires v == c + Weight(SquareWind(wind), p, n) && v <= budget && (n !in dist || v < dist[n])
    ensures n != ship
    ensures Table(dist[n := v], parent[n := p], ship, wind, budget)
    ensures QueueOk(queue + [OffsetBoard.Entry(n, v)], dist[n := v])
  {
    var dist', parent' := dist[n := v], parent[n := p];
    forall x {:trigger parent'[x]} | x in parent' && x in dist' && x != ship
      ensures parent'[x] in dist' && Adj(SquareWind(wind), parent'[x], x)
      ensures dist'[parent'[x]] + Weight(SquareWind(wind), parent'[x], x) <= dist'[x]
    {
      if x != n {
        assert parent'[x] == parent[x];
      }
    }
  }

  /**
   * What relaxing the step from `p` (entry price `c`) to `n` does: a price
   * within the budget that beats the neighbour's becomes its price and is
   * queued; otherwise nothing changes.
   */
  ghost predicate Relaxation(dist0: map<Cell, nat>, queue0: seq<Entry>, dist: map<Cell, nat>, queue: seq<Entry>,
                             wind: Wind, budget: int, p: Cell, c: nat, n: Cell) {
    var v := c + Weight(SquareWind(wind), p, n);
    if v <= budget && (n !in dist0 || v < dist0[n]) then dist == dist0[n := v] && queue == queue0 + [OffsetBoard.Entry(n, v)]
    else dist == dist0 && queue == queue0
  }

  /** Writing an improved price into `costs`, and the step into `stepReached` when the tile has none yet. */
  method Record(costs: array2<Option<nat>>, reached: array2<nat>, ship: Cell, s: nat, n: Cell, v: nat,
                ghost dist: map<Cell, nat>, ghost prev: map<Cell, nat>)
    modifies costs, reached
    requires s >= 1 && SquareGrid.OnBoard(n) && n != ship
    requires Tracks(costs, dist) && Marks(reached, prev, dist, ship, s)
    ensures Tracks(costs, dist[n := v]) && Marks(reached, prev, dist[n := v], ship, s)
  {
    costs[n.row, n.col] := Some(v);
    if reached[n.row, n.col] == 0 && !(n.row == ship.row && n.col == ship.col) {
      reached[n.row, n.col] := s;
    }
  }

  /**
   * The body of the inner `for` for one neighbour `n` of the dequeued cell
   * `p` whose entry has price `c`: price the step, and on an improvement
   * within the budget record it, queue it and mark the tile's first step.
   */
  method Relax(costs: array2<Option<nat>>, reached: array2<nat>, ship: Cell, wind: Wind, budget: int, s: nat,
               p: Cell, c: nat, n: Cell, queue0: seq<Entry>,
               ghost dist0: map<Cell, nat>, ghost parent0: map<Cell, Cell>, ghost prev: map<Cell, nat>)
    returns (queue: seq<Entry>, ghost dist: map<Cell, nat>, ghost parent: map<Cell, Cell>)
    modifies costs, reached
    requires s >= 1 && State(costs, reached, queue0, dist0, parent0, ship, wind, budget, s, prev)
    requires p in dist0 && dist0[p] <= c && Adj(SquareWind(wind), p, n)
    ensures State(costs, reached, queue, dist, parent, ship, wind, budget, s, prev)
    ensures Relaxation(dist0, queue0, dist, queue, wind, budget, p, c, n)
  {
    queue, dist, parent := queue0, dist0, parent0;
    assert SquareGrid.OnBoard(n) && Cell(n.row, n.col) == n;
    var moveCost := SquareGrid.MoveCost(wind, p, n);
    var newCost := c + moveCost;
    if newCost <= budget && Below(newCost, costs[n.row, n.col]) {
      RelaxTable(dist, parent, queue, ship, wind, budget, p, c, n, newCost);
      Record(costs, reached, ship, s, n, newCost, dist, prev);
      queue := queue + [OffsetBoard.Entry(n, newCost)];
      dist, parent := dist[n := newCost], parent[n := p];
    }
  }

  /** The neighbours already looked at stay handled as prices only fall. */
  lemma CoverStep(adj: seq<Cell>, k: nat, wind: Wind, budget: int, p: Cell, c: nat, dist1: map<Cell, nat>, dist: map<Cell, nat>)
    requires k < |adj|
    requires forall j :: 0 <= j < k ==> Handled(dist1, p, c, adj[j], wind, budget)
    requires forall x :: x in dist1 ==> x in dist && dist[x] <= dist1[x]
    requires Handled(dist, p, c, adj[k], wind, budget)
    ensures forall j :: 0 <= j < k + 1 ==> Handled(dist, p, c, adj[j], wind, budget)
  {
  }

  /** After a relaxation the neighbour is handled, and the dequeued cell's own price is untouched. */
  lemma RelaxHandled(dist0: map<Cell, nat>, dist: map<Cell, nat>, queue0: seq<Entry>, queue: seq<Entry>,
                     wind: Wind, budget: int, p: Cell, c: nat, n: Cell)
    requires p in dist0 && Adj(SquareWind(wind), p, n)
    requires Relaxation(dist0, queue0, dist, queue, wind, budget, p, c, n)
    ensures Handled(dist, p, c, n, wind, budget)
    ensures p in dist && dist[p] == dist0[p]
    ensures Lowered(dist0, queue0, dist, queue, budget)
  {
    var v := c + Weight(SquareWind(wind), p, n);
    if v <= budget && (n !in dist0 || v < dist0[n]) {
      RelaxLowered(dist0, queue0, budget, n, v);
    } else {
      LoweredRefl(dist0, queue0, budget);
    }
  }

  /** One turn of the inner `for`: relax the `k`-th neighbour, keeping what the loop knows. */
  method Visit(costs: array2<Option<nat>>, reached: array2<nat>, ship: Cell, wind: Wind, budget: int, s: nat,
               p: Cell, c: nat, adj: seq<Cell>, k: nat, ghost queue0: seq<Entry>, ghost dist0: map<Cell, nat>,
               queue1: seq<Entry>, ghost dist1: map<Cell, nat>, ghost parent1: map<Cell, Cell>, ghost prev: map<Cell, nat>)
    returns (queue: seq<Entry>, ghost dist: map<Cell, nat>, ghost parent: map<Cell, Cell>)
    modifies costs, reached
    requires k < |adj| && Adj(SquareWind(wind), p, adj[k])
    requires s >= 1 && State(costs, reached, queue1, dist1, parent1, ship, wind, budget, s, prev)
    requires Lowered(dist0, queue0, dist1, queue1, budget)
    requires p in dist0 && dist0[p] <= c && p in dist1 && dist1[p] == dist0[p]
    requires forall j :: 0 <= j < k ==> Handled(dist1, p, c, adj[j], wind, budget)
    ensures State(costs, reached, queue, dist, parent, ship, wind, budget, s, prev)
    ensures Lowered(dist0, queue0, dist, queue, budget)
    ensures p in dist && dist[p] == dist0[p]
    ensures forall j :: 0 <= j < k + 1 ==> Handled(dist, p, c, adj[j], wind, budget)
  {
    queue, dist, parent := Relax(costs, reached, ship, wind, budget, s, p, c, adj[k], queue1, dist1, parent1, prev);
    RelaxHandled(dist1, dist, queue1, queue, wind, budget, p, c, adj[k]);
    LoweredTrans(dist0, queue0, dist1, queue1, dist, queue, budget);
    CoverStep(adj, k, wind, budget, p, c, dist1, dist);
  }

  /** The inner `for` of the search over the neighbour list `adj` of `p`. */
  method Expand(costs: array2<Option<nat>>, reached: array2<nat>, ship: Cell, wind: Wind, budget: int, s: nat,
                p: Cell, c: nat, adj: seq<Cell>, queue0: seq<Entry>,
                ghost dist0: map<Cell, nat>, ghost parent0: map<Cell, Cell>, ghost prev: map<Cell, nat>)
    returns (queue: seq<Entry>, ghost dist: map<Cell, nat>, ghost parent: map<Cell, Cell>)
    modifies costs, reached
    requires s >= 1 && State(costs, reached, queue0, dist0, parent0, ship, wind, budget, s, prev)
    requires p in dist0 && dist0[p] <= c
    requires forall j :: 0 <= j < |adj| ==> Adj(SquareWind(wind), p, adj[j])
    ensures State(costs, reached, queue, dist, parent, ship, wind, budget, s, prev)
    ensures Lowered(dist0, queue0, dist, queue, budget)
    ensures p in dist && dist[p] == dist0[p]
    ensures forall j :: 0 <= j < |adj| ==> Handled(dist, p, c, adj[j], wind, budget)
  {
    queue, dist, parent := queue0, dist0, parent0;
    LoweredRefl(dist, queue, budget);
    for k := 0 to |adj|
      invariant State(costs, reached, queue, dist, parent, ship, wind, budget, s, prev)
      invariant Lowered(dist0, queue0, dist, queue, budget)
      invariant p in dist && dist[p] == dist0[p]
      invariant forall j :: 0 <= j < k ==> Handled(dist, p, c, adj[j], wind, budget)
    {
      queue, dist, parent := Visit(costs, reached, ship, wind, budget, s, p, c, adj, k, queue0, dist0, queue, dist, parent, prev);
    }
  }

  /** getAdjacent lists only neighbours. */
  lemma AdjacentAreAdj(wind: Wind, p: Cell)
    ensures forall j :: 0 <= j < |SquareGrid.Adjacent(p)| ==> Adj(SquareWind(wind), p, SquareGrid.Adjacent(p)[j])
  {
    forall j | 0 <= j < |SquareGrid.Adjacent(p)| ensures Adj(SquareWind(wind), p, SquareGrid.Adjacent(p)[j]) {
      SquareGrid.AdjacentIffTouches(p, SquareGrid.Adjacent(p)[j]);
    }
  }

  /** A cell expanded at its own price, with all its listed neighbours handled, is relaxed. */
  lemma CoveredRelaxed(dist: map<Cell, nat>, p: Cell, adj: seq<Cell>, wind: Wind, budget: int)
    requires p in dist && adj == SquareGrid.Adjacent(p)
    requires forall j :: 0 <= j < |adj| ==> Handled(dist, p, dist[p], adj[j], wind, budget)
    ensures Relaxed(dist, p, wind, budget)
  {
    forall n | Adj(SquareWind(wind), p, n) ensures Handled(dist, p, dist[p], n, wind, budget) {
      SquareGrid.AdjacentIffTouches(p, n);
      var j :| 0 <= j < |adj| && adj[j] == n;
    }
  }

  /** Lower prices elsewhere keep a cell relaxed. */
  lemma RelaxedLowered(dist0: map<Cell, nat>, dist: map<Cell, nat>, q: Cell, wind: Wind, budget: int)
    requires q in dist0 && Relaxed(dist0, q, wind, budget)
    requires forall x :: x in dist0 ==> x in dist && dist[x] <= dist0[x]
    requires dist[q] == dist0[q]
    ensures Relaxed(dist, q, wind, budget)
  {
    forall n | Adj(SquareWind(wind), q, n) ensures Handled(dist, q, dist[q], n, wind, budget) {
      assert Handled(dist0, q, dist0[q], n, wind, budget);
    }
  }

  /** Dropping the front of the queue keeps its entries sound. */
  lemma PopState(costs: array2<Option<nat>>, reached: array2<nat>, queue0: seq<Entry>, dist: map<Cell, nat>,
                 parent: map<Cell, Cell>, ship: Cell, wind: Wind, budget: int, s: nat, prev: map<Cell, nat>)
    requires State(costs, reached, queue0, dist, parent, ship, wind, budget, s, prev) && queue0 != []
    ensures State(costs, reached, queue0[1..], dist, parent, ship, wind, budget, s, prev)
    ensures queue0[0].cell in dist && dist[queue0[0].cell] <= queue0[0].dist
  {
    assert forall i :: 0 <= i < |queue0| - 1 ==> queue0[1..][i] == queue0[i + 1];
  }

  /** After expanding the front entry, every priced cell is again queued at its price or relaxed. */
  lemma RoundPending(queue0: seq<Entry>, dist0: map<Cell, nat>, queue: seq<Entry>, dist: map<Cell, nat>,
                     adj: seq<Cell>, wind: Wind, budget: int)
    requires Pending(queue0, dist0, wind, budget) && queue0 != []
    requires queue0[0].cell in dist0 && adj == SquareGrid.Adjacent(queue0[0].cell)
    requires Lowered(dist0, queue0[1..], dist, queue, budget)
    requires queue0[0].cell in dist && dist[queue0[0].cell] == dist0[queue0[0].cell]
    requires forall j :: 0 <= j < |adj| ==> Handled(dist, queue0[0].cell, queue0[0].dist, adj[j], wind, budget)
    ensures Pending(queue, dist, wind, budget)
  {
    var e := queue0[0];
    var tail := queue0[1..];
    forall q | q in dist ensures OffsetBoard.Entry(q, dist[q]) in queue || Relaxed(dist, q, wind, budget) {
      if q in dist0 && dist[q] == dist0[q] {
        var f := OffsetBoard.Entry(q, dist0[q]);
        if f in queue0 {
          if f == e {
            CoveredRelaxed(dist, q, adj, wind, budget);
          } else {
            var i :| 0 <= i < |queue0| && queue0[i] == f;
            assert tail[i - 1] == f;
            assert queue[i - 1] == f;
          }
        } else {
          RelaxedLowered(dist0, dist, q, wind, budget);
        }
      }
    }
  }

  /** One turn of the `while`: dequeue the front entry and relax all the neighbours of its cell. */
  method Round(costs: array2<Option<nat>>, reached: array2<nat>, ship: Cell, wind: Wind, budget: int, s: nat,
               queue0: seq<Entry>, ghost dist0: map<Cell, nat>, ghost parent0: map<Cell, Cell>, ghost prev: map<Cell, nat>)
    returns (queue: seq<Entry>, ghost dist: map<Cell, nat>, ghost parent: map<Cell, Cell>)
    modifies costs, reached
    requires s >= 1 && State(costs, reached, queue0, dist0, parent0, ship, wind, budget, s, prev)
    requires Pending(queue0, dist0, wind, budget) && queue0 != []
    ensures State(costs, reached, queue, dist, parent, ship, wind, budget, s, prev)
    ensures Pending(queue, dist, wind, budget)
    ensures Slack(dist, budget) < Slack(dist0, budget) || (Slack(dist, budget) == Slack(dist0, budget) && |queue| < |queue0|)
  {
    var e := queue0[0];
    PopState(costs, reached, queue0, dist0, parent0, ship, wind, budget, s, prev);
    var adj := SquareGrid.GetAdjacent(e.cell.row, e.cell.col);
    assert Cell(e.cell.row, e.cell.col) == e.cell;
    AdjacentAreAdj(wind, e.cell);
    queue, dist, parent := Expand(costs, reached, ship, wind, budget, s, e.cell, e.dist, adj, queue0[1..], dist0, parent0, prev);
    RoundPending(queue0, dist0, queue, dist, adj, wind, budget);
  }

  /** An empty queue leaves every priced cell relaxed, so the table is the least prices within the budget. */
  lemma Drained(dist: map<Cell, nat>, parent: map<Cell, Cell>, ship: Cell, wind: Wind, budget: int)
    requires Table(dist, parent, ship, wind, budget) && Pending([], dist, wind, budget)
    ensures forall x :: x in dist <==> Reachable(SquareWind(wind), ship, x, budget)
    ensures forall x :: x in dist ==> IsLeastCost(SquareWind(wind), ship, x, dist[x])
  {
    forall p, n | p in dist && Adj(SquareWind(wind), p, n)
      ensures dist[p] + Weight(SquareWind(wind), p, n) > budget || (n in dist && dist[n] <= dist[p] + Weight(SquareWind(wind), p, n))
    {
      assert Relaxed(dist, p, wind, budget);
      assert Handled(dist, p, dist[p], n, wind, budget);
    }
    assert Closed(SquareWind(wind), dist, budget);
    forall x ensures x in dist <==> Reachable(SquareWind(wind), ship, x, budget) {
      Exact(SquareWind(wind), ship, dist, parent, budget, x);
    }
    forall x | x in dist ensures IsLeastCost(SquareWind(wind), ship, x, dist[x]) {
      Exact(SquareWind(wind), ship, dist, parent, budget, x);
    }
  }

  /**
   * The search of one step `s` with a budget of `budget` quarters: a fresh
   * `costs` grid, the ship queued at price 0, and rounds until the queue
   * is empty. It ends with the least price of every cell within the
   * budget, and `stepReached` holds `s` for the newly priced tiles.
   */
  method Reach(reached: array2<nat>, ship: Cell, wind: Wind, budget: int, s: nat, ghost prev: map<Cell, nat>)
    returns (ghost dist: map<Cell, nat>)
    modifies reached
    requires SquareGrid.OnBoard(ship) && budget >= 0 && s >= 1
    requires Marks(reached, prev, map[ship := 0], ship, s)
    ensures Marks(reached, prev, dist, ship, s)
    ensures forall x :: x in dist <==> Reachable(SquareWind(wind), ship, x, budget)
    ensures forall x :: x in dist ==> IsLeastCost(SquareWind(wind), ship, x, dist[x])
  {
    var costs := new Option<nat>[21, 21]((_, _) => None);
    costs[ship.row, ship.col] := Some(0);
    var queue := [OffsetBoard.Entry(ship, 0)];
    dist := map[ship := 0];
    ghost var parent: map<Cell, Cell> := map[];
    assert Cell(ship.row, ship.col) == ship;
    while queue != []
      invariant State(costs, reached, queue, dist, parent, ship, wind, budget, s, prev)
      invariant Pending(queue, dist, wind, budget)
      decreases Slack(dist, budget), |queue|
    {
      queue, dist, parent := Round(costs, reached, ship, wind, budget, s, queue, dist, parent, prev);
    }
    Drained(dist, parent, ship, wind, budget);
  }

  /**
   * `newCost <= moveVal * s` for a price of `q` quarters holds exactly when
   * `q` is at most the whole quarters of `moveVal * s` points.
   */
  function Budget(move: real, s: int): int {
    (4.0 * (move * (s as real))).Floor
  }

  /** The budget is the largest whole number of quarters within `moveVal * s` points. */
  lemma BudgetBounds(move: real, s: int)
    ensures (Budget(move, s) as real) <= 4.0 * (move * (s as real)) < (Budget(move, s) as real) + 1.0
  {
  }

  lemma BudgetMeaning(move: real, s: int, q: nat)
    ensures (q as real) / 4.0 <= move * (s as real) <==> q <= Budget(move, s)
  {
    BudgetBounds(move, s);
  }

  /** A positive move gives a budget of at least 0 quarters, never smaller at a later step. */
  lemma BudgetMonotone(move: real, s: int, t: int)
    requires move > 0.0 && 1 <= s <= t
    ensures 0 <= Budget(move, s) <= Budget(move, t)
  {
    BudgetBounds(move, s);
    BudgetBounds(move, t);
    var ms, mt := move * (s as real), move * (t as real);
    assert mt - ms == move * ((t - s) as real);
    assert move * ((t - s) as real) >= 0.0;
    assert ms > 0.0;
  }

  /** The value `stepReached` holds for tile `x` after the searches of steps 1 to `s`. */
  ghost function FirstStep(ship: Cell, wind: Wind, move: real, x: Cell, s: int): nat
    decreases s
  {
    if s <= 0 then 0
    else NewMark(FirstStep(ship, wind, move, x, s - 1), x != ship && Reachable(SquareWind(wind), ship, x, Budget(move, s)), s)
  }

  /**
   * The mark of a tile is the first step whose budget reaches it: 0 for the
   * ship and for tiles out of reach at step `s`, and otherwise a step `t`
   * up to `s` that reaches it while step `t - 1` does not.
   */
  lemma {:induction false} FirstStepSpec(ship: Cell, wind: Wind, move: real, x: Cell, s: int)
    requires move > 0.0
    ensures FirstStep(ship, wind, move, x, s) == 0 <==> x == ship || s < 1 || !Reachable(SquareWind(wind), ship, x, Budget(move, s))
    ensures var t := FirstStep(ship, wind, move, x, s);
      t != 0 ==> && 1 <= t <= s && x != ship
                 && Reachable(SquareWind(wind), ship, x, Budget(move, t))
                 && (t > 1 ==> !Reachable(SquareWind(wind), ship, x, Budget(move, t - 1)))
    decreases s
  {
    if s >= 1 {
      var before := FirstStep(ship, wind, move, x, s - 1);
      FirstStepSpec(ship, wind, move, x, s - 1);
      if before != 0 {
        BudgetMonotone(move, before, s);
        ReachableMonotone(SquareWind(wind), ship, x, Budget(move, before), Budget(move, s));
      }
    }
  }

  /** Reachability only grows from one step to the next, whatever budgets the moves give. */
  lemma ReachedLater(ship: Cell, wind: Wind, move: real, x: Cell, s: int)
    requires move > 0.0 && s >= 1
    requires Reachable(SquareWind(wind), ship, x, Budget(move, s))
    ensures Reachable(SquareWind(wind), ship, x, Budget(move, s + 1))
  {
    BudgetMonotone(move, s, s + 1);
    ReachableMonotone(SquareWind(wind), ship, x, Budget(move, s), Budget(move, s + 1));
  }

  /** `stepReached` after the searches of steps 1 to `s`. */
  ghost predicate Progress(reached: array2<nat>, ship: Cell, wind: Wind, move: real, s: int)
    reads reached
  {
    && reached.Length0 == 21 && reached.Length1 == 21
    && forall r, c :: 0 <= r < 21 && 0 <= c < 21 ==> reached[r, c] == FirstStep(ship, wind, move, Cell(r, c), s)
  }

  /** Before a step's search only the ship has a price, and the ship is never marked, so nothing changed yet. */
  lemma StartMarks(reached: array2<nat>, prev: map<Cell, nat>, ship: Cell, s: nat)
    requires reached.Length0 == 21 && reached.Length1 == 21
    requires forall r, c :: 0 <= r < 21 && 0 <= c < 21 ==> Cell(r, c) in prev && prev[Cell(r, c)] == reached[r, c]
    ensures Marks(reached, prev, map[ship := 0], ship, s)
  {
  }

  /** A finished search of step `s` prices exactly what its budget reaches, which turns the marks into those of step `s`. */
  lemma NextMarks(reached: array2<nat>, prev: map<Cell, nat>, dist: map<Cell, nat>, ship: Cell, wind: Wind, move: real, s: int)
    requires s >= 1 && Marks(reached, prev, dist, ship, s)
    requires forall r, c :: 0 <= r < 21 && 0 <= c < 21 ==> Cell(r, c) in prev && prev[Cell(r, c)] == FirstStep(ship, wind, move, Cell(r, c), s - 1)
    requires forall x :: x in dist <==> Reachable(SquareWind(wind), ship, x, Budget(move, s))
    ensures Progress(reached, ship, wind, move, s)
  {
    forall r, c | 0 <= r < 21 && 0 <= c < 21 ensures reached[r, c] == FirstStep(ship, wind, move, Cell(r, c), s) {
      var x := Cell(r, c);
      assert x in dist <==> Reachable(SquareWind(wind), ship, x, Budget(move, s));
    }
  }

  /**
   * The `for s` loop of updateMovementRange: a fresh `stepReached` of
   * zeros, then the search of every step from 1 to `steps`.
   */
  method StepsReached(ship: Cell, wind: Wind, move: real, steps: int) returns (reached: array2<nat>)
    requires SquareGrid.OnBoard(ship) && move > 0.0 && steps >= 0
    ensures fresh(reached)
    ensures Progress(reached, ship, wind, move, steps)
  {
    reached := new nat[21, 21]((_, _) => 0);
    for s := 1 to steps + 1
      invariant Progress(reached, ship, wind, move, s - 1)
    {
      ghost var prev := map x | x in OffsetBoard.Grid :: reached[x.row, x.col];
      assert forall r, c :: 0 <= r < 21 && 0 <= c < 21 ==> Cell(r, c) in OffsetBoard.Grid;
      StartMarks(reached, prev, ship, s);
      BudgetMonotone(move, s, s);
      ghost var dist := Reach(reached, ship, wind, Budget(move, s), s, prev);
      NextMarks(reached, prev, dist, ship, wind, move, s);
    }
  }

  /** The last double loop: the tiles with a mark, and each such tile with its `step-s` class. */
  method Highlight(reached: array2<nat>) returns (tiles: set<Cell>, marks: set<(Cell, int)>)
    requires reached.Length0 == 21 && reached.Length1 == 21
    ensures forall x :: x in tiles <==> SquareGrid.OnBoard(x) && reached[x.row, x.col] > 0
    ensures forall x, t :: (x, t) in marks <==> SquareGrid.OnBoard(x) && reached[x.row, x.col] > 0 && t == reached[x.row, x.col]
  {
    tiles, marks := {}, {};
    for r := 0 to 21
      invariant forall x :: x in tiles <==> SquareGrid.OnBoard(x) && x.row < r && reached[x.row, x.col] > 0
      invariant forall x, t :: (x, t) in marks <==> SquareGrid.OnBoard(x) && x.row < r && reached[x.row, x.col] > 0 && t == reached[x.row, x.col]
    {
      for c := 0 to 21
        invariant forall x :: x in tiles <==>
          SquareGrid.OnBoard(x) && (x.row < r || (x.row == r && x.col < c)) && reached[x.row, x.col] > 0
        invariant forall x, t :: (x, t) in marks <==>
          SquareGrid.OnBoard(x) && (x.row < r || (x.row == r && x.col < c)) && reached[x.row, x.col] > 0 && t == reached[x.row, x.col]
      {
        var step := reached[r, c];
        if step > 0 {
          tiles := tiles + {Cell(r, c)};
          marks := marks + {(Cell(r, c), step)};
        }
      }
    }
  }

  /** The check updateMovementRange makes of the parsed move: a number, and positive. */
  predicate PositiveReal(v: Option<real>) {
    v.Some? && v.value > 0.0
  }

  /** The check updateMovementRange makes of the parsed step count: a number, and positive. */
  predicate PositiveInt(v: Option<int>) {
    v.Some? && v.value > 0
  }

  /** clearMovementRange removes the classes `step-1` to `step-5` only; marks of other steps stay. */
  function Kept(marks: set<(Cell, int)>): set<(Cell, int)> {
    set m | m in marks && !(1 <= m.1 <= 5)
  }

  /**
   * The Board2 object: ship position, selected wind, the parsed "Ruch"
   * (parseFloat, None for NaN) and "Kroki" (parseInt) inputs, the tiles
   * with the `movement-range` class and the `step-s` classes as pairs
   * (tile, s). `drawn` records the marks the last update drew.
   */
  class Board2 {
    var ship: Cell
    var selectedWind: Wind
    var move: Option<real>
    var step: Option<int>
    var rangeTiles: set<Cell>
    var stepMarks: set<(Cell, int)>
    ghost var drawn: set<(Cell, int)>

    /** The ship stands on a tile. */
    predicate Valid()
      reads this
    {
      SquareGrid.OnBoard(ship)
    }

    /** What the last update drew for the current fields: every tile with its first step, if it has one. */
    ghost predicate Shown()
      reads this
    {
      if PositiveReal(move) && PositiveInt(step) then
        && (forall x :: x in rangeTiles <==> SquareGrid.OnBoard(x) && FirstStep(ship, selectedWind, move.value, x, step.value) > 0)
        && (forall x, t :: (x, t) in drawn <==>
              SquareGrid.OnBoard(x) && t > 0 && t == FirstStep(ship, selectedWind, move.value, x, step.value))
      else rangeTiles == {} && drawn == {}
    }

    /** The page as it loads: ship on the middle tile, no wind, move 2, one step, first range drawn. */
    constructor()
      ensures Valid() && Shown()
      ensures ship == Cell(10, 10) && selectedWind == Calm
      ensures move == Some(2.0) && step == Some(1)
      ensures stepMarks == drawn
    {
      ship := Cell(21 / 2, 21 / 2);
      selectedWind := Calm;
      move, step := Some(2.0), Some(1);
      rangeTiles, stepMarks, drawn := {}, {}, {};
      new;
      UpdateMovementRange();
    }

    /**
     * updateMovementRange: clear the highlights; for valid inputs run the
     * search of every step `s` from 1 to the step value, recording first
     * steps in `stepReached`, then highlight every tile with a mark.
     */
    method UpdateMovementRange()
      modifies this
      requires Valid()
      ensures Valid() && Shown()
      ensures ship == old(ship) && selectedWind == old(selectedWind) && move == old(move) && step == old(step)
      ensures stepMarks == Kept(old(stepMarks)) + drawn
      ensures forall m :: m in stepMarks && 1 <= m.1 <= 5 ==> m in drawn
      ensures forall m :: m in old(stepMarks) && !(1 <= m.1 <= 5) ==> m in stepMarks
    {
      rangeTiles := {};
      stepMarks := Kept(stepMarks);
      drawn := {};
      if !PositiveReal(move) || !PositiveInt(step) {
        return;
      }
      var reached := StepsReached(ship, selectedWind, move.value, step.value);
      var tiles, marks := Highlight(reached);
      rangeTiles, drawn := tiles, marks;
      stepMarks := stepMarks + marks;
    }

    /** A tile click moves the ship there and redraws. */
    method ClickTile(r: int, c: int)
      modifies this
      requires Valid() && SquareGrid.OnBoard(Cell(r, c))
      ensures Valid() && Shown()
      ensures ship == Cell(r, c) && selectedWind == old(selectedWind) && move == old(move) && step == old(step)
      ensures stepMarks == Kept(old(stepMarks)) + drawn
    {
      ship := Cell(r, c);
      UpdateMovementRange();
    }

    /** A wind button click selects the wind and redraws. */
    method SelectWind(wind: Wind)
      modifies this
      requires Valid()
      ensures Valid() && Shown()
      ensures selectedWind == wind && ship == old(ship) && move == old(move) && step == old(step)
      ensures stepMarks == Kept(old(stepMarks)) + drawn
    {
      selectedWind := wind;
      UpdateMovementRange();
    }

    /** The `input` listener of "Ruch". */
    method EditMove(value: Option<real>)
      modifies this
      requires Valid()
      ensures Valid() && Shown()
      ensures move == value && ship == old(ship) && selectedWind == old(selectedWind) && step == old(step)
      ensures stepMarks == Kept(old(stepMarks)) + drawn
    {
      move := value;
      UpdateMovementRange();
    }

    /** The `input` listener of "Kroki". */
    method EditStep(value: Option<int>)
      modifies this
      requires Valid()
      ensures Valid() && Shown()
      ensures step == value && ship == old(ship) && selectedWind == old(selectedWind) && move == old(move)
      ensures stepMarks == Kept(old(stepMarks)) + drawn
    {
      step := value;
      UpdateMovementRange();
    }
  }
}
