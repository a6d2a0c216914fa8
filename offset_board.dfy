/**
 * board.js: the offset board with a unit-cost breadth-first search from
 * the middle tile. The search marks a cell visited when it is queued, so
 * each cell is queued once, and it stops expanding at the budget.
 */
module OffsetBoard {
  import opened Compass
  import OffsetGrid
  import opened Paths

  /** `Math.floor(numRows / 2)` and the fixed middle column of a 21-tile row. */
  const MidRow: int := 10
  const MidCol: int := 10

  /** One queue element `[r, c, dist]`. */
  datatype Entry = Entry(cell: Cell, dist: nat)

  /** Every cell of the 21 x 21 index space that the `visited` rows cover. */
  ghost const Grid: set<Cell> := set r, c | 0 <= r < 21 && 0 <= c < 21 :: Cell(r, c)

  /** The visited flags are exactly the cells that have a distance, all on the board. */
  ghost predicate Tracks(visited: array2<bool>, dist: map<Cell, nat>)
    reads visited
  {
    && visited.Length0 == 21 && visited.Length1 == 21
    && (forall x :: x in dist ==> OffsetGrid.OnBoard(x))
    && forall r, c {:trigger visited[r, c]} :: 0 <= r < 21 && 0 <= c < 21 ==> (visited[r, c] <==> Cell(r, c) in dist)
  }

  /** Setting the flag of a cell as it gets its distance keeps the flags in step with the table. */
  method Mark(visited: array2<bool>, ghost dist: map<Cell, nat>, n: Cell, ghost v: nat)
    modifies visited
    requires Tracks(visited, dist) && OffsetGrid.OnBoard(n)
    ensures Tracks(visited, dist[n := v])
  {
    visited[n.row, n.col] := true;
  }

  /**
   * The queue holds the cells queued after the first `head`, each with its
   * distance; every queued cell has a distance and, the cells being
   * distinct, there are no other distances.
   */
  ghost predicate QueueIs(queue: seq<Entry>, order: seq<Cell>, head: nat, dist: map<Cell, nat>) {
    && head + |queue| == |order|
    && |dist| == |order|
    && (forall i :: 0 <= i < |order| ==> order[i] in dist)
    && forall i :: 0 <= i < |queue| ==> queue[i].cell == order[head + i] && queue[i] == Entry(queue[i].cell, dist[queue[i].cell])
  }

  /** A dequeued cell has either used up the budget or handed every neighbour a distance at most one more. */
  ghost predicate Settled(dist: map<Cell, nat>, p: Cell, movement: int)
    requires p in dist
  {
    dist[p] >= movement || forall n :: Adj(Hops, p, n) ==> n in dist && dist[n] <= dist[p] + 1
  }

  /** Queue distances never go down, and span at most `lo` to `lo + 1`. */
  ghost predicate Layered(queue: seq<Entry>, lo: int) {
    && (forall i, j :: 0 <= i <= j < |queue| ==> queue[i].dist <= queue[j].dist)
    && forall i :: 0 <= i < |queue| ==> lo <= queue[i].dist <= lo + 1
  }

  /** Every distance is at most `bound`. */
  ghost predicate AllAtMost(dist: map<Cell, nat>, bound: int) {
    forall x :: x in dist ==> dist[x] <= bound
  }

  /** What the search keeps of its table throughout. */
  ghost predicate Table(order: seq<Cell>, dist: map<Cell, nat>, parent: map<Cell, Cell>, start: Cell, movement: int) {
    && Distinct(order)
    && LooseTree(Hops, start, dist, parent)
    && (forall x :: x in dist ==> OffsetGrid.OnBoard(x))
    && forall x :: x in dist && x != start ==> dist[x] <= movement
  }

  /** The search state between two rounds of the inner `for`, at queue distance `d`. */
  ghost predicate Search(visited: array2<bool>, queue: seq<Entry>, order: seq<Cell>, head: nat,
                         dist: map<Cell, nat>, parent: map<Cell, Cell>, start: Cell, movement: int, d: nat)
    reads visited
  {
    && Tracks(visited, dist) && QueueIs(queue, order, head, dist) && Table(order, dist, parent, start, movement)
    && Layered(queue, d) && AllAtMost(dist, d + 1)
  }

  /** A later state only adds to an earlier one: old distances stay, the order grows at its end, and the queue changes only with new distances. */
  ghost predicate Grown(dist0: map<Cell, nat>, order0: seq<Cell>, queue0: seq<Entry>, dist: map<Cell, nat>, order: seq<Cell>, queue: seq<Entry>) {
    && (forall x :: x in dist0 ==> x in dist && dist[x] == dist0[x])
    && |order0| <= |order| && order[..|order0|] == order0
    && (dist.Keys == dist0.Keys ==> queue == queue0)
  }

  lemma GrownRefl(dist: map<Cell, nat>, order: seq<Cell>, queue: seq<Entry>)
    ensures Grown(dist, order, queue, dist, order, queue)
  {
    assert order[..|order|] == order;
  }

  lemma GrownTrans(dist0: map<Cell, nat>, order0: seq<Cell>, queue0: seq<Entry>,
                   dist1: map<Cell, nat>, order1: seq<Cell>, queue1: seq<Entry>,
                   dist: map<Cell, nat>, order: seq<Cell>, queue: seq<Entry>)
    requires Grown(dist0, order0, queue0, dist1, order1, queue1) && Grown(dist1, order1, queue1, dist, order, queue)
    ensures Grown(dist0, order0, queue0, dist, order, queue)
  {
    assert order[..|order0|] == order1[..|order0|];
  }

  /** Appending a new cell with its distance keeps queue and order in step. */
  lemma PushQueue(queue: seq<Entry>, order: seq<Cell>, head: nat, dist: map<Cell, nat>, n: Cell, v: nat)
    requires QueueIs(queue, order, head, dist) && n !in dist
    ensures QueueIs(queue + [Entry(n, v)], order + [n], head, dist[n := v])
  {
    var q, o, di := queue + [Entry(n, v)], order + [n], dist[n := v];
    forall i | 0 <= i < |q| ensures q[i].cell == o[head + i] && q[i] == Entry(q[i].cell, di[q[i].cell]) {
      if i < |queue| {
        assert q[i] == queue[i] && o[head + i] == order[head + i];
      }
    }
    forall i | 0 <= i < |o| ensures o[i] in di {
      if i < |order| {
        assert o[i] == order[i];
      }
    }
  }

  /** A cell without a distance is not yet in a distinct order whose cells all have one. */
  lemma PushDistinct(order: seq<Cell>, dist: map<Cell, nat>, n: Cell)
    requires Distinct(order) && (forall i :: 0 <= i < |order| ==> order[i] in dist) && n !in dist
    ensures Distinct(order + [n]) && (order + [n])[..|order|] == order
  {
    var o := order + [n];
    forall i, j | 0 <= i < j < |o| ensures o[i] != o[j] {
      if j == |order| {
        assert o[i] == order[i] && order[i] in dist;
      } else {
        assert o[i] == order[i] && o[j] == order[j];
      }
    }
    assert o[..|order|] == order;
  }

  /** Queuing an unvisited neighbour of `p` one hop further keeps the search's invariant. */
  lemma PushKeeps(queue: seq<Entry>, order: seq<Cell>, head: nat, dist: map<Cell, nat>, parent: map<Cell, Cell>, start: Cell, movement: int,
                  p: Cell, d: nat, n: Cell)
    requires QueueIs(queue, order, head, dist) && Table(order, dist, parent, start, movement) && Layered(queue, d) && AllAtMost(dist, d + 1)
    requires p in dist && dist[p] == d && d < movement
    requires Adj(Hops, p, n) && n !in dist
    ensures n != start
    ensures QueueIs(queue + [Entry(n, d + 1)], order + [n], head, dist[n := d + 1]) && Table(order + [n], dist[n := d + 1], parent[n := p], start, movement)
    ensures Layered(queue + [Entry(n, d + 1)], d) && AllAtMost(dist[n := d + 1], d + 1)
    ensures Grown(dist, order, queue, dist[n := d + 1], order + [n], queue + [Entry(n, d + 1)])
  {
    PushQueue(queue, order, head, dist, n, d + 1);
    PushDistinct(order, dist, n);
    TreeGrows(Hops, start, dist, parent, p, n, d + 1);
  }

  /** One round of the inner `for`: queue `n` one hop further than `p` unless it is already visited. */
  method Visit(visited: array2<bool>, p: Cell, d: nat, movement: int, n: Cell,
               queue0: seq<Entry>, ghost dist0: map<Cell, nat>, ghost parent0: map<Cell, Cell>, ghost order0: seq<Cell>, ghost head: nat, ghost start: Cell)
    returns (queue: seq<Entry>, ghost dist: map<Cell, nat>, ghost parent: map<Cell, Cell>, ghost order: seq<Cell>)
    modifies visited
    requires Search(visited, queue0, order0, head, dist0, parent0, start, movement, d)
    requires p in dist0 && dist0[p] == d && d < movement && Adj(Hops, p, n)
    ensures Search(visited, queue, order, head, dist, parent, start, movement, d)
    ensures Grown(dist0, order0, queue0, dist, order, queue)
    ensures n in dist
  {
    queue, dist, parent, order := queue0, dist0, parent0, order0;
    GrownRefl(dist, order, queue);
    assert OffsetGrid.OnBoard(n) && Cell(n.row, n.col) == n;
    if !visited[n.row, n.col] {
      visited[n.row, n.col] := true;
      PushKeeps(queue, order, head, dist, parent, start, movement, p, d, n);
      queue, dist, parent, order := queue + [Entry(n, d + 1)], dist[n := d + 1], parent[n := p], order + [n];
    }
  }

  /** The prefix of `adj` already looked at stays covered when the table grows by the next one. */
  lemma CoverStep(adj: seq<Cell>, k: nat, dist1: map<Cell, nat>, dist: map<Cell, nat>)
    requires k < |adj|
    requires forall j :: 0 <= j < k ==> adj[j] in dist1
    requires forall x :: x in dist1 ==> x in dist
    requires adj[k] in dist
    ensures forall j :: 0 <= j < k + 1 ==> adj[j] in dist
  {
  }

  /**
   * The inner `for` of showMovementRange: queue every cell of `adj` not
   * yet visited, one hop further than `p`.
   */
  method Expand(visited: array2<bool>, p: Cell, adj: seq<Cell>, d: nat, movement: int,
                queue0: seq<Entry>, ghost dist0: map<Cell, nat>, ghost parent0: map<Cell, Cell>, ghost order0: seq<Cell>, ghost head: nat, ghost start: Cell)
    returns (queue: seq<Entry>, ghost dist: map<Cell, nat>, ghost parent: map<Cell, Cell>, ghost order: seq<Cell>)
    modifies visited
    requires Search(visited, queue0, order0, head, dist0, parent0, start, movement, d)
    requires p in dist0 && dist0[p] == d && d < movement
    requires forall j :: 0 <= j < |adj| ==> Adj(Hops, p, adj[j])
    ensures Search(visited, queue, order, head, dist, parent, start, movement, d)
    ensures Grown(dist0, order0, queue0, dist, order, queue)
    ensures forall j :: 0 <= j < |adj| ==> adj[j] in dist
  {
    queue, dist, parent, order := queue0, dist0, parent0, order0;
    GrownRefl(dist, order, queue);
    for k := 0 to |adj|
      invariant Search(visited, queue, order, head, dist, parent, start, movement, d)
      invariant p in dist && dist[p] == d
      invariant Grown(dist0, order0, queue0, dist, order, queue)
      invariant forall j :: 0 <= j < k ==> adj[j] in dist
    {
      ghost var queue1, order1, dist1 := queue, order, dist;
      queue, dist, parent, order := Visit(visited, p, d, movement, adj[k], queue, dist, parent, order, head, start);
      GrownTrans(dist0, order0, queue0, dist1, order1, queue1, dist, order, queue);
      CoverStep(adj, k, dist1, dist);
    }
  }

  /** Every cell of getAdjacent's list is one hop from `p`. */
  lemma AdjacentAreAdj(p: Cell)
    ensures forall j :: 0 <= j < |OffsetGrid.Adjacent(p.row, p.col)| ==> Adj(Hops, p, OffsetGrid.Adjacent(p.row, p.col)[j])
  {
    var adj := OffsetGrid.Adjacent(p.row, p.col);
    forall j | 0 <= j < |adj| ensures Adj(Hops, p, adj[j]) {
      OffsetGrid.AdjacentIffTouches(p, adj[j]);
    }
  }

  /** Once every cell of getAdjacent's list has a distance of at most one more, `p` is settled. */
  lemma CoveredSettles(p: Cell, dist: map<Cell, nat>, movement: int)
    requires p in dist && AllAtMost(dist, dist[p] + 1)
    requires forall j :: 0 <= j < |OffsetGrid.Adjacent(p.row, p.col)| ==> OffsetGrid.Adjacent(p.row, p.col)[j] in dist
    ensures Settled(dist, p, movement)
  {
    var adj := OffsetGrid.Adjacent(p.row, p.col);
    forall n | Adj(Hops, p, n) ensures n in dist && dist[n] <= dist[p] + 1 {
      OffsetGrid.AdjacentIffTouches(p, n);
      var j :| 0 <= j < |adj| && adj[j] == n;
    }
  }

  /** Taking the front of the queue moves `head` past it. */
  lemma PopKeeps(queue: seq<Entry>, order: seq<Cell>, head: nat, dist: map<Cell, nat>)
    requires QueueIs(queue, order, head, dist) && queue != []
    ensures head < |order| && order[head] == queue[0].cell && queue[0].cell in dist && dist[queue[0].cell] == queue[0].dist
    ensures QueueIs(queue[1..], order, head + 1, dist)
    ensures order[..head + 1] == order[..head] + [queue[0].cell]
  {
    var q := queue[1..];
    forall i | 0 <= i < |q| ensures q[i].cell == order[head + 1 + i] && q[i] == Entry(q[i].cell, dist[q[i].cell]) {
      assert q[i] == queue[i + 1];
    }
  }

  /** The rest of a layered queue is layered from the same distance. */
  lemma LayeredTail(queue: seq<Entry>, lo: int)
    requires Layered(queue, lo) && queue != []
    ensures Layered(queue[1..], lo)
  {
    var q := queue[1..];
    forall i | 0 <= i < |q| ensures q[i] == queue[i + 1] {
    }
  }

  /** A shorter sorted queue is layered from its own front. */
  lemma Relayer(queue: seq<Entry>, d: int)
    requires Layered(queue, d) && queue != []
    ensures Layered(queue, queue[0].dist) && d <= queue[0].dist
  {
  }

  /** Growing the table by new cells leaves every settled cell settled. */
  lemma SettledGrows(dist0: map<Cell, nat>, dist: map<Cell, nat>, ps: seq<Cell>, movement: int)
    requires forall x :: x in dist0 ==> x in dist && dist[x] == dist0[x]
    requires forall i :: 0 <= i < |ps| ==> ps[i] in dist0 && Settled(dist0, ps[i], movement)
    ensures forall i :: 0 <= i < |ps| ==> ps[i] in dist && Settled(dist, ps[i], movement)
  {
    forall i | 0 <= i < |ps| ensures ps[i] in dist && Settled(dist, ps[i], movement) {
      assert Settled(dist0, ps[i], movement);
    }
  }

  /** The state of the outer `while` after `head` dequeues, with `lit` the tiles highlighted so far. */
  ghost predicate Outer(visited: array2<bool>, queue: seq<Entry>, order: seq<Cell>, head: nat,
                        dist: map<Cell, nat>, parent: map<Cell, Cell>, start: Cell, movement: int, lit: set<Cell>)
    reads visited
  {
    && Tracks(visited, dist) && QueueIs(queue, order, head, dist) && Table(order, dist, parent, start, movement)
    && |order| >= 1 && order[0] == start
    && (queue != [] ==> Layered(queue, queue[0].dist) && AllAtMost(dist, queue[0].dist + 1))
    && (forall i :: 0 <= i < head ==> Settled(dist, order[i], movement))
    && forall x :: x in lit <==> x in order[..head] && x != start && dist[x] <= movement
  }

  /** Dequeuing `e` and adding it to the highlight when it is in range keeps the highlight faithful. */
  lemma LitStep(order: seq<Cell>, head: nat, dist: map<Cell, nat>, start: Cell, movement: int, lit0: set<Cell>, lit: set<Cell>, cell: Cell)
    requires head < |order| && order[head] == cell && cell in dist
    requires forall i :: 0 <= i < |order| ==> order[i] in dist
    requires forall x :: x in lit0 <==> x in order[..head] && x != start && dist[x] <= movement
    requires lit == if cell != start && dist[cell] <= movement then lit0 + {cell} else lit0
    ensures forall x :: x in lit <==> x in order[..head + 1] && x != start && dist[x] <= movement
  {
    assert order[..head + 1] == order[..head] + [cell];
  }

  /** The lit cells and settled cells, being in the dequeued prefix, survive the inner `for`. */
  lemma ExpandKeeps(order0: seq<Cell>, dist0: map<Cell, nat>, order: seq<Cell>, dist: map<Cell, nat>, head: nat,
                    start: Cell, movement: int, lit: set<Cell>)
    requires head <= |order0| <= |order| && order[..|order0|] == order0
    requires forall x :: x in dist0 ==> x in dist && dist[x] == dist0[x]
    requires forall i :: 0 <= i < |order0| ==> order0[i] in dist0
    requires forall i :: 0 <= i < head - 1 ==> Settled(dist0, order0[i], movement)
    requires forall x :: x in lit <==> x in order0[..head] && x != start && dist0[x] <= movement
    ensures forall i :: 0 <= i < head - 1 ==> order[i] in dist && Settled(dist, order[i], movement)
    ensures forall x :: x in lit <==> x in order[..head] && x != start && dist[x] <= movement
  {
    assert order[..head] == order0[..head];
    forall i | 0 <= i < head - 1 ensures order[i] in dist && Settled(dist, order[i], movement) {
      assert order[i] == order0[i];
      assert Settled(dist0, order0[i], movement);
    }
  }

  /** A table that only grows, on the board, leaves fewer cells of the index space without a distance when it grows at all. */
  lemma Shrinks(dist0: map<Cell, nat>, dist: map<Cell, nat>)
    requires forall x :: x in dist0 ==> x in dist
    requires forall x :: x in dist ==> OffsetGrid.OnBoard(x)
    ensures dist.Keys == dist0.Keys || Grid - dist.Keys < Grid - dist0.Keys
  {
    if dist.Keys != dist0.Keys {
      var n :| n in dist.Keys && n !in dist0.Keys;
      assert n in Grid;
    }
  }

  /** Taking the front of the queue leaves a search state at the front's distance. */
  lemma PopSearch(visited: array2<bool>, queue0: seq<Entry>, order0: seq<Cell>, head0: nat, dist0: map<Cell, nat>,
                  parent0: map<Cell, Cell>, start: Cell, movement: int, lit0: set<Cell>)
    requires Outer(visited, queue0, order0, head0, dist0, parent0, start, movement, lit0) && queue0 != []
    ensures head0 < |order0| && order0[head0] == queue0[0].cell
    ensures queue0[0].cell in dist0 && dist0[queue0[0].cell] == queue0[0].dist
    ensures Search(visited, queue0[1..], order0, head0 + 1, dist0, parent0, start, movement, queue0[0].dist)
  {
    PopKeeps(queue0, order0, head0, dist0);
    LayeredTail(queue0, queue0[0].dist);
  }

  /** A cell dequeued at or beyond the budget is settled without being expanded. */
  lemma SkipOuter(visited: array2<bool>, queue0: seq<Entry>, order0: seq<Cell>, head0: nat, dist0: map<Cell, nat>,
                  parent0: map<Cell, Cell>, start: Cell, movement: int, lit0: set<Cell>, lit: set<Cell>)
    requires Outer(visited, queue0, order0, head0, dist0, parent0, start, movement, lit0) && queue0 != []
    requires queue0[0].dist >= movement
    requires lit == if queue0[0].cell != start && queue0[0].dist <= movement then lit0 + {queue0[0].cell} else lit0
    ensures Outer(visited, queue0[1..], order0, head0 + 1, dist0, parent0, start, movement, lit)
  {
    PopKeeps(queue0, order0, head0, dist0);
    LayeredTail(queue0, queue0[0].dist);
    LitStep(order0, head0, dist0, start, movement, lit0, lit, queue0[0].cell);
    if queue0[1..] != [] {
      Relayer(queue0[1..], queue0[0].dist);
    }
  }

  /** After the inner `for` the expanded cell is settled and the outer state holds again. */
  lemma ExpandOuter(visited: array2<bool>, p: Cell, d: nat, order0: seq<Cell>, dist0: map<Cell, nat>, queue1: seq<Entry>, head: nat,
                    queue: seq<Entry>, order: seq<Cell>, dist: map<Cell, nat>, parent: map<Cell, Cell>, start: Cell, movement: int, lit: set<Cell>)
    requires Search(visited, queue, order, head, dist, parent, start, movement, d)
    requires Grown(dist0, order0, queue1, dist, order, queue)
    requires forall j :: 0 <= j < |OffsetGrid.Adjacent(p.row, p.col)| ==> OffsetGrid.Adjacent(p.row, p.col)[j] in dist
    requires 1 <= head <= |order0| && order0[head - 1] == p && p in dist0 && dist0[p] == d
    requires |order0| >= 1 && order0[0] == start
    requires forall i :: 0 <= i < |order0| ==> order0[i] in dist0
    requires forall i :: 0 <= i < head - 1 ==> Settled(dist0, order0[i], movement)
    requires forall x :: x in lit <==> x in order0[..head] && x != start && dist0[x] <= movement
    ensures Outer(visited, queue, order, head, dist, parent, start, movement, lit)
    ensures dist.Keys == dist0.Keys || Grid - dist.Keys < Grid - dist0.Keys
  {
    CoveredSettles(p, dist, movement);
    ExpandKeeps(order0, dist0, order, dist, head, start, movement, lit);
    assert order[head - 1] == p;
    if queue != [] {
      Relayer(queue, d);
    }
    Shrinks(dist0, dist);
  }

  /**
   * One round of the outer `while`: take the front of the queue, skip it
   * beyond the budget, highlight it unless it is the start, and expand it
   * below the budget.
   */
  method Round(visited: array2<bool>, start: Cell, movement: int, queue0: seq<Entry>, lit0: set<Cell>,
               ghost dist0: map<Cell, nat>, ghost parent0: map<Cell, Cell>, ghost order0: seq<Cell>, ghost head0: nat)
    returns (queue: seq<Entry>, lit: set<Cell>, ghost dist: map<Cell, nat>, ghost parent: map<Cell, Cell>, ghost order: seq<Cell>, ghost head: nat)
    modifies visited
    requires Outer(visited, queue0, order0, head0, dist0, parent0, start, movement, lit0) && queue0 != []
    ensures Outer(visited, queue, order, head, dist, parent, start, movement, lit)
    ensures dist.Keys == dist0.Keys || Grid - dist.Keys < Grid - dist0.Keys
    ensures dist.Keys == dist0.Keys ==> queue == queue0[1..]
  {
    PopSearch(visited, queue0, order0, head0, dist0, parent0, start, movement, lit0);
    var e := queue0[0];
    queue, head, dist, parent, order := queue0[1..], head0 + 1, dist0, parent0, order0;
    lit := lit0;
    if e.dist > movement {
      SkipOuter(visited, queue0, order0, head0, dist0, parent0, start, movement, lit0, lit);
      return;
    }
    if e.cell != start {
      lit := lit + {e.cell};
    }
    if e.dist == movement {
      SkipOuter(visited, queue0, order0, head0, dist0, parent0, start, movement, lit0, lit);
      return;
    }
    LitStep(order0, head0, dist0, start, movement, lit0, lit, e.cell);
    var adj := OffsetGrid.Adjacent(e.cell.row, e.cell.col);
    AdjacentAreAdj(e.cell);
    queue, dist, parent, order := Expand(visited, e.cell, adj, e.dist, movement, queue, dist, parent, order, head, start);
    ExpandOuter(visited, e.cell, e.dist, order0, dist0, queue0[1..], head, queue, order, dist, parent, start, movement, lit);
  }

  /** `s` lists no element twice, so it has as many elements as entries. */
  lemma {:induction false} DistinctCard(s: seq<Cell>)
    requires Distinct(s)
    ensures |set x | x in s| == |s|
  {
    if s != [] {
      var t := s[1..];
      assert Distinct(t) by {
        forall i, j | 0 <= i < j < |t| ensures t[i] != t[j] {
          assert t[i] == s[i + 1] && t[j] == s[j + 1];
        }
      }
      DistinctCard(t);
      assert (set x | x in s) == {s[0]} + set x | x in t;
      assert s[0] !in t by {
        forall i | 0 <= i < |t| ensures t[i] != s[0] {
          assert t[i] == s[i + 1];
        }
      }
    }
  }

  /** A table with as many distances as distinct queued cells, all of which have one, has no others. */
  lemma KeysAreOrder(order: seq<Cell>, dist: map<Cell, nat>)
    requires Distinct(order) && |dist| == |order|
    requires forall i :: 0 <= i < |order| ==> order[i] in dist
    ensures forall x :: x in dist <==> x in order
  {
    var elems := set x | x in order;
    DistinctCard(order);
    assert elems <= dist.Keys;
    assert dist.Keys == elems + (dist.Keys - elems);
    assert dist.Keys - elems == {};
  }

  /** When the queue runs dry the highlighted cells and the table are what showMovementRange promises. */
  lemma Finish(order: seq<Cell>, dist: map<Cell, nat>, parent: map<Cell, Cell>, start: Cell, movement: int, lit: set<Cell>)
    requires Table(order, dist, parent, start, movement)
    requires forall x :: x in dist <==> x in order
    requires forall i :: 0 <= i < |order| ==> order[i] in dist && Settled(dist, order[i], movement)
    requires forall x :: x in lit <==> x in order && x != start && dist[x] <= movement
    ensures forall x :: x in lit <==> x != start && Reachable(Hops, start, x, movement)
    ensures movement >= 0 ==> forall x :: x in dist ==> IsLeastCost(Hops, start, x, dist[x])
  {
    forall p, n | p in dist && Adj(Hops, p, n)
      ensures dist[p] + Weight(Hops, p, n) > movement || (n in dist && dist[n] <= dist[p] + Weight(Hops, p, n))
    {
      var i :| 0 <= i < |order| && order[i] == p;
      assert Settled(dist, order[i], movement);
    }
    assert Closed(Hops, dist, movement);
    forall x ensures x in lit <==> x != start && Reachable(Hops, start, x, movement) {
      if movement >= 0 {
        Exact(Hops, start, dist, parent, movement, x);
      } else {
        NothingBelowZero(Hops, start, x, movement);
      }
    }
    if movement >= 0 {
      forall x | x in dist ensures IsLeastCost(Hops, start, x, dist[x]) {
        Exact(Hops, start, dist, parent, movement, x);
      }
    }
  }

  /** With the queue empty every queued cell is dequeued, and the search's promises follow. */
  lemma Drained(visited: array2<bool>, order: seq<Cell>, head: nat, dist: map<Cell, nat>, parent: map<Cell, Cell>,
                start: Cell, movement: int, lit: set<Cell>)
    requires Outer(visited, [], order, head, dist, parent, start, movement, lit)
    ensures forall x :: x in lit <==> x != start && Reachable(Hops, start, x, movement)
    ensures Distinct(order) && |order| >= 1 && order[0] == start
    ensures forall x :: x in dist <==> x in order
    ensures forall x :: x in dist && x != start ==> dist[x] <= movement
    ensures movement >= 0 ==> forall x :: x in dist ==> IsLeastCost(Hops, start, x, dist[x])
  {
    KeysAreOrder(order, dist);
    assert order[..head] == order;
    Finish(order, dist, parent, start, movement, lit);
  }

  /**
   * showMovementRange of board.js: the cells other than the start that the
   * search highlights. They are exactly the cells a walk of at most
   * `movement` hops reaches; each cell is queued at most once, the start
   * first, and a queued distance is the least number of hops to it.
   */
  method ShowMovementRange(start: Cell, movement: int) returns (lit: set<Cell>, ghost dist: map<Cell, nat>, ghost order: seq<Cell>)
    requires OffsetGrid.OnBoard(start)
    ensures forall x :: x in lit <==> x != start && Reachable(Hops, start, x, movement)
    ensures Distinct(order) && |order| >= 1 && order[0] == start
    ensures forall x :: x in dist <==> x in order
    ensures forall x :: x in dist && x != start ==> dist[x] <= movement
    ensures movement >= 0 ==> forall x :: x in dist ==> IsLeastCost(Hops, start, x, dist[x])
  {
    var visited := new bool[21, 21]((_, _) => false);
    visited[start.row, start.col] := true;
    var queue := [Entry(start, 0)];
    dist := map[start := 0];
    order := [start];
    ghost var parent: map<Cell, Cell> := map[];
    ghost var head: nat := 0;
    lit := {};
    while queue != []
      invariant Outer(visited, queue, order, head, dist, parent, start, movement, lit)
      decreases Grid - dist.Keys, |queue|
    {
      queue, lit, dist, parent, order, head := Round(visited, start, movement, queue, lit, dist, parent, order, head);
    }
    Drained(visited, order, head, dist, parent, start, movement, lit);
  }

  /** The tiles updateMovementRange highlights for a parsed move value. */
  ghost predicate InRange(move: Option<int>, x: Cell) {
    move.Some? && move.value > 0 && x != Cell(MidRow, MidCol) && Reachable(Hops, Cell(MidRow, MidCol), x, move.value)
  }

  /** A larger move value highlights every tile a smaller one does, and nothing off the board. */
  lemma InRangeGrows(a: int, b: int, x: Cell)
    requires InRange(Some(a), x) && a <= b
    ensures InRange(Some(b), x) && OffsetGrid.OnBoard(x)
  {
    ReachableMonotone(Hops, Cell(MidRow, MidCol), x, a, b);
    ReachableOnBoard(Hops, Cell(MidRow, MidCol), x, a);
  }

  /**
   * The side panel and board of board.js: the parsed "Ruch" value (None
   * when parseInt gives NaN), the wind button last pressed and the tiles
   * that carry the green highlight.
   */
  class Board {
    var move: Option<int>
    var selectedWind: Wind
    var highlighted: set<Cell>

    /** The page as it loads: move 2, wind '0', and the initial range drawn. */
    constructor()
      ensures move == Some(2) && selectedWind == Calm
      ensures forall x :: x in highlighted <==> InRange(move, x)
    {
      move := Some(2);
      selectedWind := Calm;
      highlighted := {};
      new;
      UpdateMovementRange();
    }

    /** updateMovementRange: clear, then search from the middle tile only for a positive number. */
    method UpdateMovementRange()
      modifies this
      ensures move == old(move) && selectedWind == old(selectedWind)
      ensures forall x :: x in highlighted <==> InRange(move, x)
    {
      highlighted := {};
      if move.Some? && move.value > 0 {
        var lit, _, _ := ShowMovementRange(Cell(MidRow, MidCol), move.value);
        highlighted := lit;
      }
    }

    /** The `input` listener: a new parsed value redraws the range. */
    method EditMove(value: Option<int>)
      modifies this
      ensures move == value && selectedWind == old(selectedWind)
      ensures forall x :: x in highlighted <==> InRange(move, x)
    {
      move := value;
      UpdateMovementRange();
    }

    /** A wind button click: only the selected wind changes; the range does not depend on it. */
    method SelectWind(wind: Wind)
      modifies this
      ensures selectedWind == wind
      ensures move == old(move) && highlighted == old(highlighted)
    {
      selectedWind := wind;
    }
  }
}
