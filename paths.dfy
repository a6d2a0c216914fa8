/**
 * Walks over a board and their costs, shared by the three movement-range
 * searches. A cost is a whole number of quarter movement points, so every
 * step weight of every board is a positive integer.
 *
 * A search leaves a distance table, a map from cells to costs. The two
 * facts every search is proved against:
 *  - a table that is closed under relaxation within a budget bounds every
 *    walk that fits the budget from below (ClosedBoundsWalks);
 *  - a table whose every entry is paid for by a parent edge is realised
 *    by a walk (LooseTreeWalk).
 * Together they make the table exactly the least walk costs (Exact).
 */
module Paths {
  import opened Compass
  import OffsetGrid
  import SquareGrid

  /** Which board and which step price a search uses. */
  datatype Rule =
    | Hops                     // board.js: offset board, every step costs one hop
    | OffsetWind(wind: Wind)   // board1.js: offset board, cardinal winds halve or double a step
    | SquareWind(wind: Wind)   // board2.js: square board, diagonals dearer, every wind counts

  /** The list getAdjacent returns on the rule's board. */
  function Neighbours(rule: Rule, c: Cell): seq<Cell> {
    match rule
    case Hops => OffsetGrid.Adjacent(c.row, c.col)
    case OffsetWind(_) => OffsetGrid.Adjacent(c.row, c.col)
    case SquareWind(_) => SquareGrid.Adjacent(c)
  }

  /** One step of a walk: `x` is in the list getAdjacent returns for `p`. */
  predicate Adj(rule: Rule, p: Cell, x: Cell) {
    if rule.SquareWind? then SquareGrid.Touches(p, x) else OffsetGrid.Touches(p, x)
  }

  lemma NeighboursIff(rule: Rule, p: Cell, x: Cell)
    ensures x in Neighbours(rule, p) <==> Adj(rule, p, x)
  {
    if rule.SquareWind? {
      SquareGrid.AdjacentIffTouches(p, x);
    } else {
      OffsetGrid.AdjacentIffTouches(p, x);
    }
  }

  /** The price of one step; one hop for board.js and quarters of a point otherwise. */
  function Weight(rule: Rule, from: Cell, to: Cell): (w: nat)
    ensures w >= 1
  {
    match rule
    case Hops => 1
    case OffsetWind(wind) => OffsetGrid.StepCost(wind, from, to)
    case SquareWind(wind) => SquareGrid.MoveCost(wind, from, to)
  }

  function Last(w: seq<Cell>): Cell
    requires |w| >= 1
  {
    w[|w| - 1]
  }

  /** A walk: one or more cells, each a neighbour of the one before. */
  predicate IsWalk(rule: Rule, w: seq<Cell>) {
    |w| >= 1 && forall i :: 0 <= i < |w| - 1 ==> Adj(rule, w[i], w[i + 1])
  }

  /** The total weight of the steps of a walk. */
  function Cost(rule: Rule, w: seq<Cell>): nat
    requires |w| >= 1
  {
    if |w| == 1 then 0
    else Cost(rule, w[..|w| - 1]) + Weight(rule, w[|w| - 2], w[|w| - 1])
  }

  /** x can be reached from start paying at most budget. */
  ghost predicate Reachable(rule: Rule, start: Cell, x: Cell, budget: int) {
    exists w :: IsWalk(rule, w) && w[0] == start && Last(w) == x && Cost(rule, w) <= budget
  }

  /** Some walk from start ends at x and costs exactly c. */
  ghost predicate PricedAt(rule: Rule, start: Cell, x: Cell, c: int) {
    exists w :: IsWalk(rule, w) && w[0] == start && Last(w) == x && Cost(rule, w) == c
  }

  /** A walk of exactly price c shows x reachable for c. */
  lemma PricedReachable(rule: Rule, start: Cell, x: Cell, c: int)
    requires PricedAt(rule, start, x, c)
    ensures Reachable(rule, start, x, c)
  {
    var w :| IsWalk(rule, w) && w[0] == start && Last(w) == x && Cost(rule, w) == c;
  }

  /** c is the cheapest price of reaching x from start. */
  ghost predicate IsLeastCost(rule: Rule, start: Cell, x: Cell, c: nat) {
    Reachable(rule, start, x, c) && !Reachable(rule, start, x, c as int - 1)
  }

  /**
   * No step out of a cell in the table would give a neighbour a cheaper
   * entry within the budget: either the step overshoots, or the neighbour
   * already has an entry at least as good.
   */
  ghost predicate Closed(rule: Rule, dist: map<Cell, nat>, budget: int) {
    forall p, n :: p in dist && Adj(rule, p, n) ==>
      dist[p] + Weight(rule, p, n) > budget || (n in dist && dist[n] <= dist[p] + Weight(rule, p, n))
  }

  /**
   * Every entry but the start's is paid for by the edge from its parent:
   * the parent has an entry, and that entry plus the step weight does not
   * exceed the child's entry.
   */
  ghost predicate LooseTree(rule: Rule, start: Cell, dist: map<Cell, nat>, parent: map<Cell, Cell>) {
    && start in dist && dist[start] == 0
    && (forall x :: x in dist && x != start ==> x in parent)
    && forall x {:trigger parent[x]} :: x in parent && x in dist && x != start ==>
         && parent[x] in dist
         && Adj(rule, parent[x], x)
         && dist[parent[x]] + Weight(rule, parent[x], x) <= dist[x]
  }

  /**
   * A tree whose every entry but the start's is exactly its parent's entry
   * plus the step weight.
   */
  ghost predicate ExactTree(rule: Rule, start: Cell, dist: map<Cell, nat>, parent: map<Cell, Cell>) {
    && LooseTree(rule, start, dist, parent)
    && forall x {:trigger parent[x]} :: x in parent && x in dist && x != start ==>
         dist[parent[x]] + Weight(rule, parent[x], x) == dist[x]
  }

  /** A new cell priced exactly by the edge from `p` extends the exact tree, with `p` as its parent. */
  lemma ExactTreeGrows(rule: Rule, start: Cell, dist: map<Cell, nat>, parent: map<Cell, Cell>, p: Cell, n: Cell, v: nat)
    requires ExactTree(rule, start, dist, parent) && n !in dist
    requires p in dist && Adj(rule, p, n) && dist[p] + Weight(rule, p, n) == v
    ensures ExactTree(rule, start, dist[n := v], parent[n := p])
  {
    TreeGrows(rule, start, dist, parent, p, n, v);
  }

  /** A new cell whose entry pays for the edge from `p` extends the tree, with `p` as its parent. */
  lemma TreeGrows(rule: Rule, start: Cell, dist: map<Cell, nat>, parent: map<Cell, Cell>, p: Cell, n: Cell, v: nat)
    requires LooseTree(rule, start, dist, parent) && n !in dist
    requires p in dist && Adj(rule, p, n) && dist[p] + Weight(rule, p, n) <= v
    ensures LooseTree(rule, start, dist[n := v], parent[n := p])
  {
  }

  /** Dropping the last cell of a walk of two or more cells leaves a walk. */
  lemma WalkPrefix(rule: Rule, w: seq<Cell>)
    requires IsWalk(rule, w) && |w| >= 2
    ensures IsWalk(rule, w[..|w| - 1])
    ensures w[..|w| - 1][0] == w[0]
    ensures Last(w[..|w| - 1]) == w[|w| - 2]
  {
    var front := w[..|w| - 1];
    forall i | 0 <= i < |front| - 1 ensures Adj(rule, front[i], front[i + 1]) {
      assert front[i] == w[i] && front[i + 1] == w[i + 1];
    }
  }

  /** A walk extended by a neighbour of its last cell is a walk, and the step is paid on top. */
  lemma WalkExtend(rule: Rule, w: seq<Cell>, x: Cell)
    requires IsWalk(rule, w) && Adj(rule, Last(w), x)
    ensures IsWalk(rule, w + [x])
    ensures (w + [x])[0] == w[0] && Last(w + [x]) == x
    ensures Cost(rule, w + [x]) == Cost(rule, w) + Weight(rule, Last(w), x)
  {
    var v := w + [x];
    assert v[..|v| - 1] == w;
    forall i | 0 <= i < |v| - 1 ensures Adj(rule, v[i], v[i + 1]) {
      if i < |w| - 1 {
        assert v[i] == w[i] && v[i + 1] == w[i + 1];
      }
    }
  }

  /**
   * A closed table that gives the start 0 has an entry for the end of
   * every walk from the start that fits the budget, at most that walk's cost.
   */
  lemma {:induction false} ClosedBoundsWalks(rule: Rule, start: Cell, dist: map<Cell, nat>, budget: int, w: seq<Cell>)
    requires Closed(rule, dist, budget)
    requires start in dist && dist[start] == 0
    requires IsWalk(rule, w) && w[0] == start && Cost(rule, w) <= budget
    ensures Last(w) in dist && dist[Last(w)] <= Cost(rule, w)
    decreases |w|
  {
    if |w| > 1 {
      var front := w[..|w| - 1];
      WalkPrefix(rule, w);
      ClosedBoundsWalks(rule, start, dist, budget, front);
      var p, n := Last(front), Last(w);
      assert Adj(rule, p, n);
      assert Cost(rule, w) == Cost(rule, front) + Weight(rule, p, n);
    }
  }

  /** Following parents back to the start gives a walk that costs no more than its entry. */
  lemma {:induction false} LooseTreeWalk(rule: Rule, start: Cell, dist: map<Cell, nat>, parent: map<Cell, Cell>, x: Cell)
    returns (w: seq<Cell>)
    requires LooseTree(rule, start, dist, parent)
    requires x in dist
    ensures IsWalk(rule, w) && w[0] == start && Last(w) == x
    ensures Cost(rule, w) <= dist[x]
    decreases dist[x]
  {
    if x == start {
      w := [start];
    } else {
      var p := parent[x];
      var front := LooseTreeWalk(rule, start, dist, parent, p);
      WalkExtend(rule, front, x);
      w := front + [x];
    }
  }

  /** Following parents of an exact tree back to the start gives a walk priced exactly at its entry. */
  lemma {:induction false} ExactTreeWalk(rule: Rule, start: Cell, dist: map<Cell, nat>, parent: map<Cell, Cell>, x: Cell)
    returns (w: seq<Cell>)
    requires ExactTree(rule, start, dist, parent)
    requires x in dist
    ensures IsWalk(rule, w) && w[0] == start && Last(w) == x
    ensures Cost(rule, w) == dist[x]
    decreases dist[x]
  {
    if x == start {
      w := [start];
    } else {
      var p := parent[x];
      var front := ExactTreeWalk(rule, start, dist, parent, p);
      WalkExtend(rule, front, x);
      w := front + [x];
    }
  }

  /** A labelled cell is reached for its distance, and for no less. */
  lemma LabelIsLeast(rule: Rule, start: Cell, dist: map<Cell, nat>, parent: map<Cell, Cell>, budget: int, x: Cell)
    requires Closed(rule, dist, budget) && LooseTree(rule, start, dist, parent)
    requires x in dist && dist[x] <= budget
    ensures IsLeastCost(rule, start, x, dist[x])
  {
    var w := LooseTreeWalk(rule, start, dist, parent, x);
    assert Reachable(rule, start, x, dist[x]);
    if Reachable(rule, start, x, dist[x] as int - 1) {
      var v :| IsWalk(rule, v) && v[0] == start && Last(v) == x && Cost(rule, v) <= dist[x] as int - 1;
      ClosedBoundsWalks(rule, start, dist, budget, v);
    }
  }

  /**
   * A closed labelling rooted at the start whose distances are paid for by
   * parents, all within the budget, is exactly the least-cost table: a
   * cell is reachable within the budget exactly when it carries a
   * distance, and that distance is its least cost.
   */
  lemma Exact(rule: Rule, start: Cell, dist: map<Cell, nat>, parent: map<Cell, Cell>, budget: int, x: Cell)
    requires Closed(rule, dist, budget) && LooseTree(rule, start, dist, parent)
    requires forall y :: y in dist ==> dist[y] <= budget
    ensures x in dist <==> Reachable(rule, start, x, budget)
    ensures x in dist ==> IsLeastCost(rule, start, x, dist[x])
  {
    if x in dist {
      LabelIsLeast(rule, start, dist, parent, budget, x);
      ReachableMonotone(rule, start, x, dist[x], budget);
    }
    if Reachable(rule, start, x, budget) {
      var v :| IsWalk(rule, v) && v[0] == start && Last(v) == x && Cost(rule, v) <= budget;
      ClosedBoundsWalks(rule, start, dist, budget, v);
    }
  }

  /** A larger budget reaches everything a smaller one does. */
  lemma ReachableMonotone(rule: Rule, start: Cell, x: Cell, b: int, b': int)
    requires b <= b' && Reachable(rule, start, x, b)
    ensures Reachable(rule, start, x, b')
  {
    var w :| IsWalk(rule, w) && w[0] == start && Last(w) == x && Cost(rule, w) <= b;
    assert Cost(rule, w) <= b';
  }

  /** The rule's board. */
  predicate OnBoardOf(rule: Rule, x: Cell) {
    if rule.SquareWind? then SquareGrid.OnBoard(x) else OffsetGrid.OnBoard(x)
  }

  /** Every cell a walk reaches other than its start lies on the board, since every step lands on it. */
  lemma ReachableOnBoard(rule: Rule, start: Cell, x: Cell, budget: int)
    requires Reachable(rule, start, x, budget) && x != start
    ensures OnBoardOf(rule, x)
  {
    var w :| IsWalk(rule, w) && w[0] == start && Last(w) == x && Cost(rule, w) <= budget;
    assert Adj(rule, w[|w| - 2], w[|w| - 1]);
  }

  /** With a negative budget nothing, not even the start, can be reached. */
  lemma NothingBelowZero(rule: Rule, start: Cell, x: Cell, budget: int)
    requires budget < 0
    ensures !Reachable(rule, start, x, budget)
  {
  }

  /** The start itself is reached for free. */
  lemma StartReachable(rule: Rule, start: Cell, budget: int)
    requires budget >= 0
    ensures Reachable(rule, start, start, budget)
  {
    assert IsWalk(rule, [start]) && Cost(rule, [start]) == 0;
  }
}
