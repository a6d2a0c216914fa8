# Piraci: movement ranges and event cards

This project models the rules engine of a browser board game about pirate ships. The game has three board variants. On each board a ship has a budget of movement points, and the board highlights the tiles the ship can reach. A separate event generator builds fight cards. Each card has an enemy with random points, health and three attack/defence stages, and a reward list bought with the enemy's points.

The model has nine modules:

- `Compass`: cells, the eight arrow directions, the wind selector and `windOrder`.
- `Config`: the `config` constant, meaning the arrows, `enemyScaling` and the four rewards with their costs and their weights per level.
- `OffsetGrid`: the hex-like offset board of `board.js` and `board1.js`. It has 21 rows; even rows have 21 tiles and odd rows 20. This module holds `getAdjacent`, `getDirection` of `board1.js` and the wind cost of one step there.
- `SquareGrid`: the regular 21 x 21 board of `board2.js`. This module holds `getAdjacent` (a loop over eight deltas), `getDirection` and the move cost: diagonals cost 1.5, a step with the wind costs half and a step against it costs double.
- `Paths`: walks, walk costs and reachability within a budget, shared by the three searches. Its lemma `Exact` says when a finished distance table is exactly the least walk costs. That holds when two facts are true:
  - the table is closed under relaxation;
  - every entry is paid for by a parent edge.
- `OffsetBoard`: `board.js`. This is a breadth-first search from the middle tile (10, 10) with a `visited` array. It is a method over an `array2<bool>`, plus a class `Board` for the side panel.
- `WindBoard`: `board1.js`, as a class `Board1` with a movable ship and wind.
  - The search is a FIFO queue, and a cell is marked visited when it is queued.
  - `showMovementRange` runs once per step `s`, with `moveVal * s` points.
  - Tiles get `movement-range` and `step-s` classes.
- `SquareBoard`: `board2.js`, as a class `Board2`.
  - For every step, a fresh `costs` array is searched by a FIFO queue that queues a cell again whenever its price improves.
  - A `stepReached` array records the first step whose search priced each tile.
- `Events`: `RewardsGenerator.rewards`, the `Enemy` constructor and the `Fight` constructor.

Modelling choices:

- **Costs are whole quarters of a movement point.** `board1.js` steps cost 2, 4 or 8 quarters. `board2.js` steps cost 2, 3, 4, 6, 8 or 12 quarters. A `board.js` step is one hop. The `board2.js` test `newCost <= moveVal * s` becomes `q <= Budget(moveVal, s)`, where `Budget` is the whole number of quarters in `moveVal * s` (`SquareBoard.BudgetMeaning`).
- **`Math.random()` is an oracle.** It is modelled as `rand: nat -> real`, where `rand(k)` is the value of the `k`-th call.
  - `Math.floor(Math.random() * n)` is `RandomBelow(rand(k), n)`.
  - A fight's enemy makes calls 0 to 7, and the reward draws go on from call 8.
- **Inputs are already parsed.** The parsed input values are fields of type `Option`, with `None` for NaN.
  - `board.js` parses its one input, "Ruch", with `parseInt`, and `board1.js` parses both of its inputs with `parseInt`; each gives `Option<int>`.
  - `board2.js` parses "Ruch" with `parseFloat`, giving `Option<real>`, and "Kroki" with `parseInt`.
- **Highlights are sets.** The `movement-range` class is a set of tiles. The `step-s` classes are a set of pairs (tile, s).

Where the comments and the code disagree, the model follows the code:
- The comments above `getAdjacent` (`js/board.js:59-61`, `js/board1.js:154-156`) say that even rows take their NE/SE neighbour at `col + 1`. The code takes `col` on even rows and `col + 1` on odd rows, so on an even row NE coincides with N and SE with S. `OffsetGrid.ParityDuplicates` states this.
- The comment over the `board2.js` search calls it Dijkstra, but the code is a FIFO label-correcting search. The model proves that it still ends with the least prices (`SquareBoard.Reach`).
- The `board1.js` search never re-queues a cell. Its first price sticks even when a cheaper walk exists, so the model attaches no least-cost claim to it.

## Model

| member | source | states |
|---|---|---|
| Compass.Index | js/board2.js:235-236 | `windOrder.indexOf(d)`: the position at which `d` stands in `windOrder` |
| Compass.Opposite | js/board2.js:235-236 | the opposite direction sits four places further round `windOrder` and differs from `d` |
| Compass.OppositeInvolutive | js/board2.js:235-236 | the opposite of the opposite is the direction itself |
| Compass.ArrowInjective | js/board2.js:273-281 | no two directions share an arrow label, so a wind button's `data-dir` names exactly one direction |
| Config.CostsPositive | js/config.js:5-42 | the rewards cost 8, 4, 1 and 2, all at least 1 |
| Config.WeightsNonNegative | js/config.js:9-40 | every reward has a weight of 0 or more for each of levels 1, 2 and 3 |
| Config.LevelOneRewards | js/config.js:9-40 | at level 1 exactly gold and wood have positive weight |
| Config.GoldAlwaysAvailable | js/config.js:24-32 | gold is one of the rewards, costs 1 and has positive weight at every level |
| Config.ResourcesDistinct | js/config.js:5-42 | there are four rewards and they are pairwise different |
| Config.DirectionsDistinct | js/config.js:3-4 | `enemyScaling` is 3 and the eight `directions` are pairwise distinct |
| Config.DirectionsAreArrows | js/config.js:3 | the `directions` are exactly the arrow labels of the eight compass directions |
| OffsetGrid.Pushes | js/board.js:63-79 | a cell is pushed exactly when some direction's guard holds and that direction's step yields it; at most one push per direction |
| OffsetGrid.KeepOnBoard | js/board.js:81-85 | the filter keeps exactly the on-board cells of its input and never lengthens it |
| OffsetGrid.Adjacent | js/board1.js:153-181 | at most eight cells come back, all on the board (`0 <= r < 21`, `0 <= c <= 20/19`) |
| OffsetGrid.AdjacentExactly | js/board1.js:153-181 | a cell is adjacent if and only if it is on the board and some guarded push yields it |
| OffsetGrid.ParityDuplicates | js/board1.js:160-174 | even rows: N = NE and S = SE; odd rows: N = NW and S = SW |
| OffsetGrid.AtMostSixNeighbours | js/board1.js:153-181 | at most six distinct tiles are adjacent |
| OffsetGrid.DirectionInvertsStep | js/board1.js:183-198 | `getDirection` names only directions whose step lands on the target; every step is named, by its straight label where a diagonal coincides with it |
| OffsetGrid.NeighbourDirection | js/board1.js:183-198 | every neighbour has a direction; even rows never give ↗/↘ and odd rows never ↖/↙ |
| OffsetGrid.AdjacentIffTouches | js/board1.js:153-198 | a cell is in `getAdjacent` if and only if it is on the board and `getDirection` classifies it |
| OffsetGrid.StepCost | js/board1.js:226-244 | a step costs 0.5, 1 or 2 points (2, 4 or 8 quarters), so it is always positive |
| OffsetGrid.StepCostByWind | js/board1.js:226-244 | with no wind every step costs 1; under a cardinal wind, a step along it costs 0.5 and a step against it costs 2; every other price is 1 |
| SquareGrid.AdjacentUpToMembers | js/board2.js:167-172 | after `k` turns the loop holds exactly the on-board targets of the first `k` deltas |
| SquareGrid.GetAdjacent | js/board2.js:155-175 | the loop over `dirs` returns the neighbour list `Adjacent` |
| SquareGrid.AdjacentExactly | js/board2.js:155-175 | a cell is adjacent if and only if it is on the 21 x 21 board and one unit delta away |
| SquareGrid.DeltaInjective | js/board2.js:157-166 | the eight deltas are pairwise different |
| SquareGrid.AdjacentDistinct | js/board2.js:155-175 | `getAdjacent` never lists a cell twice |
| SquareGrid.CornerNeighbours | js/board2.js:155-175 | the corner (0, 0) gets exactly (0, 1), (1, 1) and (1, 0), in that order |
| SquareGrid.CornerCount | js/board2.js:155-175 | the corner (0, 0) has exactly three neighbours |
| SquareGrid.DirectionInvertsDelta | js/board2.js:177-189 | `getDirection` gives `d` if and only if the target is one `d` delta away; it gives null exactly for non-unit deltas |
| SquareGrid.AdjacentIffTouches | js/board2.js:155-189 | a cell is a neighbour if and only if it is on the board and has a direction |
| SquareGrid.StraightOrDiagonal | js/board2.js:228 | the base price is 1 or 1.5 points |
| SquareGrid.StraightOrDiagonalAlong | js/board2.js:228 | a unit step in a diagonal direction costs 1.5, any other unit step 1 |
| SquareGrid.MoveCost | js/board2.js:228-239 | a step costs 0.5, 0.75, 1, 1.5, 2 or 3 points, always positive |
| SquareGrid.MoveCostAlong | js/board2.js:228-239 | along direction `d`: the base price, halved when the wind blows toward `d`, doubled when it blows toward `windOrder[(i+4)%8]` |
| SquareGrid.WindSymmetry | js/board2.js:230-239 | any selected wind halves the step along it and doubles the step against it |
| Paths.Weight | js/board1.js:226-244 | every step of every board has a positive price |
| Paths.NeighboursIff | js/board2.js:155-189 | the neighbour list of a rule's board is exactly that rule's step relation |
| Paths.ClosedBoundsWalks | js/board2.js:217-250 | a table closed under relaxation bounds the cost of every walk within the budget from below |
| Paths.LooseTreeWalk | js/board2.js:240-243 | an entry paid for by parent edges is the cost bound of a real walk from the start |
| Paths.ExactTreeWalk | js/board1.js:246-248 | when every entry is its parent's entry plus the step weight, following parents gives a walk from the start whose cost is exactly the entry |
| Paths.ExactTreeGrows | js/board1.js:246-248 | queuing a new cell at its parent's entry plus the step weight keeps every entry exactly its parent's plus the step |
| Paths.Exact | js/board2.js:217-250 | a closed table paid for by parents is exactly the least walk costs: a cell has an entry if and only if it is reachable within the budget |
| Paths.ReachableMonotone | js/board2.js:241 | a larger budget reaches everything a smaller one does |
| Paths.ReachableOnBoard | js/board.js:81-85 | every reached cell other than the start lies on the board |
| OffsetBoard.Mark | js/board.js:110 | setting a visited flag keeps the flags equal to the set of queued cells |
| OffsetBoard.Visit | js/board.js:109-112 | after one turn of the inner loop the neighbour of a cell below the budget is queued and the search invariant holds |
| OffsetBoard.Expand | js/board.js:108-113 | after the inner loop every neighbour of the dequeued cell is queued |
| OffsetBoard.Round | js/board.js:96-113 | one dequeue keeps the search invariant and either queues a new cell or shortens the queue |
| OffsetBoard.Drained | js/board.js:94-114 | when the queue is empty, the highlighted cells are exactly those reachable within `movement` hops and each queued distance is least |
| OffsetBoard.ShowMovementRange | js/board.js:89-115 | the highlighted cells are exactly the cells other than the start reachable within `movement` hops; each cell is queued at most once, the start first; the distances are at most `movement` and least |
| OffsetBoard.InRangeGrows | js/board.js:160-166 | a larger move value highlights every tile a smaller one does, and only tiles on the board |
| OffsetBoard.Board.constructor | js/board.js:160-168 | the page loads with move 2 and wind '0', with the range of 2 hops around (10, 10) highlighted |
| OffsetBoard.Board.UpdateMovementRange | js/board.js:160-166 | no highlight for NaN or a value of 0 or less; otherwise exactly the tiles within `move` hops of (10, 10) other than the ship |
| OffsetBoard.Board.EditMove | js/board.js:167 | a new input value redraws the range for that value |
| OffsetBoard.Board.SelectWind | js/board.js:176-184 | a wind click changes only the selected wind; the highlight stays as it was |
| WindBoard.OrOne | js/board1.js:211 | `parseInt(...) \|\| 1` gives the value unless it is NaN or 0, and 1 then |
| WindBoard.Push | js/board1.js:246-249 | a step within the budget queues the neighbour, marks it visited and keeps the search invariant |
| WindBoard.Offer | js/board1.js:226-250 | after the offer an unvisited neighbour is queued or its price overshoots the budget |
| WindBoard.Visit | js/board1.js:224-250 | after one turn of the inner loop the neighbour is queued or its step overshoots the budget |
| WindBoard.Expand | js/board1.js:223-251 | after the inner loop every neighbour is queued or out of budget from the dequeued cell |
| WindBoard.Round | js/board1.js:208-251 | one dequeue keeps the search invariant and either queues a new cell or shortens the queue |
| WindBoard.Drained | js/board1.js:207-252 | when the queue is empty, every entry is the exact cost of some walk from the start (not necessarily the cheapest) and no in-budget step leaves the queued set |
| WindBoard.ShowMovementRange | js/board1.js:200-253 | each cell is queued once, the start first; every non-start entry is within the budget and is the exact cost of some walk from the start; no in-budget step leads out of the queued set; highlighted tiles are the non-start queued cells above the window's lower edge, so each is a board tile other than the ship reachable within `movement` points |
| WindBoard.HighlightWindow | js/board1.js:209-222 | a tile highlighted at step `s` has an entry in `(moveVal*(s-1), moveVal*s]` that is the exact cost of a walk to it, so it is reachable for the step's budget and lies on the board |
| WindBoard.FirstRing | js/board1.js:223-249 | every neighbour of the ship whose step fits the budget is queued |
| WindBoard.DrawnGrows | js/board1.js:274-278 | adding the marks of step `s` to steps 1 to `s-1` gives the drawing of steps 1 to `s` |
| WindBoard.MarkWindow | js/board1.js:209-222 | a `step-t` mark is on a board tile other than the ship, reached by a walk whose exact cost lies in `(moveVal*(t-1), moveVal*t]` |
| WindBoard.Board1.constructor | js/board1.js:3-33 | ship on (10, 10), wind '0', move 2, one step, and the first range drawn |
| WindBoard.Board1.UpdateMovementRange | js/board1.js:255-279 | nothing drawn for NaN or non-positive values; otherwise the marks of exactly steps 1 to `stepVal`, each from one search for `moveVal*s`; no stale `step-1` to `step-5` mark survives the redraw, and every old mark beyond `step-5` stays |
| WindBoard.Board1.ClickTile | js/board1.js:115-119 | the ship moves to the clicked tile and the range is redrawn from there |
| WindBoard.Board1.SelectWind | js/board1.js:94-99 | the wind changes and the range is redrawn under it |
| WindBoard.Board1.EditMove | js/board1.js:105 | a new "Ruch" value redraws the range |
| WindBoard.Board1.EditStep | js/board1.js:106 | a new "Kroki" value redraws the range |
| SquareBoard.NewMark | js/board2.js:245-247 | a mark once set is kept; an unset mark becomes `s` only when the tile is priced at step `s` |
| SquareBoard.SlackShrinks | js/board2.js:241-243 | a strictly better price within the budget strictly shrinks the set of pairs (cell, price) still open |
| SquareBoard.RelaxLowered | js/board2.js:241-243 | one improvement lowers one price and appends its entry to the queue |
| SquareBoard.RelaxTable | js/board2.js:240-243 | an improvement paid by the edge from the dequeued cell keeps every price paid for by a walk; the ship's 0 is never beaten |
| SquareBoard.Record | js/board2.js:242-247 | writing the new price into `costs` and the step into an unset `stepReached` keeps both arrays in step with the table |
| SquareBoard.Relax | js/board2.js:226-248 | a neighbour's price is replaced and queued exactly when the new price fits `moveVal*s` and is below `costs`; otherwise nothing changes |
| SquareBoard.Visit | js/board2.js:225-248 | after one turn of the inner loop the neighbour is handled and prices have only fallen |
| SquareBoard.Expand | js/board2.js:225-249 | after the inner loop no neighbour of the dequeued cell can be improved from its entry price |
| SquareBoard.Round | js/board2.js:223-249 | one dequeue keeps every open price queued or relaxed, and shrinks the open pairs or the queue |
| SquareBoard.Drained | js/board2.js:222-250 | when the queue is empty no step can be relaxed, so the prices are exactly the least walk costs within the budget |
| SquareBoard.Reach | js/board2.js:217-250 | one step's search prices exactly the cells reachable within `moveVal*s`, each at its least cost, and marks the newly priced tiles with `s` |
| SquareBoard.BudgetBounds | js/board2.js:241 | the budget is the largest whole number of quarters within `moveVal*s` |
| SquareBoard.BudgetMeaning | js/board2.js:241 | `q/4 <= moveVal*s` holds exactly when `q <= Budget(moveVal, s)` |
| SquareBoard.BudgetMonotone | js/board2.js:216-241 | the budget is at least 0 and never decreases with the step |
| SquareBoard.FirstStepSpec | js/board2.js:215-251 | a tile's mark is 0 exactly for the ship and out-of-reach tiles; otherwise it is the step `t` whose budget first reaches the tile (step `t-1` does not) |
| SquareBoard.ReachedLater | js/board2.js:216-241 | a tile reached at step `s` is reached at step `s+1` |
| SquareBoard.StartMarks | js/board2.js:219-221 | a fresh step's search starts with only the ship priced and changes no mark |
| SquareBoard.NextMarks | js/board2.js:245-247 | a finished step turns the marks of steps 1 to `s-1` into those of steps 1 to `s` |
| SquareBoard.StepsReached | js/board2.js:215-251 | after the `for s` loop, `stepReached` holds every tile's first reaching step |
| SquareBoard.Highlight | js/board2.js:253-262 | exactly the tiles with a positive mark are highlighted, each with the class of its mark |
| SquareBoard.Board2.constructor | js/board2.js:3-37 | ship on (10, 10), wind '0', move 2, one step, first range drawn |
| SquareBoard.Board2.UpdateMovementRange | js/board2.js:191-263 | nothing drawn for NaN or non-positive values; otherwise every tile other than the ship is highlighted exactly when some step up to `stepVal` reaches it, with the class of its first step; no stale `step-1` to `step-5` mark survives the redraw, and every old mark beyond `step-5` stays |
| SquareBoard.Board2.ClickTile | js/board2.js:117-121 | the ship moves to the clicked tile and the range is redrawn from there |
| SquareBoard.Board2.SelectWind | js/board2.js:96-101 | the wind changes and the range is redrawn under it |
| SquareBoard.Board2.EditMove | js/board2.js:107 | a new "Ruch" value redraws the range |
| SquareBoard.Board2.EditStep | js/board2.js:108 | a new "Kroki" value redraws the range |
| Events.RandomBelow | js/events.js:19 | `Math.floor(Math.random() * n)` lies in `0 .. n-1` for `n >= 1` |
| Events.RepeatMembers | js/events.js:15 | `Array(n).fill(r)` holds `r` and nothing else, and holds it only when `n > 0` |
| Events.RepeatCount | js/events.js:15 | `Array(n).fill(r)` holds `n` copies of `r` |
| Events.PoolMembers | js/events.js:14-15 | a reward is in the weighted pool if and only if it is affordable and has a slot for the level |
| Events.PoolCount | js/events.js:14-15 | in a pool of distinct rewards each affordable reward appears `weight[level]` times, any other reward never |
| Events.WeightedPoolCount | js/events.js:14-15 | in the configured pool each reward appears `weight[level]` times when affordable, else not at all |
| Events.PoolEmpty | js/events.js:17 | the pool is empty if and only if no affordable reward has a positive weight |
| Events.PoolHasGold | js/events.js:14-17 | with one point or more the configured pool is never empty |
| Events.Names | js/events.js:20 | the returned names are those of the drawn rewards, one for one |
| Events.Pick | js/events.js:19 | the drawn reward is affordable, in the pool and costs at least 1 |
| Events.DrawsStep | js/events.js:13-22 | the drawing stops if and only if no points are left or the pool is empty; otherwise the pick comes first |
| Events.DrawsAffordable | js/events.js:11-22 | every reward is affordable when drawn, the total spent is between 0 and `points`, and the drawing stops only when points run out or the pool is empty |
| Events.DrawsSpendAll | js/events.js:13-22 | a one-point reward that always has a slot makes the drawing spend a non-negative budget exactly |
| Events.ConfiguredDrawsSpendAll | js/events.js:13-22 | with the configured rewards the points are always spent exactly |
| Events.RunEnd | js/events.js:13-22 | a run of draws that has stopped is all the draws |
| Events.RewardsGenerator.constructor | js/events.js:3-7 | the generator keeps its level and points and draws from the configured rewards |
| Events.RewardsGenerator.Rewards | js/events.js:9-25 | `rewards()` returns the names of exactly the rewards drawn with the oracle |
| Events.RawStages | js/events.js:39-46 | the stage loop makes one stage per turn |
| Events.EnemyRanges | js/events.js:32-35 | points lie in `[(level-1)*3+1, level*3]`, health in `[1, 3]` |
| Events.RawStageBounds | js/events.js:38-46 | with one point or more every drawn stage has attack and defence of 0 or more, together at most `points - 1` |
| Events.TotalsAfterFirst | js/events.js:47-51 | replacing the first stage moves the totals by that stage's change only |
| Events.TopUpTotal | js/events.js:47-52 | after the top-up the stages total at least `points`, exactly `points` if they fell short, and are unchanged otherwise; only stage 0's attack moves |
| Events.Enemy.constructor | js/events.js:29-53 | points and health as drawn, three stages, the last two as drawn and the first topped up |
| Events.Fight.constructor | js/events.js:57-61 | a fresh enemy named "Wróg" of the fight's level, with the points, health and topped-up stages the Enemy constructor draws from calls 0 to 7; the reward budget is the enemy's points: the rewards are the names of the draws for that many points, from call 8 on |
| Events.FightSpendsEnemyPoints | js/events.js:59-60 | for a level of 1 or more the fight's rewards cost exactly the enemy's points |

## Left out

- Rendering and the DOM are not modelled: board creation, `renderShip`, the side-panel templates, CSS colours, the `body` getters of `Fight` and `Event`, and `printEvents`. Only the set of tiles that get a class, and which class, is modelled.
- `clearMovementRange` is modelled only by its effect on the marks, stated on `WindBoard.Board1.UpdateMovementRange` and `SquareBoard.Board2.UpdateMovementRange`. The tiles themselves are not iterated.
- String parsing of the inputs is not modelled. `parseInt` and `parseFloat` are taken as already done, with NaN as `None`.
- Floating point is not modelled. Costs are exact quarters and `moveVal` is an exact `real`. For a `moveVal` that is not a multiple of 0.25, the double rounding of `moveVal * s` in the browser is not modelled.
- `Math.random()` is an oracle over reals, not a distribution. A value outside [0, 1), which `Math.random()` never returns, reads as 0.
- The `Event` wrapper class only pairs a level with a `Fight`, and it is not modelled.
- Events.Fight.constructor: the default argument `level = 1` of `constructor(level = 1)` is not modelled; `new Fight()` corresponds to the model's `new Fight(1, rand)`. The same default on `Event` falls outside the model with the wrapper.
- js/nautical-map.js and js/main.js are not part of this model.
- Halving a 1.5 step gives 0.75, which is 3 quarters. All board prices are whole quarters, so quarter units lose nothing.
- WindBoard.ShowMovementRange: states no least-cost property. The `board1.js` search marks a cell visited when it is first queued, in FIFO order, so a cheaper walk found later never replaces the first price. The model proves what the search does guarantee: each entry is the exact cost of some walk from the ship, each entry is within the budget, and no in-budget step leaves the queued set.
- Events.Repeat: a negative or fractional weight, which makes `Array(n)` throw in the browser, gives an empty slot list here. No configured weight is negative or fractional (`Config.WeightsNonNegative`).
- Events.Copies: a level without a weight entry gives `Array(undefined)`, a one-slot array. The model gives it one copy, as the browser does.
- Events.Enemy.constructor: a level below 1 gives zero or negative points. The stages are then drawn from `Math.floor(u * n)` with `n <= 0`, as in the browser, and no bounds are claimed for them (`Events.RawStageBounds` requires one point or more).
