/**
 * The event generator: a fight against an enemy whose points, health and
 * three attack/defence stages are drawn at random for a level, and whose
 * reward is a list of rewards drawn at random until its points are spent.
 *
 * `Math.random()` is an oracle `rand`: `rand(k)` is the value of its
 * `k`-th call, a real in [0, 1). A fight makes eight calls for its enemy
 * (points, health, then attack and defence of each stage) and the rewards
 * go on from the ninth.
 */
module Events {
  import opened Compass
  import opened Config

  /** The values `Math.random()` returns: reals in [0, 1). */
  predicate IsRandom(u: real) {
    0.0 <= u < 1.0
  }

  /**
   * `Math.floor(Math.random() * n)`, `u` being the value of the call. A
   * value Math.random() never returns is read as 0.
   */
  function RandomBelow(u: real, n: int): (i: int)
    ensures n >= 1 ==> 0 <= i < n
  {
    if IsRandom(u) then
      UnitScale(u, n);
      (u * (n as real)).Floor
    else 0
  }

  lemma UnitScale(u: real, n: int)
    requires IsRandom(u)
    ensures n >= 1 ==> 0.0 <= u * (n as real) < n as real
  {
    if n >= 1 {
      assert (n as real) - u * (n as real) == (1.0 - u) * (n as real);
      assert (1.0 - u) * (n as real) > 0.0;
    }
  }

  // ---------------------------------------------------------------- rewards

  /**
   * The length of `Array(reward.weight[level])`: the weight of the level,
   * or a single slot when the table has no entry for it (`Array(undefined)`).
   */
  function Copies(r: Resource, level: int): int {
    if level in r.weight then r.weight[level] else 1
  }

  /** `Array(n).fill(r)`. */
  function Repeat(r: Resource, n: int): (s: seq<Resource>)
    ensures n >= 0 ==> |s| == n
  {
    if n <= 0 then [] else seq(n, _ => r)
  }

  /** Only `r` is in `Array(n).fill(r)`. */
  lemma RepeatMembers(r: Resource, n: int, x: Resource)
    ensures x in Repeat(r, n) <==> n > 0 && x == r
  {
    if n > 0 {
      assert Repeat(r, n)[0] == r;
    }
  }

  /** `Array(n).fill(r)` is `r` followed by `Array(n - 1).fill(r)`. */
  lemma RepeatCons(r: Resource, n: int)
    requires n > 0
    ensures Repeat(r, n) == [r] + Repeat(r, n - 1)
  {
    assert forall i :: 0 <= i < n ==> Repeat(r, n)[i] == ([r] + Repeat(r, n - 1))[i];
  }

  /**
   * The weighted pool of rewardsGenerator.rewards: the rewards of `rs`
   * affordable with `remaining` points, each repeated as often as its
   * weight for the level.
   */
  function Pool(rs: seq<Resource>, level: int, remaining: int): seq<Resource>
  {
    if rs == [] then []
    else (if rs[0].cost <= remaining then Repeat(rs[0], Copies(rs[0], level)) else []) + Pool(rs[1..], level, remaining)
  }

  /** `r` is one of `rs`, affordable with `remaining` points, and has a slot for the level. */
  predicate Fits(r: Resource, rs: seq<Resource>, level: int, remaining: int) {
    r in rs && r.cost <= remaining && Copies(r, level) > 0
  }

  /** A reward is in the pool exactly when it fits. */
  lemma {:induction false} PoolMembers(rs: seq<Resource>, level: int, remaining: int, x: Resource)
    ensures x in Pool(rs, level, remaining) <==> Fits(x, rs, level, remaining)
  {
    if rs != [] {
      var rest := rs[1..];
      PoolMembers(rest, level, remaining, x);
      RepeatMembers(rs[0], Copies(rs[0], level), x);
      assert rs == [rs[0]] + rest;
      assert x in rs <==> x == rs[0] || x in rest;
    }
  }

  /** In a pool built from different rewards, `x` appears as often as its weight, when it fits. */
  lemma {:induction false} PoolCount(rs: seq<Resource>, level: int, remaining: int, x: Resource)
    requires Distinct(rs)
    ensures multiset(Pool(rs, level, remaining))[x] == if Fits(x, rs, level, remaining) then Copies(x, level) else 0
  {
    if rs != [] {
      var rest := rs[1..];
      DistinctTail(rs, x);
      PoolCount(rest, level, remaining, x);
      var head := if rs[0].cost <= remaining then Repeat(rs[0], Copies(rs[0], level)) else [];
      RepeatCount(rs[0], Copies(rs[0], level), x);
      assert Pool(rs, level, remaining) == head + Pool(rest, level, remaining);
      assert multiset(head + Pool(rest, level, remaining)) == multiset(head) + multiset(Pool(rest, level, remaining));
    }
  }

  /** Without repetitions, the tail is without repetitions and `x` is in the list as the head or in the tail, not both. */
  lemma DistinctTail(rs: seq<Resource>, x: Resource)
    requires Distinct(rs) && rs != []
    ensures Distinct(rs[1..]) && rs[0] !in rs[1..]
    ensures x in rs <==> x == rs[0] || x in rs[1..]
  {
    var rest := rs[1..];
    assert rs == [rs[0]] + rest;
    forall i, j | 0 <= i < j < |rest| ensures rest[i] != rest[j] {
      assert rest[i] == rs[i + 1] && rest[j] == rs[j + 1];
    }
    forall i | 0 <= i < |rest| ensures rest[i] != rs[0] {
      assert rest[i] == rs[i + 1];
    }
  }

  lemma {:induction false} RepeatCount(r: Resource, n: int, x: Resource)
    ensures multiset(Repeat(r, n))[x] == if r == x && n > 0 then n else 0
    decreases n
  {
    if n > 0 {
      RepeatCount(r, n - 1, x);
      RepeatCons(r, n);
      assert multiset(Repeat(r, n)) == multiset([r]) + multiset(Repeat(r, n - 1));
    }
  }

  /** In the configured pool each reward appears as often as its weight for the level, if it is affordable. */
  lemma WeightedPoolCount(level: int, remaining: int, i: int)
    requires 0 <= i < |Resources| && IsLevel(level)
    ensures multiset(Pool(Resources, level, remaining))[Resources[i]] ==
      if Resources[i].cost <= remaining then Resources[i].weight[level] else 0
  {
    WeightsNonNegative();
    ResourcesDistinct();
    PoolCount(Resources, level, remaining, Resources[i]);
  }

  /** The pool is empty exactly when no affordable reward has a positive weight for the level. */
  lemma PoolEmpty(rs: seq<Resource>, level: int, remaining: int)
    ensures |Pool(rs, level, remaining)| == 0 <==> forall r :: r in rs ==> r.cost > remaining || Copies(r, level) <= 0
  {
    if rs != [] {
      PoolEmpty(rs[1..], level, remaining);
      assert forall r :: r in rs <==> r == rs[0] || r in rs[1..] by {
        assert rs == [rs[0]] + rs[1..];
      }
    }
  }

  /** Gold costs one point and always has a slot, so for one point or more the pool is never empty. */
  lemma PoolHasGold(level: int, remaining: int)
    requires remaining >= 1
    ensures |Pool(Resources, level, remaining)| > 0
  {
    PoolEmpty(Resources, level, remaining);
    assert Gold in Resources && Gold.cost <= remaining && Copies(Gold, level) > 0;
  }

  function Total(d: seq<Resource>): int {
    if d == [] then 0 else d[0].cost + Total(d[1..])
  }

  lemma TotalCons(r: Resource, d: seq<Resource>)
    ensures Total([r] + d) == r.cost + Total(d)
  {
    assert ([r] + d)[1..] == d;
  }

  function Names(d: seq<Resource>): (names: seq<string>)
    ensures |names| == |d| && forall i :: 0 <= i < |d| ==> names[i] == d[i].name
  {
    if d == [] then [] else [d[0].name] + Names(d[1..])
  }

  /** Every reward costs at least one point, so each draw lowers the points left. */
  predicate PositiveCosts(rs: seq<Resource>) {
    forall r :: r in rs ==> r.cost >= 1
  }

  /**
   * The rewards drawn from `rs` with `remaining` points on, the draw using
   * `rand(k)` first: while points remain and the pool is not empty, one
   * reward of the pool, paid for.
   */
  function Draws(rs: seq<Resource>, level: int, remaining: int, rand: nat -> real, k: nat): seq<Resource>
    requires PositiveCosts(rs)
    decreases if remaining > 0 then remaining else 0
  {
    if Stopped(rs, level, remaining) then []
    else
      var r := Pick(rs, level, remaining, rand, k);
      [r] + Draws(rs, level, remaining - r.cost, rand, k + 1)
  }

  /** The reward the draw using `rand(k)` picks from a non-empty pool. */
  function Pick(rs: seq<Resource>, level: int, remaining: int, rand: nat -> real, k: nat): (r: Resource)
    requires PositiveCosts(rs) && |Pool(rs, level, remaining)| > 0
    ensures Fits(r, rs, level, remaining) && r.cost >= 1
  {
    var pool := Pool(rs, level, remaining);
    var i := RandomBelow(rand(k), |pool|);
    PoolMembers(rs, level, remaining, pool[i]);
    pool[i]
  }

  /** With no points left or an empty pool nothing more is drawn. */
  lemma DrawsEmpty(rs: seq<Resource>, level: int, remaining: int, rand: nat -> real, k: nat)
    requires PositiveCosts(rs) && Stopped(rs, level, remaining)
    ensures Draws(rs, level, remaining, rand, k) == []
  {
  }

  /** With points left and a non-empty pool, the picked reward comes first, then the draws from what it leaves. */
  lemma DrawsCons(rs: seq<Resource>, level: int, remaining: int, rand: nat -> real, k: nat)
    requires PositiveCosts(rs) && !Stopped(rs, level, remaining)
    ensures var r := Pick(rs, level, remaining, rand, k);
      Draws(rs, level, remaining, rand, k) == [r] + Draws(rs, level, remaining - r.cost, rand, k + 1)
  {
  }

  /** One draw: the drawing is over exactly when it has stopped, and otherwise goes on with the pick. */
  lemma DrawsStep(rs: seq<Resource>, level: int, remaining: int, rand: nat -> real, k: nat)
    requires PositiveCosts(rs)
    ensures Stopped(rs, level, remaining) <==> Draws(rs, level, remaining, rand, k) == []
    ensures !Stopped(rs, level, remaining) ==>
      var r := Pick(rs, level, remaining, rand, k);
      Draws(rs, level, remaining, rand, k) == [r] + Draws(rs, level, remaining - r.cost, rand, k + 1)
  {
    if Stopped(rs, level, remaining) {
      DrawsEmpty(rs, level, remaining, rand, k);
    } else {
      DrawsCons(rs, level, remaining, rand, k);
    }
  }

  /** Every reward of `d`, in turn, is in the pool of the points left before it: it fits them. */
  ghost predicate Affordable(d: seq<Resource>, rs: seq<Resource>, level: int, remaining: int) {
    d == [] || (Fits(d[0], rs, level, remaining) && Affordable(d[1..], rs, level, remaining - d[0].cost))
  }

  /** The loop of rewards() stops here: no points are left, or nothing in the pool. */
  predicate Stopped(rs: seq<Resource>, level: int, left: int) {
    left <= 0 || |Pool(rs, level, left)| == 0
  }

  /**
   * The drawing never overspends: every reward drawn is affordable from the
   * points left at that moment, the points left never go negative, and
   * drawing stops only when no points are left or the pool is empty.
   */
  lemma {:induction false} DrawsAffordable(rs: seq<Resource>, level: int, remaining: int, rand: nat -> real, k: nat)
    requires PositiveCosts(rs)
    ensures Affordable(Draws(rs, level, remaining, rand, k), rs, level, remaining)
    ensures remaining >= 0 ==> 0 <= Total(Draws(rs, level, remaining, rand, k)) <= remaining
    ensures Stopped(rs, level, remaining - Total(Draws(rs, level, remaining, rand, k)))
    decreases if remaining > 0 then remaining else 0
  {
    if Stopped(rs, level, remaining) {
      DrawsEmpty(rs, level, remaining, rand, k);
      assert Total(Draws(rs, level, remaining, rand, k)) == 0;
    } else {
      var r := Pick(rs, level, remaining, rand, k);
      var left := remaining - r.cost;
      DrawsAffordable(rs, level, left, rand, k + 1);
      DrawsCons(rs, level, remaining, rand, k);
      AffordableStep(rs, level, remaining, r, Draws(rs, level, left, rand, k + 1), Draws(rs, level, remaining, rand, k));
    }
  }

  /** A fitting reward in front of an affordable run keeps it affordable and accounts for its cost. */
  lemma AffordableStep(rs: seq<Resource>, level: int, remaining: int, r: Resource, d: seq<Resource>, drawn: seq<Resource>)
    requires drawn == [r] + d && Fits(r, rs, level, remaining) && r.cost >= 1
    requires Affordable(d, rs, level, remaining - r.cost)
    requires remaining - r.cost >= 0 ==> 0 <= Total(d) <= remaining - r.cost
    requires Stopped(rs, level, remaining - r.cost - Total(d))
    ensures Affordable(drawn, rs, level, remaining)
    ensures remaining >= 0 ==> 0 <= Total(drawn) <= remaining
    ensures Stopped(rs, level, remaining - Total(drawn))
  {
    AffordableCons(r, d, rs, level, remaining);
    TotalCons(r, d);
    assert remaining - Total(drawn) == remaining - r.cost - Total(d);
  }

  lemma AffordableCons(r: Resource, d: seq<Resource>, rs: seq<Resource>, level: int, remaining: int)
    requires Fits(r, rs, level, remaining) && Affordable(d, rs, level, remaining - r.cost)
    ensures Affordable([r] + d, rs, level, remaining)
  {
    assert ([r] + d)[0] == r && ([r] + d)[1..] == d;
  }

  /**
   * A reward that costs one point and always has a slot keeps the pool
   * non-empty while points remain, so a non-negative budget is spent exactly.
   */
  lemma DrawsSpendAll(rs: seq<Resource>, level: int, remaining: int, rand: nat -> real, k: nat, coin: Resource)
    requires PositiveCosts(rs) && coin in rs && coin.cost == 1 && Copies(coin, level) > 0
    requires remaining >= 0
    ensures Total(Draws(rs, level, remaining, rand, k)) == remaining
  {
    DrawsAffordable(rs, level, remaining, rand, k);
    var left := remaining - Total(Draws(rs, level, remaining, rand, k));
    PoolMembers(rs, level, left, coin);
  }

  /** Gold always fits, so the configured rewards spend a non-negative budget exactly. */
  lemma ConfiguredDrawsSpendAll(level: int, remaining: int, rand: nat -> real, k: nat)
    requires remaining >= 0
    ensures PositiveCosts(Resources)
    ensures Total(Draws(Resources, level, remaining, rand, k)) == remaining
  {
    CostsPositive();
    assert Gold in Resources && Copies(Gold, level) > 0;
    DrawsSpendAll(Resources, level, remaining, rand, k, Gold);
  }

  /**
   * `drawn` is the run of draws from `remaining0` points and `rand(k0)` that
   * leaves `remaining` points and the next call at `rand(k)`.
   */
  ghost predicate Run(rs: seq<Resource>, level: int, remaining0: int, rand: nat -> real, k0: nat,
                      drawn: seq<Resource>, remaining: int, k: nat)
    requires PositiveCosts(rs)
    decreases |drawn|
  {
    if drawn == [] then remaining0 == remaining && k0 == k
    else
      && !Stopped(rs, level, remaining0)
      && drawn[0] == Pick(rs, level, remaining0, rand, k0)
      && Run(rs, level, remaining0 - drawn[0].cost, rand, k0 + 1, drawn[1..], remaining, k)
  }

  /** One more draw extends the run. */
  lemma {:induction false} RunSnoc(rs: seq<Resource>, level: int, remaining0: int, rand: nat -> real, k0: nat,
                                   drawn: seq<Resource>, remaining: int, k: nat)
    requires PositiveCosts(rs) && !Stopped(rs, level, remaining)
    requires Run(rs, level, remaining0, rand, k0, drawn, remaining, k)
    ensures var r := Pick(rs, level, remaining, rand, k);
      Run(rs, level, remaining0, rand, k0, drawn + [r], remaining - r.cost, k + 1)
    decreases |drawn|
  {
    var r := Pick(rs, level, remaining, rand, k);
    if drawn == [] {
      assert [] + [r] == [r] && [r][1..] == [];
    } else {
      var left := remaining0 - drawn[0].cost;
      RunSnoc(rs, level, left, rand, k0 + 1, drawn[1..], remaining, k);
      assert (drawn + [r])[0] == drawn[0] && (drawn + [r])[1..] == drawn[1..] + [r];
    }
  }

  /** The first reward of a non-empty run is the pick, and the rest is a run from what it leaves. */
  lemma RunHead(rs: seq<Resource>, level: int, remaining0: int, rand: nat -> real, k0: nat,
                drawn: seq<Resource>, remaining: int, k: nat)
    requires PositiveCosts(rs) && drawn != []
    requires Run(rs, level, remaining0, rand, k0, drawn, remaining, k)
    ensures !Stopped(rs, level, remaining0)
    ensures var r := Pick(rs, level, remaining0, rand, k0);
      drawn == [r] + drawn[1..] && Run(rs, level, remaining0 - r.cost, rand, k0 + 1, drawn[1..], remaining, k)
  {
  }

  /** A run that has stopped is all the draws. */
  lemma {:induction false} RunEnd(rs: seq<Resource>, level: int, remaining0: int, rand: nat -> real, k0: nat,
                                  drawn: seq<Resource>, remaining: int, k: nat)
    requires PositiveCosts(rs) && Stopped(rs, level, remaining)
    requires Run(rs, level, remaining0, rand, k0, drawn, remaining, k)
    ensures Draws(rs, level, remaining0, rand, k0) == drawn
    decreases |drawn|
  {
    if drawn == [] {
      DrawsEmpty(rs, level, remaining0, rand, k0);
    } else {
      RunHead(rs, level, remaining0, rand, k0, drawn, remaining, k);
      var r := Pick(rs, level, remaining0, rand, k0);
      RunEnd(rs, level, remaining0 - r.cost, rand, k0 + 1, drawn[1..], remaining, k);
      DrawsCons(rs, level, remaining0, rand, k0);
    }
  }

  lemma NamesAppend(a: seq<Resource>, b: seq<Resource>)
    ensures Names(a + b) == Names(a) + Names(b)
  {
  }

  lemma NamesSnoc(d: seq<Resource>, r: Resource)
    ensures Names(d + [r]) == Names(d) + [r.name]
  {
    NamesAppend(d, [r]);
  }

  /** A RewardsGenerator for a level and a number of points, drawing from the configured rewards. */
  class RewardsGenerator {
    var level: int
    var points: int
    var rewardsPool: seq<Resource>

    constructor(level: int, points: int)
      ensures this.level == level && this.points == points && rewardsPool == Resources
    {
      this.level := level;
      this.points := points;
      rewardsPool := Resources;
    }

    /** rewards(): the names of the rewards drawn, `rand(first)` being the first call to `Math.random()`. */
    method Rewards(rand: nat -> real, first: nat) returns (rewards: seq<string>)
      requires PositiveCosts(rewardsPool)
      ensures rewards == Names(Draws(rewardsPool, level, points, rand, first))
    {
      var pool, lvl, budget := rewardsPool, level, points;
      rewards := [];
      var remainingPoints := budget;
      var k := first;
      ghost var drawn: seq<Resource> := [];
      while remainingPoints > 0
        invariant Run(pool, lvl, budget, rand, first, drawn, remainingPoints, k)
        invariant rewards == Names(drawn)
        decreases remainingPoints
      {
        var weightedPool := Pool(pool, lvl, remainingPoints);
        if |weightedPool| == 0 {
          break;
        }
        var selectedReward := weightedPool[RandomBelow(rand(k), |weightedPool|)];
        assert selectedReward == Pick(pool, lvl, remainingPoints, rand, k);
        RunSnoc(pool, lvl, budget, rand, first, drawn, remainingPoints, k);
        NamesSnoc(drawn, selectedReward);
        rewards := rewards + [selectedReward.name];
        remainingPoints := remainingPoints - selectedReward.cost;
        drawn := drawn + [selectedReward];
        k := k + 1;
      }
      RunEnd(pool, lvl, budget, rand, first, drawn, remainingPoints, k);
    }
  }

  // ---------------------------------------------------------------- enemies

  /** One stage of a fight. */
  datatype Stage = Stage(attack: int, defence: int)

  /** The enemy's points: the level's band of `EnemyScaling` values, one drawn at random. */
  function EnemyPoints(level: int, u: real): int {
    (level - 1) * EnemyScaling + RandomBelow(u, EnemyScaling) + 1
  }

  function Health(u: real): int {
    RandomBelow(u, EnemyScaling) + 1
  }

  /** One turn of the stage loop: attack below the points, defence below what the attack leaves. */
  function RawStage(stagePoints: int, u: real, v: real): Stage {
    var attack := RandomBelow(u, stagePoints);
    Stage(attack, RandomBelow(v, stagePoints - attack))
  }

  /** The first `n` stages as drawn, the stage `i` (from 0) using `rand(2 + 2 * i)` and `rand(3 + 2 * i)`. */
  function RawStages(stagePoints: int, rand: nat -> real, n: nat): (stages: seq<Stage>)
    ensures |stages| == n
  {
    if n == 0 then []
    else RawStages(stagePoints, rand, n - 1) + [RawStage(stagePoints, rand(2 * n), rand(2 * n + 1))]
  }

  function TotalAttack(stages: seq<Stage>): int {
    if stages == [] then 0 else stages[0].attack + TotalAttack(stages[1..])
  }

  function TotalDefence(stages: seq<Stage>): int {
    if stages == [] then 0 else stages[0].defence + TotalDefence(stages[1..])
  }

  /** The top-up: what the stages fall short of the points is added to the attack of the first stage. */
  function TopUp(stages: seq<Stage>, points: int): seq<Stage>
    requires |stages| > 0
  {
    var diff := points - (TotalAttack(stages) + TotalDefence(stages));
    if diff > 0 then stages[0 := Stage(stages[0].attack + diff, stages[0].defence)] else stages
  }

  /** The points of an enemy of level `level` lie in `(level - 1) * 3 + 1 .. level * 3`; its health in `1 .. 3`. */
  lemma EnemyRanges(level: int, u: real, v: real)
    ensures (level - 1) * EnemyScaling + 1 <= EnemyPoints(level, u) <= level * EnemyScaling
    ensures 1 <= Health(v) <= EnemyScaling
  {
  }

  /** With one point or more, every drawn stage has attack and defence of 0 or more and together below the points. */
  lemma {:induction false} RawStageBounds(stagePoints: int, rand: nat -> real, n: nat)
    requires stagePoints >= 1
    ensures forall i :: 0 <= i < n ==>
      var st := RawStages(stagePoints, rand, n)[i];
      0 <= st.attack && 0 <= st.defence && st.attack + st.defence <= stagePoints - 1
  {
    if n > 0 {
      RawStageBounds(stagePoints, rand, n - 1);
      var st := RawStage(stagePoints, rand(2 * n), rand(2 * n + 1));
      assert 0 <= st.attack < stagePoints;
      assert 0 <= st.defence < stagePoints - st.attack;
    }
  }

  /** Replacing the first stage changes the totals by the difference in that stage only. */
  lemma TotalsAfterFirst(stages: seq<Stage>, s: Stage)
    requires |stages| > 0
    ensures TotalAttack(stages[0 := s]) == TotalAttack(stages) - stages[0].attack + s.attack
    ensures TotalDefence(stages[0 := s]) == TotalDefence(stages) - stages[0].defence + s.defence
  {
    assert stages[0 := s][1..] == stages[1..];
  }

  /**
   * After the top-up the stages add up to the points at least; exactly to
   * the points when they fell short before, and unchanged when they did
   * not. Only the attack of the first stage moves.
   */
  lemma TopUpTotal(stages: seq<Stage>, points: int)
    requires |stages| > 0
    ensures var t := TopUp(stages, points);
      && |t| == |stages| && t[1..] == stages[1..] && t[0].defence == stages[0].defence
      && TotalAttack(t) + TotalDefence(t) >= points
      && (TotalAttack(stages) + TotalDefence(stages) < points ==> TotalAttack(t) + TotalDefence(t) == points)
      && (TotalAttack(stages) + TotalDefence(stages) >= points ==> t == stages)
  {
    var diff := points - (TotalAttack(stages) + TotalDefence(stages));
    if diff > 0 {
      TotalsAfterFirst(stages, Stage(stages[0].attack + diff, stages[0].defence));
    }
  }

  /** An enemy: its name, points, health and the three stages of the fight. */
  class Enemy {
    var name: string
    var points: int
    var health: int
    var stages: seq<Stage>

    /** The Enemy constructor, drawing `rand(0)` to `rand(7)`. */
    constructor(name: string, level: int, rand: nat -> real)
      ensures this.name == name
      ensures points == EnemyPoints(level, rand(0)) && health == Health(rand(1))
      ensures |stages| == 3 && stages[1..] == RawStages(points, rand, 3)[1..]
      ensures stages == TopUp(RawStages(points, rand, 3), points)
    {
      this.name := name;
      var p := EnemyPoints(level, rand(0));
      points := p;
      health := Health(rand(1));
      var drawnStages: seq<Stage> := [];
      var stagePoints := p;
      for i := 0 to 3
        invariant drawnStages == RawStages(stagePoints, rand, i)
      {
        var stageAttack := RandomBelow(rand(2 + 2 * i), stagePoints);
        var stageDefence := RandomBelow(rand(3 + 2 * i), stagePoints - stageAttack);
        drawnStages := drawnStages + [Stage(stageAttack, stageDefence)];
      }
      var totalAttack := TotalAttack(drawnStages);
      var totalDefence := TotalDefence(drawnStages);
      var diff := p - (totalAttack + totalDefence);
      if diff > 0 {
        drawnStages := drawnStages[0 := Stage(drawnStages[0].attack + diff, drawnStages[0].defence)];
      }
      stages := drawnStages;
      TopUpTotal(RawStages(p, rand, 3), p);
    }
  }

  // ---------------------------------------------------------------- fights

  /** The random calls a fight's enemy makes before the rewards are drawn. */
  const EnemyDraws: nat := 8

  /** A fight: an enemy of the level and a reward bought with the enemy's points. */
  class Fight {
    var name: string
    var enemy: Enemy
    var rewards: seq<string>

    constructor(level: int, rand: nat -> real)
      ensures name == "Walka!"
      ensures fresh(enemy) && enemy.name == "Wróg"
      ensures enemy.points == EnemyPoints(level, rand(0)) && enemy.health == Health(rand(1))
      ensures enemy.stages == TopUp(RawStages(enemy.points, rand, 3), enemy.points)
      ensures PositiveCosts(Resources)
      ensures rewards == Names(Draws(Resources, level, enemy.points, rand, EnemyDraws))
    {
      name := "Walka!";
      var e := new Enemy("Wróg", level, rand);
      enemy := e;
      var generator := new RewardsGenerator(level, e.points);
      CostsPositive();
      var drawn := generator.Rewards(rand, EnemyDraws);
      rewards := drawn;
    }
  }

  /** The reward budget of a fight is its enemy's points, and for a level of 1 or more it is spent exactly. */
  lemma FightSpendsEnemyPoints(level: int, rand: nat -> real)
    requires level >= 1
    ensures PositiveCosts(Resources)
    ensures Total(Draws(Resources, level, EnemyPoints(level, rand(0)), rand, EnemyDraws)) == EnemyPoints(level, rand(0))
  {
    EnemyRanges(level, rand(0), rand(1));
    ConfiguredDrawsSpendAll(level, EnemyPoints(level, rand(0)), rand, EnemyDraws);
  }
}
