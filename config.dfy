/**
 * The `config` constant of the event generator: the arrow labels, the
 * enemy scaling and the four rewards with their cost and their weight per
 * level. `Object.values(config.resources)` lists the rewards in the order
 * they are written.
 */
module Config {
  import Compass

  /** A reward: the name shown on the card, its cost in points and its weight per level. */
  datatype Resource = Resource(name: string, cost: int, weight: map<int, int>)

  const Directions: seq<char> := ['↑', '↓', '→', '←', '↗', '↖', '↘', '↙']

  const EnemyScaling: int := 3

  const EpicStory: Resource := Resource("Epicka historia", 8, map[1 := 0, 2 := 1, 3 := 4])
  const Character: Resource := Resource("Postać", 4, map[1 := 0, 2 := 2, 3 := 3])
  const Gold: Resource := Resource("Złoto", 1, map[1 := 2, 2 := 2, 3 := 1])
  const Wood: Resource := Resource("Drewno", 2, map[1 := 1, 2 := 2, 3 := 1])

  /** `Object.values(config.resources)`. */
  const Resources: seq<Resource> := [EpicStory, Character, Gold, Wood]

  /** The levels the weight tables are written for. */
  predicate IsLevel(level: int) {
    1 <= level <= 3
  }

  /** Every reward costs a positive whole number of points: 8, 4, 1 and 2. */
  lemma CostsPositive()
    ensures forall r :: r in Resources ==> r.cost >= 1
    ensures seq(|Resources|, i requires 0 <= i < |Resources| => Resources[i].cost) == [8, 4, 1, 2]
  {
  }

  /** Every reward has a weight, 0 or more, for each of the levels 1 to 3. */
  lemma WeightsNonNegative()
    ensures forall r, level :: r in Resources && IsLevel(level) ==> level in r.weight && r.weight[level] >= 0
  {
  }

  /** At level 1 only gold and wood can be drawn. */
  lemma LevelOneRewards()
    ensures forall r :: r in Resources ==> (r.weight[1] > 0 <==> r == Gold || r == Wood)
  {
  }

  /** Gold costs one point and has a positive weight at every level. */
  lemma GoldAlwaysAvailable()
    ensures Gold in Resources && Gold.cost == 1
    ensures forall level :: IsLevel(level) ==> level in Gold.weight && Gold.weight[level] > 0
  {
  }

  /** The rewards are four different ones. */
  lemma ResourcesDistinct()
    ensures |Resources| == 4 && Compass.Distinct(Resources)
  {
  }

  /** The enemy scaling is 3, and the eight arrows are all different. */
  lemma DirectionsDistinct()
    ensures EnemyScaling == 3 && |Directions| == 8
    ensures Compass.Distinct(Directions)
  {
  }

  /** The arrows are exactly the labels of the eight compass directions. */
  lemma DirectionsAreArrows()
    ensures forall d :: Compass.Arrow(d) in Directions
    ensures forall c :: c in Directions ==> exists d :: Compass.Arrow(d) == c
  {
    forall d ensures Compass.Arrow(d) in Directions {
      match d
      case N => assert Directions[0] == Compass.Arrow(d);
      case S => assert Directions[1] == Compass.Arrow(d);
      case E => assert Directions[2] == Compass.Arrow(d);
      case W => assert Directions[3] == Compass.Arrow(d);
      case NE => assert Directions[4] == Compass.Arrow(d);
      case NW => assert Directions[5] == Compass.Arrow(d);
      case SE => assert Directions[6] == Compass.Arrow(d);
      case SW => assert Directions[7] == Compass.Arrow(d);
    }
    forall c | c in Directions ensures exists d :: Compass.Arrow(d) == c {
      if c == '↑' { assert Compass.Arrow(Compass.N) == c; }
      else if c == '↓' { assert Compass.Arrow(Compass.S) == c; }
      else if c == '→' { assert Compass.Arrow(Compass.E) == c; }
      else if c == '←' { assert Compass.Arrow(Compass.W) == c; }
      else if c == '↗' { assert Compass.Arrow(Compass.NE) == c; }
      else if c == '↖' { assert Compass.Arrow(Compass.NW) == c; }
      else if c == '↘' { assert Compass.Arrow(Compass.SE) == c; }
      else { assert Compass.Arrow(Compass.SW) == c; }
    }
  }
}
