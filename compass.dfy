/**
 * The arrow labels shared by the three boards, the wind selector's
 * state and the board coordinates.
 */
module Compass {

  datatype Option<T> = None | Some(value: T)

  /** A tile coordinate: row first, then column, both 0-based. */
  datatype Cell = Cell(row: int, col: int)

  /** The eight arrow labels, named by compass point (N is '↑'). */
  datatype Dir = N | NE | E | SE | S | SW | W | NW

  /** The wind buttons: '0' is Calm, every other button names an arrow. */
  datatype Wind = Calm | Blowing(toward: Dir)

  /** No element of `s` appears twice. */
  predicate Distinct<T(==)>(s: seq<T>) {
    forall i, j :: 0 <= i < j < |s| ==> s[i] != s[j]
  }

  /** The clockwise order board2.js calls windOrder. */
  const WindOrder: seq<Dir> := [N, NE, E, SE, S, SW, W, NW]

  /** `windOrder.indexOf(d)`. */
  function Index(d: Dir): (i: nat)
    ensures i < |WindOrder| && WindOrder[i] == d
  {
    match d
    case N => 0
    case NE => 1
    case E => 2
    case SE => 3
    case S => 4
    case SW => 5
    case W => 6
    case NW => 7
  }

  /** The direction four places further round windOrder. */
  function Opposite(d: Dir): (o: Dir)
    ensures o != d
    ensures (Index(d) + 4) % 8 == Index(o)
  {
    WindOrder[(Index(d) + 4) % 8]
  }

  /** Opposition pairs the eight directions up. */
  lemma OppositeInvolutive(d: Dir)
    ensures Opposite(Opposite(d)) == d
  {
  }

  predicate IsDiagonal(d: Dir) {
    d == NE || d == SE || d == SW || d == NW
  }

  /** The characters the buttons carry in their data-dir attribute. */
  function Arrow(d: Dir): char {
    match d
    case N => '↑'
    case NE => '↗'
    case E => '→'
    case SE => '↘'
    case S => '↓'
    case SW => '↙'
    case W => '←'
    case NW => '↖'
  }

  /** No two directions share an arrow, so a button's data-dir names one direction. */
  lemma ArrowInjective(d: Dir, e: Dir)
    ensures Arrow(d) == Arrow(e) <==> d == e
  {
  }
}
