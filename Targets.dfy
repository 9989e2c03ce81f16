/** The target square, the engine's constants and the random placement. */
module Targets {
  import opened Zones

  /** Side of every square (`squareSize`, never reassigned). */
  const SquareSize: int := 50
  /** Distance kept from the display's top and left edges on most spawns (`distanceFormScreen`). */
  const Margin: int := 50
  /** Number of frames a square stays before it is replaced. */
  const Timeout: int := 200

  /** An entry of the engine's list of squares. The orientation is fixed when
      the square is created; every respawn keeps the engine's orientation. */
  datatype Square = Square(x: int, y: int, size: int, orientation: Orientation)

  /** `Random.Next(lo, hi)`: a value in [lo, hi), or `lo` when `lo == hi`
      (the generator throws when `lo > hi`, hence the precondition). The
      generator's state is replaced by an injected `sample`, reduced into range. */
  function Next(lo: int, hi: int, sample: nat): (v: int)
    requires lo <= hi
    ensures lo <= v
    ensures v < hi || v == lo == hi
  {
    if lo == hi then lo else lo + sample % (hi - lo)
  }

  /** Every value `Random.Next(lo, hi)` may return is produced by some sample. */
  lemma NextReaches(lo: int, hi: int, v: int)
    requires lo <= v < hi
    ensures Next(lo, hi, (v - lo) as nat) == v
  {
    var d := v - lo;
    assert 0 <= d < hi - lo;
    assert d % (hi - lo) == d;
  }

  /** The exclusive upper bound of the draw of an origin. */
  function Limit(extent: int): int { extent - SquareSize - Margin }

  /** Lower bound of the draw after a hit: `Margin` for Down and Up, 0 for Right and Left. */
  function HitFloor(o: Orientation): (lo: int)
    ensures 0 <= lo <= Margin
    ensures lo == Margin <==> o == Down || o == Up
    ensures o == Right || o == Left ==> lo == 0
  {
    if o == Down || o == Up then Margin else 0
  }
}
