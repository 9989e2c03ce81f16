/** What one frame does to the engine's state, as pure functions. The class
    `GestureEngine` is proved to follow these functions step by step. */
module FrameSpec {
  import opened Zones
  import opened Targets

  /** A body of the frame: untracked bodies are skipped; for a tracked one only
      its two wrists, already projected to display space, are consulted. */
  datatype Body = Untracked | Tracked(wristRight: Point, wristLeft: Point)

  /** What stays fixed for the engine's lifetime: the display size, the
      orientation every square gets, and the stream of samples that stands
      for the random generator. */
  datatype Config = Config(width: int, height: int, orientation: Orientation, samples: nat -> nat)

  /** The display leaves room for a square and its margins, so that every draw
      has `lo <= hi` (the generator throws otherwise). */
  predicate ValidConfig(c: Config) {
    c.width >= SquareSize + 2 * Margin && c.height >= SquareSize + 2 * Margin
  }

  /** The engine's mutable state: the five flags, the frame counter, the
      score, the square's origin and how many samples have been drawn. */
  datatype Snapshot = Snapshot(flags: Flags, counter: int, points: int, squareX: int, squareY: int, drawn: nat)

  function BoundsOf(s: Snapshot): Bounds {
    Bounds(s.squareX, s.squareY, SquareSize)
  }

  /** What holds between frames and between bodies. */
  predicate Invariant(c: Config, s: Snapshot) {
    && 0 <= s.counter <= Timeout
    && 0 <= s.points
    && HitFloor(c.orientation) <= s.squareX <= Limit(c.width)
    && HitFloor(c.orientation) <= s.squareY <= Limit(c.height)
    && Resting(c.orientation, s.flags)
  }

  /** The square is removed and a new one placed: two draws, x then y, each
      from [lo, extent - SquareSize - Margin). Nothing else changes. */
  function Respawn(c: Config, s: Snapshot, lo: int): (r: Snapshot)
    requires ValidConfig(c) && 0 <= lo <= Margin
    ensures lo <= r.squareX <= Limit(c.width) && (r.squareX < Limit(c.width) || r.squareX == lo)
    ensures lo <= r.squareY <= Limit(c.height) && (r.squareY < Limit(c.height) || r.squareY == lo)
    ensures r.drawn == s.drawn + 2
    ensures r.flags == s.flags && r.counter == s.counter && r.points == s.points
  {
    s.(squareX := Next(lo, Limit(c.width), c.samples(s.drawn)),
       squareY := Next(lo, Limit(c.height), c.samples(s.drawn + 1)),
       drawn := s.drawn + 2)
  }

  /** The state the window's constructor leaves: no flag raised, nothing
      counted, one square drawn from the margin range. */
  function Initial(c: Config): (s: Snapshot)
    requires ValidConfig(c)
    ensures s.flags == NoFlags && s.counter == 0 && s.points == 0 && s.drawn == 2
    ensures Margin <= s.squareX && Margin <= s.squareY
    ensures Invariant(c, s)
  {
    Respawn(c, Snapshot(NoFlags, 0, 0, 0, 0, 0), Margin)
  }

  /** The timeout taken at the start of every frame: once the counter has
      reached `Timeout` the square is replaced and the counter restarts. The
      flags are not touched, so a sweep under way carries over to the new square. */
  function Age(c: Config, s: Snapshot): (r: Snapshot)
    requires ValidConfig(c)
    ensures s.counter == Timeout ==> r.counter == 0 && r.drawn == s.drawn + 2
    ensures s.counter == Timeout ==> Margin <= r.squareX <= Limit(c.width) && Margin <= r.squareY <= Limit(c.height)
    ensures s.counter == Timeout ==>
      (r.squareX < Limit(c.width) || r.squareX == Margin) && (r.squareY < Limit(c.height) || r.squareY == Margin)
    ensures s.counter != Timeout ==> r == s
    ensures r.flags == s.flags && r.points == s.points
  {
    if s.counter == Timeout then Respawn(c, s, Margin).(counter := 0) else s
  }

  /** The body's wrists complete the sweep against the current square. */
  predicate Hits(c: Config, s: Snapshot, right: Point, left: Point) {
    Complete(c.orientation, Latch(c.orientation, s.flags, BoundsOf(s), right, left))
  }

  /** One tracked body: latch the phases; on a completed sweep lower the
      three phase flags, restart the counter, score a point and respawn;
      then, if neither wrist was in the column of the square as it was when
      the body was visited, lower `above`, `inside` and `below`. */
  function BodyStep(c: Config, s: Snapshot, right: Point, left: Point): (r: Snapshot)
    requires ValidConfig(c)
    ensures r.points == s.points + (if Hits(c, s, right, left) then 1 else 0)
    ensures Hits(c, s, right, left) ==>
      && r.counter == 0
      && !Pre(c.orientation, r.flags) && !r.flags.inside && !Post(c.orientation, r.flags)
      && HitFloor(c.orientation) <= r.squareX <= Limit(c.width)
      && HitFloor(c.orientation) <= r.squareY <= Limit(c.height)
      && (r.squareX < Limit(c.width) || r.squareX == HitFloor(c.orientation))
      && (r.squareY < Limit(c.height) || r.squareY == HitFloor(c.orientation))
      && r.drawn == s.drawn + 2
    ensures !Hits(c, s, right, left) ==>
      r.counter == s.counter && r.squareX == s.squareX && r.squareY == s.squareY && r.drawn == s.drawn
    ensures !InColumn(BoundsOf(s), right) && !InColumn(BoundsOf(s), left) ==>
      !r.flags.above && !r.flags.inside && !r.flags.below
  {
    var b := BoundsOf(s);
    var scored := Score(c, s.(flags := Latch(c.orientation, s.flags, b, right, left)));
    if !InColumn(b, right) && !InColumn(b, left) then scored.(flags := Abandon(scored.flags)) else scored
  }

  /** The hit test that follows the latching: a completed sweep lowers its
      three flags, restarts the counter, scores and respawns the square. */
  function Score(c: Config, s: Snapshot): (r: Snapshot)
    requires ValidConfig(c)
    ensures r.points == s.points + (if Complete(c.orientation, s.flags) then 1 else 0)
    ensures Complete(c.orientation, s.flags) ==>
      && r.counter == 0 && r.drawn == s.drawn + 2
      && r.flags == WithPhases(c.orientation, s.flags, false, false, false)
    ensures !Complete(c.orientation, s.flags) ==> r == s
  {
    var o := c.orientation;
    if Complete(o, s.flags) then
      Respawn(c, s.(flags := WithPhases(o, s.flags, false, false, false), counter := 0, points := s.points + 1), HitFloor(o))
    else
      s
  }

  /** One entry of the body array: skipped unless tracked. */
  function Visit(c: Config, s: Snapshot, body: Body): (r: Snapshot)
    requires ValidConfig(c)
    ensures body.Untracked? ==> r == s
    ensures s.points <= r.points <= s.points + 1
  {
    match body
    case Untracked => s
    case Tracked(right, left) => BodyStep(c, s, right, left)
  }

  /** The bodies in enumeration order; each one sees the square and the flags
      the bodies before it left. */
  function Bodies(c: Config, s: Snapshot, bodies: seq<Body>): (r: Snapshot)
    requires ValidConfig(c)
    ensures s.points <= r.points <= s.points + |bodies|
    decreases |bodies|
  {
    if bodies == [] then s
    else Visit(c, Bodies(c, s, bodies[..|bodies| - 1]), bodies[|bodies| - 1])
  }

  /** The number of bodies whose visit completes a sweep. */
  function HitCount(c: Config, s: Snapshot, bodies: seq<Body>): nat
    requires ValidConfig(c)
    decreases |bodies|
  {
    if bodies == [] then 0
    else
      var before := Bodies(c, s, bodies[..|bodies| - 1]);
      var last := bodies[|bodies| - 1];
      HitCount(c, s, bodies[..|bodies| - 1])
        + (if last.Tracked? && Hits(c, before, last.wristRight, last.wristLeft) then 1 else 0)
  }

  /** One frame: the timeout first, then, only if the frame delivered body
      data, every body in order and one tick of the counter. */
  function Frame(c: Config, s: Snapshot, dataReceived: bool, bodies: seq<Body>): (r: Snapshot)
    requires ValidConfig(c)
    ensures s.points <= r.points <= s.points + |bodies|
    ensures !dataReceived ==> r.flags == s.flags && r.points == s.points
  {
    var aged := Age(c, s);
    if dataReceived then
      var visited := Bodies(c, aged, bodies);
      visited.(counter := visited.counter + 1)
    else
      aged
  }
}
