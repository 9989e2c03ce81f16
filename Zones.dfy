/** Geometry of the target square and the latch flags of the swipe detector.
    Coordinates of the wrists are display-space doubles; the square's origin and
    side are integers. Only `<=` and `>=` comparisons are made, so reals suffice. */
module Zones {

  /** A wrist position in display space. */
  datatype Point = Point(x: real, y: real)

  /** The direction in which the hand must sweep through the square. */
  datatype Orientation = Down | Up | Right | Left

  /** The square's bounds: origin (x, y), top-left, and side length. */
  datatype Bounds = Bounds(x: int, y: int, size: int)

  /** The wrist lies in the square's closed horizontal extent [x, x + size]. */
  predicate InColumn(b: Bounds, p: Point) {
    b.x as real <= p.x <= (b.x + b.size) as real
  }

  /** The wrist lies in the square's closed vertical extent [y, y + size]. */
  predicate InRow(b: Bounds, p: Point) {
    b.y as real <= p.y <= (b.y + b.size) as real
  }

  /** On or above the top edge (display y grows downwards). */
  predicate AtOrAbove(b: Bounds, p: Point) { p.y <= b.y as real }

  /** On or below the bottom edge. */
  predicate AtOrBelow(b: Bounds, p: Point) { p.y >= (b.y + b.size) as real }

  /** On or left of the left edge. */
  predicate AtOrLeftOf(b: Bounds, p: Point) { p.x <= b.x as real }

  /** On or right of the right edge. */
  predicate AtOrRightOf(b: Bounds, p: Point) { p.x >= (b.x + b.size) as real }

  /** The zone where a sweep in direction `o` starts. */
  predicate PreZone(o: Orientation, b: Bounds, p: Point) {
    match o
    case Down => InColumn(b, p) && AtOrAbove(b, p)
    case Up => InColumn(b, p) && AtOrBelow(b, p)
    case Right => AtOrLeftOf(b, p) && InRow(b, p)
    case Left => AtOrRightOf(b, p) && InRow(b, p)
  }

  /** The square itself; the same for every orientation. */
  predicate TargetZone(b: Bounds, p: Point) {
    InColumn(b, p) && InRow(b, p)
  }

  /** The zone where a sweep in direction `o` ends. */
  predicate PostZone(o: Orientation, b: Bounds, p: Point) {
    match o
    case Down => InColumn(b, p) && AtOrBelow(b, p)
    case Up => InColumn(b, p) && AtOrAbove(b, p)
    case Right => AtOrRightOf(b, p) && InRow(b, p)
    case Left => AtOrLeftOf(b, p) && InRow(b, p)
  }

  /** A point of a square with a positive side is never in both end zones. */
  lemma EndZonesDisjoint(o: Orientation, b: Bounds, p: Point)
    requires b.size > 0
    ensures !(PreZone(o, b, p) && PostZone(o, b, p))
  {
  }

  /** The five boolean fields of the engine. They are shared by all four
      orientations; `inside` is the middle phase of every orientation. */
  datatype Flags = Flags(above: bool, inside: bool, below: bool, left: bool, right: bool)

  const NoFlags := Flags(false, false, false, false, false)

  /** The flag that records the first phase of a sweep in direction `o`. */
  function Pre(o: Orientation, f: Flags): bool {
    match o
    case Down => f.above
    case Up => f.below
    case Right => f.left
    case Left => f.right
  }

  /** The flag that records the last phase of a sweep in direction `o`. */
  function Post(o: Orientation, f: Flags): bool {
    match o
    case Down => f.below
    case Up => f.above
    case Right => f.right
    case Left => f.left
  }

  /** `f` with the three phase flags of orientation `o` replaced. */
  function WithPhases(o: Orientation, f: Flags, pre: bool, inside: bool, post: bool): (r: Flags)
    ensures Pre(o, r) == pre && r.inside == inside && Post(o, r) == post
    ensures OffAxis(o, r) == OffAxis(o, f)
  {
    match o
    case Down => f.(above := pre, inside := inside, below := post)
    case Up => f.(below := pre, inside := inside, above := post)
    case Right => f.(left := pre, inside := inside, right := post)
    case Left => f.(right := pre, inside := inside, left := post)
  }

  /** The two flags that orientation `o` never sets. */
  function OffAxis(o: Orientation, f: Flags): (bool, bool) {
    if o == Down || o == Up then (f.left, f.right) else (f.above, f.below)
  }

  /** All three phases of `o` have been seen: the sweep is complete. */
  predicate Complete(o: Orientation, f: Flags) {
    Pre(o, f) && f.inside && Post(o, f)
  }

  /** The phase updates of one body against one square: the first phase is
      latched when either wrist is in the pre-zone; the middle phase when the
      first is latched (possibly just now) and either wrist is in the square;
      the last phase when the middle one is latched (possibly just now) and
      either wrist is in the post-zone. Flags are only ever raised here. */
  function Latch(o: Orientation, f: Flags, b: Bounds, right: Point, left: Point): (r: Flags)
    // nothing is lowered
    ensures Pre(o, f) ==> Pre(o, r)
    ensures f.inside ==> r.inside
    ensures Post(o, f) ==> Post(o, r)
    ensures OffAxis(o, r) == OffAxis(o, f)
    // a phase is raised only after the one before it, and only on evidence
    ensures r.inside && !f.inside ==> Pre(o, r) && (TargetZone(b, right) || TargetZone(b, left))
    ensures Post(o, r) && !Post(o, f) ==> r.inside && (PostZone(o, b, right) || PostZone(o, b, left))
    ensures Pre(o, r) && !Pre(o, f) ==> PreZone(o, b, right) || PreZone(o, b, left)
    // and it is raised whenever that evidence is there
    ensures PreZone(o, b, right) || PreZone(o, b, left) ==> Pre(o, r)
    ensures Pre(o, r) && (TargetZone(b, right) || TargetZone(b, left)) ==> r.inside
    ensures r.inside && (PostZone(o, b, right) || PostZone(o, b, left)) ==> Post(o, r)
  {
    var pre := Pre(o, f) || PreZone(o, b, right) || PreZone(o, b, left);
    var inside := f.inside || (pre && (TargetZone(b, right) || TargetZone(b, left)));
    var post := Post(o, f) || (inside && (PostZone(o, b, right) || PostZone(o, b, left)));
    WithPhases(o, f, pre, inside, post)
  }

  /** The reset taken when neither wrist is in the square's column: it lowers
      `above`, `inside` and `below` whatever the orientation. */
  function Abandon(f: Flags): (r: Flags)
    ensures !r.above && !r.inside && !r.below
    ensures r.left == f.left && r.right == f.right
  {
    f.(above := false, inside := false, below := false)
  }

  /** How far a sweep in direction `o` has got, as the flags record it between bodies. */
  datatype Phase = Idle | PreZoneEntered | TargetZoneEntered

  function PhaseOf(o: Orientation, f: Flags): Phase {
    if f.inside then TargetZoneEntered
    else if Pre(o, f) then PreZoneEntered
    else Idle
  }

  function FlagsOf(o: Orientation, ph: Phase): (f: Flags)
    ensures Resting(o, f) && PhaseOf(o, f) == ph
  {
    match ph
    case Idle => NoFlags
    case PreZoneEntered => WithPhases(o, NoFlags, true, false, false)
    case TargetZoneEntered => WithPhases(o, NoFlags, true, true, false)
  }

  /** The shape the flags have between two bodies: the last phase is never
      left raised (raising it completes the sweep), the middle phase implies
      the first, and the flags of the other axis stay down. */
  predicate Resting(o: Orientation, f: Flags) {
    && !Post(o, f)
    && (f.inside ==> Pre(o, f))
    && OffAxis(o, f) == (false, false)
  }

  /** Resting flags are exactly the encodings of the three phases. */
  lemma RestingIsPhase(o: Orientation, f: Flags)
    ensures Resting(o, f) <==> f == FlagsOf(o, PhaseOf(o, f))
  {
  }
}
