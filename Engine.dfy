/** The swipe-gesture engine of the main window: its fields, its constructor
    and its frame handler, with the orientation branches written one after
    another as the window does. The ensures of every method that changes the
    engine's state give the new `Snapshot` in terms of the old one: `Frame`,
    `ProcessBody`, `Respawn` and the sweeps by `FrameSpec`, the latches by
    `Zones.Latch`; `NextInt` returns `Targets.Next` of the current sample. */
module Engine {
  import opened Zones
  import opened Targets
  import opened FrameSpec
  import opened FrameProperties

  class GestureEngine {
    /** Size of the depth display, fixed by the sensor. */
    const displayWidth: int
    const displayHeight: int
    /** The orientation every square is created with. */
    const orientation: Orientation
    /** The random generator, as the stream of samples it produces. */
    const samples: nat -> nat
    const squareSize: int := SquareSize

    /** Frames since the square was placed. */
    var counter: int
    /** The squares on screen; exactly one at all times. */
    var squares: seq<Square>
    var squareX: int
    var squareY: int
    var aboveFlag: bool
    var inFlag: bool
    var belowFlag: bool
    var leftFlag: bool
    var rightFlag: bool
    var points: int
    /** How many samples the generator has handed out. */
    var drawn: nat

    function Configuration(): Config {
      Config(displayWidth, displayHeight, orientation, samples)
    }

    function Snap(): Snapshot
      reads this
    {
      Snapshot(Flags(aboveFlag, inFlag, belowFlag, leftFlag, rightFlag), counter, points, squareX, squareY, drawn)
    }

    /** The square the list holds is the one at (squareX, squareY). */
    ghost predicate OneSquare()
      reads this
    {
      squares == [Square(squareX, squareY, squareSize, orientation)]
    }

    /** The class invariant: one square on screen, inside its spawn box, the
        counter within 0..200, a non-negative score, and flags that encode
        one of the three phases of a sweep. */
    ghost predicate Valid()
      reads this
      ensures Valid() ==>
        && |squares| == 1 && squares[0].x == squareX && squares[0].y == squareY
        && 0 <= counter <= Timeout && 0 <= points
        && HitFloor(orientation) <= squareX <= Limit(displayWidth)
        && HitFloor(orientation) <= squareY <= Limit(displayHeight)
        && Snap().flags == FlagsOf(orientation, PhaseOf(orientation, Snap().flags))
    {
      ValidConfig(Configuration()) && OneSquare() && Invariant(Configuration(), Snap())
    }

    /** The window's constructor: one square, drawn with the margin on both
        axes, and nothing latched or scored. */
    constructor (width: int, height: int, o: Orientation, rng: nat -> nat)
      requires width >= SquareSize + 2 * Margin && height >= SquareSize + 2 * Margin
      ensures Valid()
      ensures Configuration() == Config(width, height, o, rng)
      ensures Snap() == Initial(Configuration())
    {
      displayWidth, displayHeight, orientation, samples := width, height, o, rng;
      counter, points := 0, 0;
      aboveFlag, inFlag, belowFlag, leftFlag, rightFlag := false, false, false, false, false;
      squareX := Next(Margin, width - SquareSize - Margin, rng(0));
      squareY := Next(Margin, height - SquareSize - Margin, rng(1));
      drawn := 2;
      squares := [Square(squareX, squareY, SquareSize, o)];
    }

    /** `Random.Next(lo, hi)` on the engine's generator. */
    method NextInt(lo: int, hi: int) returns (v: int)
      requires lo <= hi
      modifies this`drawn
      ensures v == Next(lo, hi, samples(old(drawn))) && drawn == old(drawn) + 1
    {
      v := Next(lo, hi, samples(drawn));
      drawn := drawn + 1;
    }

    /** Removes the square, draws a new origin from [lo, extent - size - margin)
        on each axis and adds the new square. */
    method Respawn(lo: int)
      requires ValidConfig(Configuration()) && 0 <= lo <= Margin
      requires |squares| == 1
      modifies this`squares, this`squareX, this`squareY, this`drawn
      ensures OneSquare()
      ensures Snap() == FrameSpec.Respawn(Configuration(), old(Snap()), lo)
    {
      squares := squares[1..];
      squareX := NextInt(lo, displayWidth - squareSize - Margin);
      squareY := NextInt(lo, displayHeight - squareSize - Margin);
      squares := squares + [Square(squareX, squareY, squareSize, orientation)];
    }

    /** The handler of one frame: the timeout, then, if the frame carried body
        data, every tracked body in order, then one tick of the counter. */
    method Frame(dataReceived: bool, bodies: seq<Body>)
      requires Valid()
      modifies this
      ensures Valid()
      ensures Snap() == FrameSpec.Frame(Configuration(), old(Snap()), dataReceived, bodies)
    {
      ghost var start := Snap();
      if counter == Timeout {
        Respawn(Margin);
        counter := 0;
      }
      ghost var aged := Snap();
      assert aged == Age(Configuration(), start);
      if dataReceived {
        var i := 0;
        while i < |bodies|
          invariant 0 <= i <= |bodies|
          invariant Valid() && counter < Timeout
          invariant Snap() == Bodies(Configuration(), aged, bodies[..i])
        {
          assert bodies[..i + 1][..i] == bodies[..i];
          match bodies[i] {
            case Untracked =>
            case Tracked(wristRight, wristLeft) => ProcessBody(wristRight, wristLeft);
          }
          i := i + 1;
        }
        assert bodies[..i] == bodies;
        counter := counter + 1;
      }
      FrameKeepsInvariant(Configuration(), start, dataReceived, bodies);
    }

    /** One tracked body. Each orientation has its own branch; the branches
        test the orientation of the listed square, which a respawn does not
        change, so exactly one of them runs. */
    method ProcessBody(wristRight: Point, wristLeft: Point)
      requires Valid()
      modifies this
      ensures Valid()
      ensures Snap() == BodyStep(Configuration(), old(Snap()), wristRight, wristLeft)
    {
      ghost var start := Snap();
      if squares[0].orientation == Down {
        SweepDown(wristRight, wristLeft);
      }
      if squares[0].orientation == Up {
        SweepUp(wristRight, wristLeft);
      }
      if squares[0].orientation == Right {
        SweepRight(wristRight, wristLeft);
      }
      if squares[0].orientation == Left {
        SweepLeft(wristRight, wristLeft);
      }
      BodyStepKeepsInvariant(Configuration(), start, wristRight, wristLeft);
    }

    /** The three phase tests of the Down branch, in the order they run. */
    method LatchDown(wristRight: Point, wristLeft: Point)
      modifies this`aboveFlag, this`inFlag, this`belowFlag
      ensures Snap() == old(Snap()).(flags := Latch(Down, old(Snap()).flags, BoundsOf(old(Snap())), wristRight, wristLeft))
    {
      var b := Bounds(squareX, squareY, squareSize);
      var rightInColumn, leftInColumn := InColumn(b, wristRight), InColumn(b, wristLeft);
      var rightInRow, leftInRow := InRow(b, wristRight), InRow(b, wristLeft);
      var rightAbove, leftAbove := AtOrAbove(b, wristRight), AtOrAbove(b, wristLeft);
      var rightBelow, leftBelow := AtOrBelow(b, wristRight), AtOrBelow(b, wristLeft);
      if (rightAbove && rightInColumn) || (leftInColumn && leftAbove) {
        aboveFlag := true;
      }
      if (aboveFlag && rightInColumn && rightInRow) || (aboveFlag && leftInColumn && leftInRow) {
        inFlag := true;
      }
      if inFlag && ((rightInColumn && rightBelow) || (leftInColumn && leftBelow)) {
        belowFlag := true;
      }
    }

    /** The Down branch: the hand moves from above the square to below it. After the
        phase tests come the hit test and the column reset; the column tests
        are those of the square the body was first tested against. */
    method SweepDown(wristRight: Point, wristLeft: Point)
      requires ValidConfig(Configuration()) && OneSquare() && orientation == Down
      modifies this
      ensures OneSquare()
      ensures Snap() == BodyStep(Configuration(), old(Snap()), wristRight, wristLeft)
    {
      ghost var start := Snap();
      var b := Bounds(squareX, squareY, squareSize);
      var rightInColumn, leftInColumn := InColumn(b, wristRight), InColumn(b, wristLeft);
      LatchDown(wristRight, wristLeft);
      ghost var latched := start.(flags := Latch(Down, start.flags, b, wristRight, wristLeft));
      if aboveFlag && inFlag && belowFlag {
        aboveFlag, inFlag, belowFlag := false, false, false;
        counter, points := 0, points + 1;
        Respawn(Margin);
      }
      assert Snap() == Score(Configuration(), latched);
      if !rightInColumn && !leftInColumn {
        aboveFlag, inFlag, belowFlag := false, false, false;
      }
    }

    /** The three phase tests of the Up branch, in the order they run. */
    method LatchUp(wristRight: Point, wristLeft: Point)
      modifies this`aboveFlag, this`inFlag, this`belowFlag
      ensures Snap() == old(Snap()).(flags := Latch(Up, old(Snap()).flags, BoundsOf(old(Snap())), wristRight, wristLeft))
    {
      var b := Bounds(squareX, squareY, squareSize);
      var rightInColumn, leftInColumn := InColumn(b, wristRight), InColumn(b, wristLeft);
      var rightInRow, leftInRow := InRow(b, wristRight), InRow(b, wristLeft);
      var rightAbove, leftAbove := AtOrAbove(b, wristRight), AtOrAbove(b, wristLeft);
      var rightBelow, leftBelow := AtOrBelow(b, wristRight), AtOrBelow(b, wristLeft);
      if (rightInColumn && rightBelow) || (leftInColumn && leftBelow) {
        belowFlag := true;
      }
      if (belowFlag && rightInColumn && rightInRow) || (belowFlag && leftInColumn && leftInRow) {
        inFlag := true;
      }
      if inFlag && ((rightAbove && rightInColumn) || (leftInColumn && leftAbove)) {
        aboveFlag := true;
      }
    }

    /** The Up branch: the hand moves from below the square to above it. After the
        phase tests come the hit test and the column reset; the column tests
        are those of the square the body was first tested against. */
    method SweepUp(wristRight: Point, wristLeft: Point)
      requires ValidConfig(Configuration()) && OneSquare() && orientation == Up
      modifies this
      ensures OneSquare()
      ensures Snap() == BodyStep(Configuration(), old(Snap()), wristRight, wristLeft)
    {
      ghost var start := Snap();
      var b := Bounds(squareX, squareY, squareSize);
      var rightInColumn, leftInColumn := InColumn(b, wristRight), InColumn(b, wristLeft);
      LatchUp(wristRight, wristLeft);
      ghost var latched := start.(flags := Latch(Up, start.flags, b, wristRight, wristLeft));
      if aboveFlag && inFlag && belowFlag {
        aboveFlag, inFlag, belowFlag := false, false, false;
        counter, points := 0, points + 1;
        Respawn(Margin);
      }
      assert Snap() == Score(Configuration(), latched);
      if !rightInColumn && !leftInColumn {
        aboveFlag, inFlag, belowFlag := false, false, false;
      }
    }

    /** The three phase tests of the Right branch, in the order they run. */
    method LatchRight(wristRight: Point, wristLeft: Point)
      modifies this`leftFlag, this`inFlag, this`rightFlag
      ensures Snap() == old(Snap()).(flags := Latch(Right, old(Snap()).flags, BoundsOf(old(Snap())), wristRight, wristLeft))
    {
      var b := Bounds(squareX, squareY, squareSize);
      var rightInColumn, leftInColumn := InColumn(b, wristRight), InColumn(b, wristLeft);
      var rightInRow, leftInRow := InRow(b, wristRight), InRow(b, wristLeft);
      var rightLeftOf, leftLeftOf := AtOrLeftOf(b, wristRight), AtOrLeftOf(b, wristLeft);
      var rightRightOf, leftRightOf := AtOrRightOf(b, wristRight), AtOrRightOf(b, wristLeft);
      if (rightLeftOf && rightInRow) || (leftLeftOf && leftInRow) {
        leftFlag := true;
      }
      if leftFlag && ((rightInColumn && rightInRow) || (leftInColumn && leftInRow)) {
        inFlag := true;
      }
      if inFlag && ((rightRightOf && rightInRow) || (leftRightOf && leftInRow)) {
        rightFlag := true;
      }
    }

    /** The Right branch: the hand moves from the left of the square to its right. After the
        phase tests come the hit test and the column reset; the column tests
        are those of the square the body was first tested against. */
    method SweepRight(wristRight: Point, wristLeft: Point)
      requires ValidConfig(Configuration()) && OneSquare() && orientation == Right
      modifies this
      ensures OneSquare()
      ensures Snap() == BodyStep(Configuration(), old(Snap()), wristRight, wristLeft)
    {
      ghost var start := Snap();
      var b := Bounds(squareX, squareY, squareSize);
      var rightInColumn, leftInColumn := InColumn(b, wristRight), InColumn(b, wristLeft);
      LatchRight(wristRight, wristLeft);
      ghost var latched := start.(flags := Latch(Right, start.flags, b, wristRight, wristLeft));
      if leftFlag && inFlag && rightFlag {
        leftFlag, inFlag, rightFlag := false, false, false;
        counter, points := 0, points + 1;
        Respawn(0);
      }
      assert Snap() == Score(Configuration(), latched);
      if !rightInColumn && !leftInColumn {
        aboveFlag, inFlag, belowFlag := false, false, false;
      }
    }

    /** The three phase tests of the Left branch, in the order they run. */
    method LatchLeft(wristRight: Point, wristLeft: Point)
      modifies this`leftFlag, this`inFlag, this`rightFlag
      ensures Snap() == old(Snap()).(flags := Latch(Left, old(Snap()).flags, BoundsOf(old(Snap())), wristRight, wristLeft))
    {
      var b := Bounds(squareX, squareY, squareSize);
      var rightInColumn, leftInColumn := InColumn(b, wristRight), InColumn(b, wristLeft);
      var rightInRow, leftInRow := InRow(b, wristRight), InRow(b, wristLeft);
      var rightLeftOf, leftLeftOf := AtOrLeftOf(b, wristRight), AtOrLeftOf(b, wristLeft);
      var rightRightOf, leftRightOf := AtOrRightOf(b, wristRight), AtOrRightOf(b, wristLeft);
      if (rightRightOf && rightInRow) || (leftRightOf && leftInRow) {
        rightFlag := true;
      }
      if rightFlag && ((rightInColumn && rightInRow) || (leftInColumn && leftInRow)) {
        inFlag := true;
      }
      if inFlag && ((rightLeftOf && rightInRow) || (leftLeftOf && leftInRow)) {
        leftFlag := true;
      }
    }

    /** The Left branch: the hand moves from the right of the square to its left. After the
        phase tests come the hit test and the column reset; the column tests
        are those of the square the body was first tested against. */
    method SweepLeft(wristRight: Point, wristLeft: Point)
      requires ValidConfig(Configuration()) && OneSquare() && orientation == Left
      modifies this
      ensures OneSquare()
      ensures Snap() == BodyStep(Configuration(), old(Snap()), wristRight, wristLeft)
    {
      ghost var start := Snap();
      var b := Bounds(squareX, squareY, squareSize);
      var rightInColumn, leftInColumn := InColumn(b, wristRight), InColumn(b, wristLeft);
      LatchLeft(wristRight, wristLeft);
      ghost var latched := start.(flags := Latch(Left, start.flags, b, wristRight, wristLeft));
      if leftFlag && inFlag && rightFlag {
        leftFlag, inFlag, rightFlag := false, false, false;
        counter, points := 0, points + 1;
        Respawn(0);
      }
      assert Snap() == Score(Configuration(), latched);
      if !rightInColumn && !leftInColumn {
        aboveFlag, inFlag, belowFlag := false, false, false;
      }
    }

    /** The score, as the window shows it. */
    method Points() returns (p: int)
      requires Valid()
      ensures p == points && p >= 0
    {
      p := points;
    }
  }
}
