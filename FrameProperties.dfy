/** Properties of the per-frame specification: the invariant it keeps, what
    the score and the counter do over a frame, and the latch's rules. */
module FrameProperties {
  import opened Zones
  import opened Targets
  import opened FrameSpec

  /** A body keeps the invariant: in particular the last phase never stays
      raised, because raising it always completes the sweep. */
  lemma BodyStepKeepsInvariant(c: Config, s: Snapshot, right: Point, left: Point)
    requires ValidConfig(c) && Invariant(c, s)
    ensures Invariant(c, BodyStep(c, s, right, left))
  {
    var o := c.orientation;
    var latched := Latch(o, s.flags, BoundsOf(s), right, left);
    if !Complete(o, latched) {
      assert Resting(o, latched);
    }
  }

  lemma {:induction false} BodiesKeepInvariant(c: Config, s: Snapshot, bodies: seq<Body>)
    requires ValidConfig(c) && Invariant(c, s)
    ensures Invariant(c, Bodies(c, s, bodies))
    ensures Bodies(c, s, bodies).counter < Timeout || Bodies(c, s, bodies).counter == s.counter
    decreases |bodies|
  {
    if bodies != [] {
      var init := bodies[..|bodies| - 1];
      BodiesKeepInvariant(c, s, init);
      var last := bodies[|bodies| - 1];
      if last.Tracked? {
        BodyStepKeepsInvariant(c, Bodies(c, s, init), last.wristRight, last.wristLeft);
      }
    }
  }

  /** Every frame keeps the invariant, so the counter stays within 0..200, the
      score is never negative and the square stays inside its spawn box. */
  lemma FrameKeepsInvariant(c: Config, s: Snapshot, dataReceived: bool, bodies: seq<Body>)
    requires ValidConfig(c) && Invariant(c, s)
    ensures Invariant(c, Frame(c, s, dataReceived, bodies))
  {
    var aged := Age(c, s);
    assert Invariant(c, aged) && aged.counter < Timeout;
    BodiesKeepInvariant(c, aged, bodies);
  }

  /** The score grows by exactly the number of bodies that complete a sweep. */
  lemma {:induction false} BodiesPoints(c: Config, s: Snapshot, bodies: seq<Body>)
    requires ValidConfig(c)
    ensures Bodies(c, s, bodies).points == s.points + HitCount(c, s, bodies)
    decreases |bodies|
  {
    if bodies != [] {
      BodiesPoints(c, s, bodies[..|bodies| - 1]);
    }
  }

  /** A body scores at most once per frame. */
  lemma {:induction false} HitCountBound(c: Config, s: Snapshot, bodies: seq<Body>)
    requires ValidConfig(c)
    ensures HitCount(c, s, bodies) <= |bodies|
    ensures (forall i :: 0 <= i < |bodies| ==> bodies[i] == Untracked) ==> HitCount(c, s, bodies) == 0
    decreases |bodies|
  {
    if bodies != [] {
      var init := bodies[..|bodies| - 1];
      HitCountBound(c, s, init);
      if forall i :: 0 <= i < |bodies| ==> bodies[i] == Untracked {
        assert forall i :: 0 <= i < |init| ==> init[i] == bodies[i];
      }
    }
  }

  /** Any hit restarts the counter, and later bodies leave it alone. */
  lemma {:induction false} BodiesCounter(c: Config, s: Snapshot, bodies: seq<Body>)
    requires ValidConfig(c)
    ensures Bodies(c, s, bodies).counter == if HitCount(c, s, bodies) > 0 then 0 else s.counter
    decreases |bodies|
  {
    if bodies != [] {
      BodiesCounter(c, s, bodies[..|bodies| - 1]);
    }
  }

  /** The score over a frame: it never decreases, grows only by the hits of
      that frame's bodies, and not at all on a frame without body data. */
  lemma FramePoints(c: Config, s: Snapshot, dataReceived: bool, bodies: seq<Body>)
    requires ValidConfig(c)
    ensures var r := Frame(c, s, dataReceived, bodies);
      && s.points <= r.points <= s.points + |bodies|
      && r.points == s.points + (if dataReceived then HitCount(c, Age(c, s), bodies) else 0)
  {
    BodiesPoints(c, Age(c, s), bodies);
    HitCountBound(c, Age(c, s), bodies);
  }

  /** The counter over a frame: without body data only the timeout can touch
      it; with data it ticks once, from 0 when the frame produced a hit. */
  lemma FrameCounter(c: Config, s: Snapshot, dataReceived: bool, bodies: seq<Body>)
    requires ValidConfig(c)
    ensures var r := Frame(c, s, dataReceived, bodies);
      var start := if s.counter == Timeout then 0 else s.counter;
      && (!dataReceived ==> r.counter == start)
      && (dataReceived ==> r.counter == if HitCount(c, Age(c, s), bodies) > 0 then 1 else start + 1)
  {
    BodiesCounter(c, Age(c, s), bodies);
  }

  /** Between bodies the last phase is never raised, so a sweep can only be
      completed by a wrist that is in the post-zone on the frame it completes. */
  lemma HitNeedsPostZone(c: Config, s: Snapshot, right: Point, left: Point)
    requires Resting(c.orientation, s.flags)
    requires Hits(c, s, right, left)
    ensures PostZone(c.orientation, BoundsOf(s), right) || PostZone(c.orientation, BoundsOf(s), left)
  {
  }

  /** The converse: once the square has been entered, a wrist in the
      post-zone completes the sweep, whatever the other wrist does. */
  lemma PostZoneAfterSquareScores(c: Config, s: Snapshot, right: Point, left: Point)
    requires Resting(c.orientation, s.flags) && s.flags.inside
    requires PostZone(c.orientation, BoundsOf(s), right) || PostZone(c.orientation, BoundsOf(s), left)
    ensures Hits(c, s, right, left)
  {
  }

  /** Once the first phase is latched, a wrist in the square either completes
      the sweep or leaves it waiting for the post-zone: the column reset
      cannot fire, because that wrist is in the column. */
  lemma SquareAfterPreZoneAdvances(c: Config, s: Snapshot, right: Point, left: Point)
    requires ValidConfig(c) && Resting(c.orientation, s.flags) && Pre(c.orientation, s.flags)
    requires TargetZone(BoundsOf(s), right) || TargetZone(BoundsOf(s), left)
    ensures Hits(c, s, right, left) || PhaseOf(c.orientation, BodyStep(c, s, right, left).flags) == TargetZoneEntered
  {
  }

  /** From no flag raised, one body whose two wrists are at the same point
      cannot complete a sweep: no point is in both end zones. */
  lemma NoHitFromIdleWithOnePoint(c: Config, s: Snapshot, p: Point)
    requires s.flags == NoFlags
    ensures !Hits(c, s, p, p)
  {
    EndZonesDisjoint(c.orientation, BoundsOf(s), p);
  }

  /** For Right and Left, the reset that fires when both wrists leave the
      square's column does not lower the first-phase flag: once set it waits,
      however long, for the middle and last phases. */
  lemma SideLatchSurvivesAbandon(c: Config, s: Snapshot, right: Point, left: Point)
    requires ValidConfig(c) && (c.orientation == Right || c.orientation == Left)
    requires Pre(c.orientation, s.flags) && !Hits(c, s, right, left)
    requires !InColumn(BoundsOf(s), right) && !InColumn(BoundsOf(s), left)
    ensures Pre(c.orientation, BodyStep(c, s, right, left).flags)
    ensures !BodyStep(c, s, right, left).flags.inside
  {
  }

  /** For Down and Up the same reset lowers every phase of the sweep. */
  lemma VerticalAbandonClearsAll(c: Config, s: Snapshot, right: Point, left: Point)
    requires ValidConfig(c) && (c.orientation == Down || c.orientation == Up)
    requires !InColumn(BoundsOf(s), right) && !InColumn(BoundsOf(s), left)
    ensures PhaseOf(c.orientation, BodyStep(c, s, right, left).flags) == Idle
  {
  }

  /** A frame without a tracked body changes neither the flags nor the score;
      the square moves only by the timeout. */
  lemma {:induction false} UntrackedBodiesChangeNothing(c: Config, s: Snapshot, bodies: seq<Body>)
    requires ValidConfig(c)
    requires forall i :: 0 <= i < |bodies| ==> bodies[i] == Untracked
    ensures Bodies(c, s, bodies) == s
    decreases |bodies|
  {
    if bodies != [] {
      var init := bodies[..|bodies| - 1];
      assert forall i :: 0 <= i < |init| ==> init[i] == bodies[i];
      UntrackedBodiesChangeNothing(c, s, init);
    }
  }
}
