/** Worked examples on a 512 x 424 depth display with a Down square. With
    every sample equal to 50 the generator places the square at (100, 100),
    so the square spans [100, 150] on both axes. */
module Scenarios {
  import opened Zones
  import opened Targets
  import opened FrameSpec
  import opened FrameProperties
  import opened Engine

  /** Every draw gets the sample 50: Next(50, 412, 50) == Next(50, 324, 50) == 100. */
  function Fixed(o: Orientation): (c: Config)
    ensures ValidConfig(c)
  {
    Config(512, 424, o, k => 50)
  }

  /** A left wrist that stays away from the square. */
  const Away := Point(400.0, 300.0)

  function Hand(x: real, y: real): seq<Body> {
    [Tracked(Point(x, y), Away)]
  }

  /** The right wrist sweeps down through the square over three frames: above
      it, inside it, below it. The third frame scores, lowers every flag and
      restarts the counter at 1; the first two score nothing. */
  lemma DownSwipeHitsOnce()
    ensures var c := Fixed(Down);
      var s0 := Initial(c);
      var s1 := Frame(c, s0, true, Hand(120.0, 50.0));
      var s2 := Frame(c, s1, true, Hand(120.0, 120.0));
      var s3 := Frame(c, s2, true, Hand(120.0, 200.0));
      && s0.squareX == 100 && s0.squareY == 100
      && s1.points == 0 && PhaseOf(Down, s1.flags) == PreZoneEntered
      && s2.points == 0 && PhaseOf(Down, s2.flags) == TargetZoneEntered
      && s3.points == 1 && s3.flags == NoFlags && s3.counter == 1
  {
    var c := Fixed(Down);
    var s0 := Initial(c);
    assert s0.squareX == 100 && s0.squareY == 100;
    var s1 := Frame(c, s0, true, Hand(120.0, 50.0));
    assert s1 == s0.(flags := s0.flags.(above := true), counter := 1);
    var s2 := Frame(c, s1, true, Hand(120.0, 120.0));
    assert s2 == s1.(flags := s1.flags.(inside := true), counter := 2);
  }

  /** The right wrist jumps from above the square to below it without a frame
      inside it: no score, and the middle phase stays down. */
  lemma SkippingTheSquareScoresNothing()
    ensures var c := Fixed(Down);
      var s0 := Initial(c);
      var s1 := Frame(c, s0, true, Hand(120.0, 50.0));
      var s2 := Frame(c, s1, true, Hand(120.0, 200.0));
      s2.points == 0 && !s2.flags.inside && !s2.flags.below && s2.flags.above
  {
    var c := Fixed(Down);
    var s0 := Initial(c);
    var s1 := Frame(c, s0, true, Hand(120.0, 50.0));
    assert s1.flags == NoFlags.(above := true);
  }

  /** The phase tests run one after another, so one frame can raise all three:
      a wrist on the top edge is in the pre-zone and in the square, a wrist on
      the bottom edge is in the square and in the post-zone. */
  lemma CascadeInOneFrame()
    ensures var c := Fixed(Down);
      var s0 := Initial(c);
      Frame(c, s0, true, [Tracked(Point(120.0, 100.0), Point(130.0, 150.0))]).points == 1
  {
    var c := Fixed(Down);
    var s0 := Initial(c);
    assert Hits(c, s0, Point(120.0, 100.0), Point(130.0, 150.0));
  }

  /** The generator gives 50 for the first two draws and 0 afterwards, so a
      respawn after a hit moves the square to (50, 50). */
  function Moving(): (c: Config)
    ensures ValidConfig(c)
  {
    Config(512, 424, Down, k => if k < 2 then 50 else 0)
  }

  /** Bodies are visited in order against the square as the earlier bodies
      left it: of two bodies making the same last move, only the first
      scores, because the second is tested against the respawned square. */
  lemma LaterBodySeesTheNewSquare()
    ensures var c := Moving();
      var s0 := Initial(c);
      var s1 := Frame(c, s0, true, Hand(120.0, 50.0));
      var s2 := Frame(c, s1, true, Hand(120.0, 120.0));
      var s3 := Frame(c, s2, true, Hand(120.0, 200.0) + Hand(120.0, 200.0));
      s3.points == 1 && s3.squareX == 50 && s3.squareY == 50
  {
    var c := Moving();
    var s0 := Initial(c);
    assert s0.squareX == 100 && s0.squareY == 100;
    var s1 := Frame(c, s0, true, Hand(120.0, 50.0));
    assert s1 == s0.(flags := s0.flags.(above := true), counter := 1);
    var s2 := Frame(c, s1, true, Hand(120.0, 120.0));
    assert s2 == s1.(flags := s1.flags.(inside := true), counter := 2);
    var b := Hand(120.0, 200.0) + Hand(120.0, 200.0);
    assert b[..1] == Hand(120.0, 200.0) && b[..0] == [];
    assert Hits(c, s2, Point(120.0, 200.0), Away);
    var first := BodyStep(c, s2, Point(120.0, 200.0), Away);
    assert first.points == 1 && first.squareX == 50 && first.squareY == 50;
    assert Bodies(c, s2, b[..1]) == first;
    assert !Hits(c, first, Point(120.0, 200.0), Away);
  }

  /** `n` frames whose bodies are all untracked. */
  function UntrackedFrames(c: Config, s: Snapshot, n: nat): Snapshot
    requires ValidConfig(c)
  {
    if n == 0 then s else Frame(c, UntrackedFrames(c, s, n - 1), true, [Untracked, Untracked])
  }

  /** While no body is tracked the flags and the score hold, however many
      frames go by: a half-done sweep is not forgotten. */
  lemma {:induction false} UntrackedFramesKeepFlags(c: Config, s: Snapshot, n: nat)
    requires ValidConfig(c)
    ensures UntrackedFrames(c, s, n).flags == s.flags
    ensures UntrackedFrames(c, s, n).points == s.points
  {
    if n > 0 {
      UntrackedFramesKeepFlags(c, s, n - 1);
      var before := UntrackedFrames(c, s, n - 1);
      UntrackedBodiesChangeNothing(c, Age(c, before), [Untracked, Untracked]);
    }
  }

  /** The same sweep driven through the engine object: its contracts alone
      carry the score from frame to frame. */
  method EngineScoresDownSwipe() returns (score: int)
    ensures score == 1
  {
    var engine := new GestureEngine(512, 424, Down, k => 50);
    engine.Frame(true, Hand(120.0, 50.0));
    engine.Frame(true, Hand(120.0, 120.0));
    engine.Frame(true, Hand(120.0, 200.0));
    DownSwipeHitsOnce();
    score := engine.Points();
  }
}
