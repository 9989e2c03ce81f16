# Swipe-gesture engine of the Kinect body-basics window

This project models the gesture engine that the main window of the Kinect
sample runs on every body frame. One square target is on screen. A player
must sweep a wrist through it in the square's direction: Down, Up, Right or
Left. Each direction has three phases: before the square (pre-zone), inside
it, and past it (post-zone). Five boolean fields shared by all directions
(`above`, `inside`, `below`, `left`, `right`) latch the phases in order. When
the three phases of the square's direction are latched, the sweep is a hit.
A hit lowers those three flags, adds one point, restarts the frame counter
and places a new square at a random position. A square that has stayed for
200 frames is replaced as well. The score only grows.

Layout:

- `Zones.dfy`: wrist points, the square's bounds, the zone tests, the five
  flags and `Latch`, the phase update of one body.
- `Targets.dfy`: the constants (side 50, margin 50, timeout 200), the `Square`
  record, `Random.Next` and the lower bound of a respawn after a hit.
- `FrameSpec.dfy`: one frame as pure functions over a `Snapshot` of the
  engine's fields: the timeout, one body, all bodies in order, the frame.
- `Engine.dfy`: the class `GestureEngine`. It has the window's fields and a
  `Frame` method that loops over the bodies. Its four orientation branches
  run one after another, as in the window. The ensures of every method that
  changes state give the new `Snapshot` in terms of the old one: by
  `FrameSpec` for `Frame`, `ProcessBody`, `Respawn` and the sweeps, by
  `Zones.Latch` for the latches; `NextInt` returns `Targets.Next` of the
  current sample. `Frame` and `ProcessBody` also keep the
  class invariant `Valid()`; the per-orientation helpers (`LatchDown`,
  `SweepDown`, …) only keep the one-square list, since the flags are not
  resting halfway through a body.
- `FrameProperties.dfy`: what a frame does to the score, the counter and the
  flags, and the invariant every frame keeps.
- `Scenarios.dfy`: worked examples on a 512 x 424 display.

The class invariant says:

- the list of squares holds exactly one square, the one at (`squareX`, `squareY`);
- the counter stays in 0..200 and the score is never negative;
- the square stays inside its spawn box;
- between bodies the flags encode one of three phases: idle, pre-zone
  entered, or square entered. The last phase is never left raised, because
  raising it always completes the sweep.

Behaviour the model keeps as the code has it:

- The timeout does not lower the flags. A sweep under way carries over to
  the new square (`FrameSpec.Age`).
- A frame in which the timeout fired still evaluates the gesture, against the
  new square.
- The column reset tests the wrists' x range for every direction, also for
  Right and Left. For those two directions it lowers `above`, `inside` and
  `below`, so their first-phase flag (`left` or `right`) survives it
  (`FrameProperties.SideLatchSurvivesAbandon`).
- The origin is drawn from [lo, extent - 100), upper bound exclusive, or is
  `lo` when the range is empty. After a hit in direction Right or Left, `lo`
  is 0 instead of 50.
- Untracked bodies are skipped. The tracking state of each joint is never
  consulted.

## Model

| member | source | states |
|---|---|---|
| Zones.EndZonesDisjoint | MainWindow.xaml.cs:469-485 | For a square with a positive side, no wrist position is in both the pre-zone and the post-zone of any direction. |
| Zones.InColumn | MainWindow.xaml.cs:455-458 | A wrist is in the square's column when its x lies in [x, x + 50], both ends included. |
| Zones.InRow | MainWindow.xaml.cs:457-459 | A wrist is in the square's row when its y lies in [y, y + 50], both ends included. |
| Zones.PreZone | MainWindow.xaml.cs:469-485 | Where a sweep starts: above the square in its column for Down, below it for Up, left of it in its row for Right, right of it for Left, edges included. |
| Zones.TargetZone | MainWindow.xaml.cs:455-459 | The square itself, edges included, for every direction. |
| Zones.PostZone | MainWindow.xaml.cs:469-485 | Where a sweep ends: the mirror of the pre-zone in the same column or row. |
| Zones.Latch | MainWindow.xaml.cs:500-516 | The phase tests (Down shown; Up 548-564, Right 599-616 and Left 652-669 mirror it) only raise flags. Each phase rises if and only if it was up already or its condition holds: the first when a wrist is in the pre-zone; the middle when the first is up (possibly just now) and a wrist is in the square; the last when the middle is up (possibly just now) and a wrist is in the post-zone. The other axis's two flags are untouched. |
| Zones.Abandon | MainWindow.xaml.cs:533-538 | The column reset lowers `above`, `inside` and `below` and keeps `left` and `right`. |
| Zones.FlagsOf | MainWindow.xaml.cs:150-154 | Each phase (idle, pre-zone entered, square entered) has a flag encoding that is resting and decodes back to that phase. |
| Zones.RestingIsPhase | MainWindow.xaml.cs:150-154 | The resting flag combinations are exactly the encodings of the three phases. |
| Targets.Next | MainWindow.xaml.cs:253-254 | `Random.Next(lo, hi)` returns a value in [lo, hi), or `lo` when `lo == hi`. |
| Targets.NextReaches | MainWindow.xaml.cs:253-254 | Every value in [lo, hi) is returned for some generator sample, so the injected samples lose no placement. |
| Targets.HitFloor | MainWindow.xaml.cs:630-631 | The lower bound of the draw after a hit is 50 for Down and Up, and 0 for Right and Left. |
| FrameSpec.Respawn | MainWindow.xaml.cs:354-358 | The new origin is drawn in [lo, extent - 100) per axis, taking two samples. Flags, counter and score are unchanged. |
| FrameSpec.Initial | MainWindow.xaml.cs:253-260 | The constructor leaves no flag raised, a zero counter and score, and the square at least 50 from the top and left edges. The invariant holds. |
| FrameSpec.Age | MainWindow.xaml.cs:352-359 | At counter 200 the square is redrawn from [50, extent - 100) and the counter restarts at 0. Otherwise nothing changes. Flags and score are kept. |
| FrameSpec.BodyStep | MainWindow.xaml.cs:497-539 | A body adds 1 point exactly when its latch completes the sweep, and 0 otherwise. A hit lowers the three phase flags, zeroes the counter and redraws the square from [floor, extent - 100), or at the floor when that range is empty, the floor being the direction's. Without a hit, counter and square are unchanged. With both wrists outside the column, `above`, `inside` and `below` end lowered. |
| FrameSpec.Hits | MainWindow.xaml.cs:518 | A body hits when, after its phase tests, all three phases of the square's direction are up. |
| FrameSpec.Score | MainWindow.xaml.cs:518-531 | The hit block (Up 566-579, Right 619-633, Left 672-686): on a complete sweep it adds one point, lowers the direction's three flags, zeroes the counter and takes two samples; otherwise it changes nothing. |
| FrameSpec.Visit | MainWindow.xaml.cs:400-402 | An untracked body leaves the state unchanged; a tracked one adds at most one point. |
| FrameSpec.Bodies | MainWindow.xaml.cs:398-703 | The loop over the bodies, each seeing the state the earlier ones left, adds between 0 and one point per body. |
| FrameSpec.Frame | MainWindow.xaml.cs:346-723 | A frame adds between 0 and one point per body. A frame without body data leaves flags and score as they were. |
| FrameProperties.BodyStepKeepsInvariant | MainWindow.xaml.cs:497-696 | Each orientation branch keeps the invariant: counter bound, non-negative score, square in its box, resting flags. |
| FrameProperties.BodiesKeepInvariant | MainWindow.xaml.cs:398-703 | The loop over the bodies keeps the invariant. After it the counter is below 200 or unchanged. |
| FrameProperties.FrameKeepsInvariant | MainWindow.xaml.cs:346-723 | Every frame keeps the invariant: the square stays in its box, the counter within 0..200, the score non-negative and the flags resting. |
| FrameProperties.BodiesPoints | MainWindow.xaml.cs:398-703 | Over the loop the score grows by exactly the number of bodies that complete a sweep. |
| FrameProperties.HitCountBound | MainWindow.xaml.cs:398-402 | At most one hit per body. No hit when every body is untracked. |
| FrameProperties.BodiesCounter | MainWindow.xaml.cs:518-527 | After the loop the counter is 0 if any body hit, and unchanged otherwise. |
| FrameProperties.FramePoints | MainWindow.xaml.cs:380-720 | Over a frame the score never decreases and grows by at most the number of bodies. It grows by exactly the frame's hits when body data arrived, and not at all otherwise. |
| FrameProperties.FrameCounter | MainWindow.xaml.cs:352-719 | Without body data the counter only takes the timeout's reset. With body data it ends at 1 if the frame hit, and otherwise one above its value after the timeout. |
| FrameProperties.HitNeedsPostZone | MainWindow.xaml.cs:512-518 | From resting flags, a hit needs a wrist in the post-zone on the frame of the hit. |
| FrameProperties.PostZoneAfterSquareScores | MainWindow.xaml.cs:512-518 | Once the square has been entered, a wrist in the post-zone always completes the sweep. |
| FrameProperties.SquareAfterPreZoneAdvances | MainWindow.xaml.cs:506-539 | Once the first phase is up, a wrist in the square either completes the sweep or leaves the phase at "square entered"; the column reset cannot undo it. |
| FrameProperties.NoHitFromIdleWithOnePoint | MainWindow.xaml.cs:480-486 | With no flag raised, a body whose two wrists are at one point cannot hit. |
| FrameProperties.SideLatchSurvivesAbandon | MainWindow.xaml.cs:636-641 | For Right and Left, the column reset lowers the middle phase but keeps the first-phase flag. |
| FrameProperties.VerticalAbandonClearsAll | MainWindow.xaml.cs:533-538 | For Down and Up, both wrists outside the column return the sweep to idle. |
| FrameProperties.UntrackedBodiesChangeNothing | MainWindow.xaml.cs:402 | Untracked bodies leave the whole state unchanged. |
| Engine.GestureEngine.Valid | MainWindow.xaml.cs:138-160 | The class invariant over the window's fields: exactly one square, at (`squareX`, `squareY`) and inside its spawn box, the counter within 0..200, a non-negative score, and flags that encode one of the three phases. |
| Engine.GestureEngine.constructor | MainWindow.xaml.cs:253-260 | The window's constructor establishes the invariant with one square, placed as `FrameSpec.Initial` says. |
| Engine.GestureEngine.NextInt | MainWindow.xaml.cs:356-357 | A call to the generator returns `Next(lo, hi, sample)` and consumes one sample. |
| Engine.GestureEngine.Respawn | MainWindow.xaml.cs:354-358 | `Remove(squares[0])` then `Add` leaves exactly the new square in the list. The state is `FrameSpec.Respawn` of the old one. |
| Engine.GestureEngine.Frame | MainWindow.xaml.cs:346-723 | The frame handler keeps `Valid()`, so the list always holds exactly one square, and produces exactly `FrameSpec.Frame` of the old state. |
| Engine.GestureEngine.ProcessBody | MainWindow.xaml.cs:497-696 | The four orientation branches, run in turn, produce exactly `FrameSpec.BodyStep` of the old state and keep `Valid()`. |
| Engine.GestureEngine.LatchDown | MainWindow.xaml.cs:500-516 | The Down phase tests raise the flags exactly as `Zones.Latch` does. |
| Engine.GestureEngine.SweepDown | MainWindow.xaml.cs:497-539 | The Down branch produces exactly `FrameSpec.BodyStep` and keeps one square. |
| Engine.GestureEngine.LatchUp | MainWindow.xaml.cs:548-564 | The Up phase tests raise the flags exactly as `Zones.Latch` does. |
| Engine.GestureEngine.SweepUp | MainWindow.xaml.cs:544-587 | The Up branch produces exactly `FrameSpec.BodyStep` and keeps one square. |
| Engine.GestureEngine.LatchRight | MainWindow.xaml.cs:599-616 | The Right phase tests raise the flags exactly as `Zones.Latch` does. |
| Engine.GestureEngine.SweepRight | MainWindow.xaml.cs:595-642 | The Right branch produces exactly `FrameSpec.BodyStep` and keeps one square. |
| Engine.GestureEngine.LatchLeft | MainWindow.xaml.cs:652-669 | The Left phase tests raise the flags exactly as `Zones.Latch` does. |
| Engine.GestureEngine.SweepLeft | MainWindow.xaml.cs:648-695 | The Left branch produces exactly `FrameSpec.BodyStep` and keeps one square. |
| Engine.GestureEngine.Points | MainWindow.xaml.cs:720 | The displayed score is the `points` field and is never negative. |
| Scenarios.DownSwipeHitsOnce | MainWindow.xaml.cs:497-539 | A Down square at (100,100) and a right wrist at (120,50), (120,120), (120,200) give the phases in order and exactly one point, on the third frame. That frame ends with no flag raised and the counter at 1. |
| Scenarios.SkippingTheSquareScoresNothing | MainWindow.xaml.cs:500-516 | A wrist going from (120,50) to (120,200) scores nothing, and `inside` stays false. |
| Scenarios.CascadeInOneFrame | MainWindow.xaml.cs:500-531 | Wrists on the top and bottom edges complete a Down sweep from idle in a single frame. |
| Scenarios.LaterBodySeesTheNewSquare | MainWindow.xaml.cs:398-703 | Two bodies make the same completing move. Only the first scores, because the second is tested against the respawned square. |
| Scenarios.UntrackedFramesKeepFlags | MainWindow.xaml.cs:402 | Any number of frames with only untracked bodies keep the flags and the score. |
| Scenarios.EngineScoresDownSwipe | MainWindow.xaml.cs:346-720 | The three-frame Down sweep, run on a `GestureEngine` object, yields a score of 1. |

## Left out

- Sensor acquisition, the frame reader, availability events and the status text: I/O. Whether a frame carried body data is the `dataReceived` parameter.
- Projection of camera-space joints to depth space through the coordinate mapper, with its negative-depth clamp: a foreign library call on floats. The two wrist positions are given already projected.
- NaN and infinite coordinates: wrist coordinates are reals, and every zone test is an ordered comparison.
- All drawing: bodies, bones, hands, clipped edges, the square, the ellipses on the wrists, the score label's text. Also diagnostic trace output, and the bone and pen tables.
- The zone tests the window computes but never uses (`rightHandAboveY`, `leftHandAboveY`, `rightHandBelowY`, `leftHandBelowY`).
- `Rectangle/Square.cs`: it declares no 3-argument constructor and no `Orientation` property, so the orientation a new square gets cannot be read from the code. The model gives every square the engine's fixed `orientation`; the rest of the class (drawing, its own counter, hit and shown flags) is unused by the engine.
- The pseudo-random generator itself: its outputs are an injected stream of samples, each reduced into the requested range.
- `Engine.GestureEngine.constructor`: requires both display sides to be at least 150. Below that, `Random.Next` would throw on the first draw; the model does not include the exception.
- `points`: modelled as an unbounded integer. A 32-bit wrap-around after 2^31 - 1 hits is not modelled.
- Each orientation branch's phase tests are a method of their own (`LatchDown`, …). The column tests are taken once more before them, against the same square. Nothing is observable between the two.
