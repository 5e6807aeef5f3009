/** The rotate-and-zoom controller of the shader demo, as values.
    One frame drains the pending input events (each key press nudges the
    rotation speed or the zoom speed), then advances the rotation angle by the
    speed, then moves the zoom factor by the zoom speed, rebounding from the
    zoom limits. The class in module RenderLoop performs these steps in place
    and is proved against the functions defined here. */
module Transform {

  const MaxSpeed: real := 180.0
  const MaxZoomSpeed: int := 25
  const MaxZoom: real := 100.0
  const MinZoom: real := 0.04
  /** Rotation-speed change per LEFT/RIGHT press, in degrees per frame. */
  const SpeedStep: real := 0.5
  /** How far inside a zoom limit the zoom factor is put back after hitting it. */
  const Rebound: real := 0.1

  datatype Key = Left | Right | Down | Up | Space | OtherKey

  /** An input event: the window's close request, a key press, or anything else. */
  datatype Event = Quit | KeyDown(key: Key) | OtherEvent

  datatype TransformState = TransformState(angle: real, speed: real, zoom: real, zoomSpeed: int)

  /** The state after the event phase of a frame (or of several frames), and
      whether a quit request ended the program there. */
  datatype Drained = Drained(state: TransformState, quit: bool)

  /** Start-up values; the initial speed is the validated command-line value. */
  function Initial(speed0: real): (r: TransformState)
    ensures r.speed == speed0
    ensures -MaxSpeed <= speed0 <= MaxSpeed ==> Inv(r)
  {
    TransformState(0.0, speed0, 1.0, 0)
  }

  function Abs(x: real): real
  {
    if x < 0.0 then -x else x
  }

  // ---------------------------------------------------------------------------
  // Invariants

  /** Every speed a guarded half-degree step can reach from [-180, 180]. */
  predicate SpeedInReach(v: real)
  {
    -MaxSpeed - SpeedStep < v < MaxSpeed + SpeedStep
  }

  predicate ZoomSpeedInRange(z: int)
  {
    -MaxZoomSpeed <= z <= MaxZoomSpeed
  }

  predicate ZoomInRange(z: real)
  {
    MinZoom < z < MaxZoom
  }

  predicate Inv(s: TransformState)
  {
    SpeedInReach(s.speed) && ZoomSpeedInRange(s.zoomSpeed) && ZoomInRange(s.zoom)
  }

  /** v is a whole multiple of half a degree. */
  predicate OnHalfGrid(v: real)
  {
    (2.0 * v).Floor as real == 2.0 * v
  }

  /** The stricter speed invariant that holds when the speed starts on the
      half-degree grid. */
  predicate GridSpeed(v: real)
  {
    OnHalfGrid(v) && -MaxSpeed <= v <= MaxSpeed
  }

  // ---------------------------------------------------------------------------
  // Event phase

  /** Effect of one key press on the state. */
  function ApplyKey(s: TransformState, k: Key): (r: TransformState)
    ensures r.angle == s.angle && r.zoom == s.zoom
    ensures k != Left && k != Right && k != Space ==> r.speed == s.speed
    ensures k != Down && k != Up && k != Space ==> r.zoomSpeed == s.zoomSpeed
    ensures k == Space ==> r.speed == 0.0 && r.zoomSpeed == 0
    ensures k != Space ==> Abs(r.speed - s.speed) <= SpeedStep
    ensures k != Space ==> -1 <= r.zoomSpeed - s.zoomSpeed <= 1
    ensures SpeedInReach(s.speed) ==> SpeedInReach(r.speed)
    ensures ZoomSpeedInRange(s.zoomSpeed) ==> ZoomSpeedInRange(r.zoomSpeed)
  {
    match k
    case Left => if s.speed < MaxSpeed then s.(speed := s.speed + SpeedStep) else s
    case Right => if s.speed > -MaxSpeed then s.(speed := s.speed - SpeedStep) else s
    case Down => if s.zoomSpeed < MaxZoomSpeed then s.(zoomSpeed := s.zoomSpeed + 1) else s
    case Up => if s.zoomSpeed > -MaxZoomSpeed then s.(zoomSpeed := s.zoomSpeed - 1) else s
    case Space => s.(speed := 0.0, zoomSpeed := 0)
    case OtherKey => s
  }

  /** Effect of one event other than a quit request. */
  function HandleEvent(s: TransformState, e: Event): (r: TransformState)
    ensures r.angle == s.angle && r.zoom == s.zoom
    ensures !e.KeyDown? ==> r == s
    ensures SpeedInReach(s.speed) ==> SpeedInReach(r.speed)
    ensures ZoomSpeedInRange(s.zoomSpeed) ==> ZoomSpeedInRange(r.zoomSpeed)
  {
    match e
    case KeyDown(k) => ApplyKey(s, k)
    case _ => s
  }

  /** Processes the events in order; a quit request ends the program, so the
      events after it are never looked at. The event phase never touches the
      angle or the zoom factor. */
  function Drain(s: TransformState, es: seq<Event>): (r: Drained)
    ensures r.state.angle == s.angle && r.state.zoom == s.zoom
    decreases |es|
  {
    if es == [] then Drained(s, false)
    else if es[0].Quit? then Drained(s, true)
    else Drain(HandleEvent(s, es[0]), es[1..])
  }

  // ---------------------------------------------------------------------------
  // Angle and zoom phase

  /** The zoom step of a frame: move by zoomSpeed/100 while strictly inside the
      limits, then rebound from whichever limit was reached. */
  function ZoomStep(s: TransformState): (r: TransformState)
    ensures ZoomInRange(r.zoom)
    ensures r.angle == s.angle && r.speed == s.speed
  {
    var z := if s.zoom > MinZoom && s.zoom < MaxZoom then s.zoom + s.zoomSpeed as real / 100.0 else s.zoom;
    if z <= MinZoom then s.(zoom := MinZoom + Rebound, zoomSpeed := 0)
    else if z >= MaxZoom then s.(zoom := MaxZoom - Rebound, zoomSpeed := 0)
    else s.(zoom := z)
  }

  /** One iteration of the render loop's state update. */
  function Frame(s: TransformState, es: seq<Event>): (r: Drained)
    ensures r.quit == Drain(s, es).quit
    ensures !r.quit ==> ZoomInRange(r.state.zoom)
  {
    var d := Drain(s, es);
    if d.quit then d
    else Drained(ZoomStep(d.state.(angle := d.state.angle + d.state.speed)), false)
  }

  /** Several iterations of the render loop, one event batch per frame, up to
      the first quit request. */
  function Run(s: TransformState, frames: seq<seq<Event>>): (r: Drained)
    ensures ZoomInRange(s.zoom) ==> ZoomInRange(r.state.zoom)
    ensures frames != [] && !r.quit ==> ZoomInRange(r.state.zoom)
    decreases |frames|
  {
    if frames == [] then Drained(s, false)
    else
      var f := Frame(s, frames[0]);
      if f.quit then f else Run(f.state, frames[1..])
  }

  // ---------------------------------------------------------------------------
  // Lemmas: single key presses

  /** The guarded steps of the four arrow keys, in both directions of each guard. */
  lemma ArrowKeySteps(s: TransformState)
    ensures ApplyKey(s, Left).speed == s.speed + SpeedStep <==> s.speed < MaxSpeed
    ensures s.speed >= MaxSpeed ==> ApplyKey(s, Left) == s
    ensures ApplyKey(s, Right).speed == s.speed - SpeedStep <==> s.speed > -MaxSpeed
    ensures s.speed <= -MaxSpeed ==> ApplyKey(s, Right) == s
    ensures ApplyKey(s, Down).zoomSpeed == s.zoomSpeed + 1 <==> s.zoomSpeed < MaxZoomSpeed
    ensures s.zoomSpeed >= MaxZoomSpeed ==> ApplyKey(s, Down) == s
    ensures ApplyKey(s, Up).zoomSpeed == s.zoomSpeed - 1 <==> s.zoomSpeed > -MaxZoomSpeed
    ensures s.zoomSpeed <= -MaxZoomSpeed ==> ApplyKey(s, Up) == s
  {
  }

  /** A half-degree step taken under the guard keeps a grid speed on the grid
      and within [-180, 180]. */
  lemma GuardedHalfStep(v: real)
    requires GridSpeed(v)
    ensures v < MaxSpeed ==> GridSpeed(v + SpeedStep)
    ensures v > -MaxSpeed ==> GridSpeed(v - SpeedStep)
  {
    var n := (2.0 * v).Floor;
    assert n as real == 2.0 * v;
    if v < MaxSpeed {
      assert n < 360;
      assert 2.0 * (v + SpeedStep) == (n + 1) as real;
      assert (2.0 * (v + SpeedStep)).Floor == n + 1;
    }
    if v > -MaxSpeed {
      assert n > -360;
      assert 2.0 * (v - SpeedStep) == (n - 1) as real;
      assert (2.0 * (v - SpeedStep)).Floor == n - 1;
    }
  }

  lemma ApplyKeyKeepsGridSpeed(s: TransformState, k: Key)
    requires GridSpeed(s.speed)
    ensures GridSpeed(ApplyKey(s, k).speed)
  {
    GuardedHalfStep(s.speed);
    if k == Space {
      assert (2.0 * 0.0).Floor == 0;
    }
  }

  /** Unrecognised keys and events that are neither key presses nor quit
      requests change nothing; SPACE keeps angle and zoom. */
  lemma IgnoredEvents(s: TransformState)
    ensures ApplyKey(s, OtherKey) == s
    ensures HandleEvent(s, OtherEvent) == s
    ensures ApplyKey(s, Space) == TransformState(s.angle, 0.0, s.zoom, 0)
  {
  }

  // ---------------------------------------------------------------------------
  // Lemmas: the event phase

  /** A quit request is reported exactly when the batch holds one. */
  lemma {:induction false} DrainQuitIff(s: TransformState, es: seq<Event>)
    ensures Drain(s, es).quit <==> exists i :: 0 <= i < |es| && es[i].Quit?
    decreases |es|
  {
    if es != [] && !es[0].Quit? {
      DrainQuitIff(HandleEvent(s, es[0]), es[1..]);
      assert forall i :: 0 < i < |es| ==> es[i] == es[1..][i - 1];
      if Drain(s, es).quit {
        var j :| 0 <= j < |es[1..]| && es[1..][j].Quit?;
        assert es[j + 1].Quit?;
      }
    }
  }

  /** Draining a + b is draining a, then (unless a held a quit request) b. */
  lemma {:induction false} DrainAppend(s: TransformState, a: seq<Event>, b: seq<Event>)
    ensures Drain(s, a + b) ==
      (var d := Drain(s, a); if d.quit then d else Drain(d.state, b))
    decreases |a|
  {
    if a == [] {
      assert a + b == b;
    } else {
      assert (a + b)[0] == a[0];
      if !a[0].Quit? {
        assert (a + b)[1..] == a[1..] + b;
        DrainAppend(HandleEvent(s, a[0]), a[1..], b);
      }
    }
  }

  /** Events after a quit request have no effect. */
  lemma DrainIgnoresAfterQuit(s: TransformState, a: seq<Event>, rest: seq<Event>)
    ensures Drain(s, a + [Quit] + rest) == Drained(Drain(s, a + [Quit]).state, true)
    ensures !Drain(s, a).quit ==> Drain(s, a + [Quit]) == Drained(Drain(s, a).state, true)
  {
    DrainAppend(s, a, [Quit]);
    DrainAppend(s, a + [Quit], rest);
  }

  /** The reachable-speed band and the zoom-speed range survive any batch. */
  lemma {:induction false} DrainKeepsSpeedBounds(s: TransformState, es: seq<Event>)
    requires SpeedInReach(s.speed) && ZoomSpeedInRange(s.zoomSpeed)
    ensures SpeedInReach(Drain(s, es).state.speed)
    ensures ZoomSpeedInRange(Drain(s, es).state.zoomSpeed)
    decreases |es|
  {
    if es != [] && !es[0].Quit? {
      DrainKeepsSpeedBounds(HandleEvent(s, es[0]), es[1..]);
    }
  }

  /** A speed on the half-degree grid stays on it and within [-180, 180]. */
  lemma {:induction false} DrainKeepsGridSpeed(s: TransformState, es: seq<Event>)
    requires GridSpeed(s.speed)
    ensures GridSpeed(Drain(s, es).state.speed)
    decreases |es|
  {
    if es != [] && !es[0].Quit? {
      if es[0].KeyDown? {
        ApplyKeyKeepsGridSpeed(s, es[0].key);
      }
      DrainKeepsGridSpeed(HandleEvent(s, es[0]), es[1..]);
    }
  }

  /** Without a RIGHT or SPACE press, a batch never lowers the speed. */
  lemma {:induction false} DrainNeverLowersSpeed(s: TransformState, es: seq<Event>)
    requires forall i :: 0 <= i < |es| ==> !(es[i].KeyDown? && es[i].key in {Right, Space})
    ensures Drain(s, es).state.speed >= s.speed
    decreases |es|
  {
    if es != [] && !es[0].Quit? {
      DrainNeverLowersSpeed(HandleEvent(s, es[0]), es[1..]);
    }
  }

  /** An off-grid start speed can be pushed past 180 by a LEFT press: the
      guard compares before the step, so only the band of SpeedInReach holds. */
  lemma OvershootPastMaxSpeed()
    ensures Drain(Initial(179.9), [KeyDown(Left)]).state.speed == 180.4
    ensures Drain(Initial(179.9), [KeyDown(Left)]).state.speed > MaxSpeed
  {
  }

  // ---------------------------------------------------------------------------
  // Lemmas: angle and zoom

  /** The three outcomes of the zoom step: a rebound to 0.14 or to 99.9 with
      the zoom speed zeroed exactly when the moved zoom reaches a limit, and
      otherwise the moved zoom with the zoom speed kept. */
  lemma ZoomStepCases(s: TransformState)
    ensures var z := if ZoomInRange(s.zoom) then s.zoom + s.zoomSpeed as real / 100.0 else s.zoom;
      (z <= MinZoom ==> ZoomStep(s).zoom == 0.14 && ZoomStep(s).zoomSpeed == 0) &&
      (z >= MaxZoom ==> ZoomStep(s).zoom == 99.9 && ZoomStep(s).zoomSpeed == 0) &&
      (ZoomInRange(z) ==> ZoomStep(s).zoom == z && ZoomStep(s).zoomSpeed == s.zoomSpeed)
  {
  }

  /** With the zoom speed at 0 and the zoom inside its limits, the zoom stays put. */
  lemma ZoomStepAtRest(s: TransformState)
    requires ZoomInRange(s.zoom) && s.zoomSpeed == 0
    ensures ZoomStep(s) == s
  {
  }

  /** Inside its limits, one zoom step moves the zoom by at most a quarter. */
  lemma ZoomStepBounded(s: TransformState)
    requires ZoomInRange(s.zoom) && ZoomSpeedInRange(s.zoomSpeed)
    ensures Abs(ZoomStep(s).zoom - s.zoom) <= 0.25
  {
  }

  /** A frame that is not ended by a quit request adds the post-event speed to
      the angle, with no wraparound, and leaves that speed as it is. */
  lemma FrameAdvancesAngle(s: TransformState, es: seq<Event>)
    ensures !Frame(s, es).quit ==>
      Frame(s, es).state.angle == s.angle + Drain(s, es).state.speed &&
      Frame(s, es).state.speed == Drain(s, es).state.speed
    ensures Frame(s, es).quit ==> Frame(s, es) == Drain(s, es)
  {
  }

  lemma FrameKeepsInv(s: TransformState, es: seq<Event>)
    requires Inv(s)
    ensures Inv(Frame(s, es).state)
  {
    DrainKeepsSpeedBounds(s, es);
  }

  /** Every state the render loop reaches satisfies the invariant. */
  lemma {:induction false} RunKeepsInv(s: TransformState, frames: seq<seq<Event>>)
    requires Inv(s)
    ensures Inv(Run(s, frames).state)
    decreases |frames|
  {
    if frames != [] {
      FrameKeepsInv(s, frames[0]);
      if !Frame(s, frames[0]).quit {
        RunKeepsInv(Frame(s, frames[0]).state, frames[1..]);
      }
    }
  }

  /** A speed that starts on the half-degree grid stays within [-180, 180]
      across any number of frames. */
  lemma {:induction false} RunKeepsGridSpeed(s: TransformState, frames: seq<seq<Event>>)
    requires GridSpeed(s.speed)
    ensures GridSpeed(Run(s, frames).state.speed)
    decreases |frames|
  {
    if frames != [] {
      DrainKeepsGridSpeed(s, frames[0]);
      FrameAdvancesAngle(s, frames[0]);
      if !Frame(s, frames[0]).quit {
        RunKeepsGridSpeed(Frame(s, frames[0]).state, frames[1..]);
      }
    }
  }

  /** From any validated start speed, every reached state satisfies the
      invariant and the zoom speed stays within [-25, 25]. */
  lemma ReachableStates(speed0: real, frames: seq<seq<Event>>)
    requires -MaxSpeed <= speed0 <= MaxSpeed
    ensures Inv(Run(Initial(speed0), frames).state)
  {
    RunKeepsInv(Initial(speed0), frames);
  }

  /** The angle drifts by less than 180.5 degrees per frame. */
  lemma {:induction false} RunAngleDrift(s: TransformState, frames: seq<seq<Event>>)
    requires Inv(s)
    ensures Abs(Run(s, frames).state.angle - s.angle) <= (MaxSpeed + SpeedStep) * |frames| as real
    decreases |frames|
  {
    if frames != [] {
      var f := Frame(s, frames[0]);
      DrainKeepsSpeedBounds(s, frames[0]);
      FrameAdvancesAngle(s, frames[0]);
      FrameKeepsInv(s, frames[0]);
      if !f.quit {
        RunAngleDrift(f.state, frames[1..]);
      }
    }
  }

  // ---------------------------------------------------------------------------
  // Scenarios

  /** Three LEFT presses from rest give speed 1.5, and the frame turns by 1.5. */
  lemma ThreeLeftPresses()
    ensures Frame(Initial(0.0), [KeyDown(Left), KeyDown(Left), KeyDown(Left)])
      == Drained(TransformState(1.5, 1.5, 1.0, 0), false)
  {
  }

  /** Near the upper zoom limit with zoom speed 10, one step rebounds to 99.9. */
  lemma UpperRebound()
    ensures ZoomStep(TransformState(0.0, 0.0, 99.95, 10)) == TransformState(0.0, 0.0, 99.9, 0)
  {
  }
}
