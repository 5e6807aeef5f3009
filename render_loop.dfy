/** The render loop's mutable controller state, updated in place frame by
    frame. Each method is proved against the matching function of module
    Transform, so the lemmas proved there carry over to the object. */
module RenderLoop {
  import opened Transform

  class Controller {
    var angle: real
    var speed: real
    var zoom: real
    var zoomSpeed: int

    /** The fields as a value. */
    function Current(): TransformState
      reads this
    {
      TransformState(angle, speed, zoom, zoomSpeed)
    }

    ghost predicate Valid()
      reads this
    {
      Inv(Current())
    }

    /** Start-up state; the speed has already passed the start-up validation. */
    constructor (initialSpeed: real)
      requires -MaxSpeed <= initialSpeed <= MaxSpeed
      ensures Current() == Initial(initialSpeed)
      ensures Valid()
    {
      angle := 0.0;
      speed := initialSpeed;
      zoom := 1.0;
      zoomSpeed := 0;
    }

    /** One key press. */
    method OnKey(k: Key)
      modifies this
      ensures Current() == ApplyKey(old(Current()), k)
      ensures old(Valid()) ==> Valid()
    {
      if k == Left {
        if speed < MaxSpeed {
          speed := speed + SpeedStep;
        }
      } else if k == Right {
        if speed > -MaxSpeed {
          speed := speed - SpeedStep;
        }
      } else if k == Down {
        if zoomSpeed < MaxZoomSpeed {
          zoomSpeed := zoomSpeed + 1;
        }
      } else if k == Up {
        if zoomSpeed > -MaxZoomSpeed {
          zoomSpeed := zoomSpeed - 1;
        }
      } else if k == Space {
        speed := 0.0;
        zoomSpeed := 0;
      }
    }

    /** The event phase of a frame: handles the pending events in order and
        stops at the first quit request, reporting it. */
    method DrainEvents(events: seq<Event>) returns (quit: bool)
      modifies this
      ensures Drained(Current(), quit) == Drain(old(Current()), events)
      ensures quit <==> exists i :: 0 <= i < |events| && events[i].Quit?
      ensures old(Valid()) ==> Valid()
    {
      DrainQuitIff(Current(), events);
      if Valid() {
        DrainKeepsSpeedBounds(Current(), events);
      }
      quit := false;
      var i := 0;
      while i < |events|
        invariant 0 <= i <= |events|
        invariant Drain(old(Current()), events) == Drain(Current(), events[i..])
      {
        assert events[i..][0] == events[i] && events[i..][1..] == events[i + 1..];
        match events[i] {
          case Quit =>
            quit := true;
            return;
          case KeyDown(k) =>
            OnKey(k);
          case OtherEvent =>
        }
        i := i + 1;
      }
    }

    /** The zoom phase of a frame. */
    method StepZoom()
      modifies this
      ensures Current() == ZoomStep(old(Current()))
      ensures ZoomInRange(zoom)
    {
      ZoomStepCases(Current());
      if zoom > MinZoom && zoom < MaxZoom {
        zoom := zoom + zoomSpeed as real / 100.0;
      }
      if zoom <= MinZoom {
        zoomSpeed := 0;
        zoom := MinZoom + Rebound;
      }
      if zoom >= MaxZoom {
        zoomSpeed := 0;
        zoom := MaxZoom - Rebound;
      }
    }

    /** One iteration of the render loop's update: events, then angle, then
        zoom. After a quit request nothing further happens. */
    method RunFrame(events: seq<Event>) returns (quit: bool)
      modifies this
      ensures Drained(Current(), quit) == Frame(old(Current()), events)
      ensures old(Valid()) ==> Valid()
    {
      ghost var s0 := Current();
      if Valid() {
        FrameKeepsInv(s0, events);
      }
      quit := DrainEvents(events);
      if quit {
        return;
      }
      angle := angle + speed;
      StepZoom();
    }

    /** The render loop over a sequence of frames, each with its batch of
        events, until a quit request ends it. */
    method RunLoop(frames: seq<seq<Event>>) returns (quit: bool)
      requires Valid()
      modifies this
      ensures Drained(Current(), quit) == Run(old(Current()), frames)
      ensures Valid()
    {
      RunKeepsInv(Current(), frames);
      quit := false;
      var i := 0;
      while i < |frames|
        invariant 0 <= i <= |frames|
        invariant Run(old(Current()), frames) == Run(Current(), frames[i..])
      {
        assert frames[i..][0] == frames[i] && frames[i..][1..] == frames[i + 1..];
        quit := RunFrame(frames[i]);
        if quit {
          return;
        }
        i := i + 1;
      }
    }
  }
}
