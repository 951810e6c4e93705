/**
 * The orbit-camera controller (`CameraCtrl` in src/main.rs) and the input
 * transitions that `App::window_event` applies to it.
 *
 * Angles, radius and cursor positions are reals: f32 rounding is not modelled.
 * The pure functions `AfterMouseInput`, `AfterCursorMoved` and `AfterMouseWheel`
 * specify the transitions; the class `CameraCtrl` performs them in place and is
 * proved against them.
 */
module Camera {
  import opened Optional

  /** π as a decimal; the source uses the f32 constant `PI`. */
  const Pi: real := 3.14159265358979
  /** Pitch is confined to ±0.995·π/2 to stay away from the look-at poles. */
  const PitchLimit: real := 0.995 * (Pi / 2.0)
  /** Radians of yaw/pitch per pixel of cursor travel while dragging. */
  const Sensitivity: real := 0.005
  /** Vertical field of view: 60 degrees in radians. */
  const FovY: real := 60.0 * Pi / 180.0
  /** Zoom factor per scroll unit, the factor's bounds, and the radius bounds. */
  const ZoomPerUnit: real := 0.1
  const MinFactor: real := 0.2
  const MaxFactor: real := 5.0
  const MinRadius: real := 1.0
  const MaxRadius: real := 50.0
  /** Pixels of a pixel-precise scroll that count as one line. */
  const PixelsPerLine: real := 50.0

  datatype Vec2 = Vec2(x: real, y: real)

  datatype ElementState = Pressed | Released

  /** A wheel event: whole lines (`LineDelta(_, y)`) or pixels (`PixelDelta(p)`). */
  datatype ScrollDelta = LineDelta(columns: real, lines: real) | PixelDelta(position: Vec2)

  /** The inputs that reach the controller: left button, cursor motion, wheel. */
  datatype CameraInput = Button(state: ElementState) | Cursor(position: Vec2) | Wheel(delta: ScrollDelta)

  /** The value of the controller's fields. */
  datatype CameraState = CameraState(
    yaw: real,
    pitch: real,
    radius: real,
    fovY: real,
    dragging: bool,
    lastCursor: Option<Vec2>)

  /** `f32::clamp`: it panics when `lo > hi`, so callers must pass an ordered interval. */
  function Clamp(x: real, lo: real, hi: real): (r: real)
    requires lo <= hi
    ensures lo <= r <= hi
    ensures lo <= x <= hi ==> r == x
    ensures x < lo ==> r == lo
    ensures hi < x ==> r == hi
  {
    if x < lo then lo else if hi < x then hi else x
  }

  function Distance(a: real, b: real): (d: real) {
    if a < b then b - a else a - b
  }

  /** The clamped value is the point of [lo, hi] nearest to x. */
  lemma ClampIsNearest(x: real, lo: real, hi: real, y: real)
    requires lo <= hi && lo <= y <= hi
    ensures Distance(Clamp(x, lo, hi), x) <= Distance(y, x)
  {
  }

  /** `CameraCtrl::new`. */
  function Init(): (c: CameraState)
    ensures CameraInv(c)
    ensures !c.dragging && c.lastCursor == None
  {
    CameraState(0.6, 0.3, 4.0, FovY, false, None)
  }

  /**
   * What every reachable controller state satisfies: pitch within the pole
   * limit, radius within the zoom range, and no cursor sample while idle.
   */
  ghost predicate CameraInv(c: CameraState) {
    && -PitchLimit <= c.pitch <= PitchLimit
    && MinRadius <= c.radius <= MaxRadius
    && (!c.dragging ==> c.lastCursor == None)
  }

  /** A left-button press starts a drag; a release ends it and forgets the cursor. */
  function AfterMouseInput(c: CameraState, state: ElementState): (r: CameraState)
    ensures r.dragging <==> state == Pressed
    ensures state == Released ==> r.lastCursor == None
    ensures state == Pressed ==> r.lastCursor == c.lastCursor
    ensures r.(dragging := c.dragging, lastCursor := c.lastCursor) == c
  {
    var dragging := state == Pressed;
    if !dragging then c.(dragging := dragging, lastCursor := None)
    else c.(dragging := dragging)
  }

  /**
   * Cursor motion: ignored unless dragging; with a previous sample it turns the
   * camera by the pixel delta and clamps the pitch; the sample is then replaced.
   */
  function AfterCursorMoved(c: CameraState, pos: Vec2): (r: CameraState)
    ensures !c.dragging ==> r == c
    ensures c.dragging ==> r == c.(yaw := r.yaw, pitch := r.pitch, lastCursor := Some(pos))
    ensures c.dragging && c.lastCursor == None ==> r.yaw == c.yaw && r.pitch == c.pitch
    ensures c.dragging && c.lastCursor.Some? ==>
      && r.yaw == c.yaw - (pos.x - c.lastCursor.value.x) * Sensitivity
      && r.pitch == Clamp(c.pitch - (pos.y - c.lastCursor.value.y) * Sensitivity, -PitchLimit, PitchLimit)
      && -PitchLimit <= r.pitch <= PitchLimit
  {
    if !c.dragging then c
    else match c.lastCursor
      case None => c.(lastCursor := Some(pos))
      case Some(prev) =>
        var delta := Vec2(pos.x - prev.x, pos.y - prev.y);
        var pitch := c.pitch - delta.y * Sensitivity;
        c.(yaw := c.yaw - delta.x * Sensitivity,
           pitch := Clamp(pitch, -PitchLimit, PitchLimit),
           lastCursor := Some(pos))
  }

  /**
   * Whether a cursor move in state c asks the window for a redraw: exactly when
   * the move turns the camera by the delta from a previous sample.
   */
  function CursorRequestsRedraw(c: CameraState): (b: bool)
    ensures b <==> c.dragging && c.lastCursor.Some?
    ensures b ==> forall pos ::
      AfterCursorMoved(c, pos).yaw == c.yaw - (pos.x - c.lastCursor.value.x) * Sensitivity
    ensures !b ==> forall pos ::
      AfterCursorMoved(c, pos).yaw == c.yaw && AfterCursorMoved(c, pos).pitch == c.pitch
  {
    c.dragging && c.lastCursor.Some?
  }

  /** The wheel delta in lines: a pixel delta counts 50 pixels per line. */
  function ScrollAmount(delta: ScrollDelta): (s: real)
    ensures delta.LineDelta? ==> s == delta.lines
    ensures delta.PixelDelta? ==> s * PixelsPerLine == delta.position.y
  {
    match delta
    case LineDelta(_, y) => y
    case PixelDelta(p) => p.y / PixelsPerLine
  }

  /**
   * The multiplicative zoom for a scroll: 10% per line, never below 0.2 nor
   * above 5.0, so it is exact for scrolls from -40 to 8 lines.
   */
  function ZoomFactor(scroll: real): (f: real)
    ensures MinFactor <= f <= MaxFactor
    ensures -40.0 <= scroll <= 8.0 ==> f == 1.0 - scroll * ZoomPerUnit
    ensures scroll > 8.0 ==> f == MinFactor
    ensures scroll < -40.0 ==> f == MaxFactor
  {
    Clamp(1.0 - scroll * ZoomPerUnit, MinFactor, MaxFactor)
  }

  /** A wheel event scales the radius and keeps it in [1, 50]; nothing else changes. */
  function AfterMouseWheel(c: CameraState, delta: ScrollDelta): (r: CameraState)
    ensures MinRadius <= r.radius <= MaxRadius
    ensures r == c.(radius := r.radius)
    ensures var target := c.radius * ZoomFactor(ScrollAmount(delta));
      && (MinRadius <= target <= MaxRadius ==> r.radius == target)
      && (target > MaxRadius ==> r.radius == MaxRadius)
      && (target < MinRadius ==> r.radius == MinRadius)
  {
    var factor := ZoomFactor(ScrollAmount(delta));
    c.(radius := Clamp(c.radius * factor, MinRadius, MaxRadius))
  }

  /**
   * The controller's transition for one input. Each kind of input touches only
   * its own fields: the button the drag flag and sample, the cursor the angles
   * and sample, the wheel the radius; none changes the field of view.
   */
  function Step(c: CameraState, input: CameraInput): (r: CameraState)
    ensures r.fovY == c.fovY
    ensures input.Button? ==>
      r.yaw == c.yaw && r.pitch == c.pitch && r.radius == c.radius && r.dragging == (input.state == Pressed)
    ensures input.Cursor? ==> r.radius == c.radius && r.dragging == c.dragging
    ensures input.Wheel? ==> r == c.(radius := r.radius)
  {
    match input
    case Button(s) => AfterMouseInput(c, s)
    case Cursor(p) => AfterCursorMoved(c, p)
    case Wheel(d) => AfterMouseWheel(c, d)
  }

  /** The state after a sequence of inputs, applied in order. */
  function Run(c: CameraState, inputs: seq<CameraInput>): (r: CameraState)
    ensures r.fovY == c.fovY
    decreases |inputs|
  {
    if inputs == [] then c else Run(Step(c, inputs[0]), inputs[1..])
  }

  /** The same input n times over. */
  function Repeat(input: CameraInput, n: nat): (s: seq<CameraInput>)
    ensures |s| == n && forall i :: 0 <= i < n ==> s[i] == input
  {
    if n == 0 then [] else [input] + Repeat(input, n - 1)
  }

  /** Every transition keeps the controller invariant. */
  lemma StepPreservesInv(c: CameraState, input: CameraInput)
    requires CameraInv(c)
    ensures CameraInv(Step(c, input))
  {
  }

  lemma {:induction false} RunPreservesInv(c: CameraState, inputs: seq<CameraInput>)
    requires CameraInv(c)
    ensures CameraInv(Run(c, inputs))
    decreases |inputs|
  {
    if inputs != [] {
      StepPreservesInv(c, inputs[0]);
      RunPreservesInv(Step(c, inputs[0]), inputs[1..]);
    }
  }

  /** Running two input sequences back to back is running their concatenation. */
  lemma {:induction false} RunAppend(c: CameraState, a: seq<CameraInput>, b: seq<CameraInput>)
    ensures Run(c, a + b) == Run(Run(c, a), b)
    decreases |a|
  {
    if a == [] {
      assert a + b == b;
    } else {
      assert (a + b)[0] == a[0];
      assert (a + b)[1..] == a[1..] + b;
      RunAppend(Step(c, a[0]), a[1..], b);
    }
  }

  /** Pressing from idle starts a drag with no cursor sample, in any reachable state. */
  lemma PressFromIdleStartsFresh(c: CameraState)
    requires CameraInv(c) && !c.dragging
    ensures AfterMouseInput(c, Pressed).dragging
    ensures AfterMouseInput(c, Pressed).lastCursor == None
  {
  }

  /** While idle, any number of cursor moves leaves every field untouched. */
  lemma {:induction false} IdleIgnoresCursor(c: CameraState, inputs: seq<CameraInput>)
    requires !c.dragging
    requires forall i :: 0 <= i < |inputs| ==> inputs[i].Cursor?
    ensures Run(c, inputs) == c
    decreases |inputs|
  {
    if inputs != [] {
      assert inputs[0].Cursor?;
      IdleIgnoresCursor(c, inputs[1..]);
    }
  }

  /**
   * Press, drag, release: afterwards the controller is idle with no cursor
   * sample, and further cursor moves change nothing.
   */
  lemma PressDragReleaseThenMove(c: CameraState, p0: Vec2, p1: Vec2, moves: seq<CameraInput>)
    requires forall i :: 0 <= i < |moves| ==> moves[i].Cursor?
    ensures var after := Run(c, [Button(Pressed), Cursor(p0), Cursor(p1), Button(Released)]);
      && !after.dragging && after.lastCursor == None
      && Run(after, moves) == after
  {
    var evs := [Button(Pressed), Cursor(p0), Cursor(p1), Button(Released)];
    var c1 := Step(c, evs[0]);
    var c2 := Step(c1, evs[1]);
    var c3 := Step(c2, evs[2]);
    var d := Step(c3, evs[3]);
    assert Run(c3, evs[3..]) == d by { assert evs[3..][1..] == []; }
    assert Run(c2, evs[2..]) == d by { assert evs[2..][1..] == evs[3..]; }
    assert Run(c1, evs[1..]) == d by { assert evs[1..][1..] == evs[2..]; }
    IdleIgnoresCursor(d, moves);
  }

  /** From the initial state, a drag of +100 pixels along x turns yaw from 0.6 to 0.1. */
  lemma DragScenario(x: real, y: real)
    ensures var c := Run(Init(), [Button(Pressed), Cursor(Vec2(x, y)), Cursor(Vec2(x + 100.0, y))]);
      c.yaw == 0.1 && c.pitch == 0.3 && c.dragging && c.lastCursor == Some(Vec2(x + 100.0, y))
  {
    var evs := [Button(Pressed), Cursor(Vec2(x, y)), Cursor(Vec2(x + 100.0, y))];
    var c1 := Step(Init(), evs[0]);
    var c2 := Step(c1, evs[1]);
    var c3 := Step(c2, evs[2]);
    assert Run(c2, evs[2..]) == c3 by { assert evs[2..][1..] == []; }
    assert Run(c1, evs[1..]) == c3 by { assert evs[1..][1..] == evs[2..]; }
  }

  /** One line of scroll-in gives factor 0.9: radius 4.0 becomes 3.6. */
  lemma ZoomInScenario()
    ensures ZoomFactor(ScrollAmount(LineDelta(0.0, 1.0))) == 0.9
    ensures AfterMouseWheel(Init(), LineDelta(0.0, 1.0)).radius == 3.6
  {
  }

  /** Once at the largest radius, zooming out any number of times keeps it there. */
  lemma {:induction false} ZoomOutStaysAtMax(c: CameraState, delta: ScrollDelta, n: nat)
    requires c.radius == MaxRadius
    requires ZoomFactor(ScrollAmount(delta)) >= 1.0
    ensures Run(c, Repeat(Wheel(delta), n)) == c
    decreases n
  {
    if n > 0 {
      assert Step(c, Wheel(delta)) == c;
      assert Repeat(Wheel(delta), n)[1..] == Repeat(Wheel(delta), n - 1);
      ZoomOutStaysAtMax(c, delta, n - 1);
    }
  }

  /**
   * Twenty scrolls of -5 lines each ask for a factor of 1.5 per step; from the
   * initial radius 4.0 the radius reaches 50 after seven steps and stays there.
   */
  lemma TwentyZoomOutsSaturate()
    ensures Run(Init(), Repeat(Wheel(LineDelta(0.0, -5.0)), 20)).radius == MaxRadius
  {
    var e := Wheel(LineDelta(0.0, -5.0));
    assert ZoomFactor(ScrollAmount(LineDelta(0.0, -5.0))) == 1.5;
    var c7 := Run(Init(), Repeat(e, 7));
    RepeatAppend(e, 7, 13);
    RunAppend(Init(), Repeat(e, 7), Repeat(e, 13));
    SevenZoomOuts();
    ZoomOutStaysAtMax(c7, LineDelta(0.0, -5.0), 13);
  }

  lemma RepeatAppend(input: CameraInput, m: nat, n: nat)
    ensures Repeat(input, m + n) == Repeat(input, m) + Repeat(input, n)
    decreases m
  {
    if m > 0 {
      RepeatAppend(input, m - 1, n);
    }
  }

  lemma SevenZoomOuts()
    ensures Run(Init(), Repeat(Wheel(LineDelta(0.0, -5.0)), 7)).radius == MaxRadius
  {
    var e := Wheel(LineDelta(0.0, -5.0));
    var c0 := Init();
    var c1 := Step(c0, e); assert c1.radius == 6.0;
    var c2 := Step(c1, e); assert c2.radius == 9.0;
    var c3 := Step(c2, e); assert c3.radius == 13.5;
    var c4 := Step(c3, e); assert c4.radius == 20.25;
    var c5 := Step(c4, e); assert c5.radius == 30.375;
    var c6 := Step(c5, e); assert c6.radius == 45.5625;
    var c7 := Step(c6, e); assert c7.radius == MaxRadius;
    RunRepeatUnfold(c0, e, 6);
    RunRepeatUnfold(c1, e, 5);
    RunRepeatUnfold(c2, e, 4);
    RunRepeatUnfold(c3, e, 3);
    RunRepeatUnfold(c4, e, 2);
    RunRepeatUnfold(c5, e, 1);
    RunRepeatUnfold(c6, e, 0);
  }

  lemma RunRepeatUnfold(c: CameraState, input: CameraInput, n: nat)
    ensures Run(c, Repeat(input, n + 1)) == Run(Step(c, input), Repeat(input, n))
  {
    assert Repeat(input, n + 1)[1..] == Repeat(input, n);
  }

  /** The controller itself: the fields the event handler updates in place. */
  class CameraCtrl {
    var yaw: real
    var pitch: real
    var radius: real
    var fovY: real
    var dragging: bool
    var lastCursor: Option<Vec2>

    function State(): (s: CameraState)
      reads this
    {
      CameraState(yaw, pitch, radius, fovY, dragging, lastCursor)
    }

    constructor ()
      ensures State() == Init()
    {
      yaw := 0.6;
      pitch := 0.3;
      radius := 4.0;
      fovY := FovY;
      dragging := false;
      lastCursor := None;
    }

    /** A left-button event. */
    method OnMouseInput(state: ElementState)
      modifies this
      ensures State() == AfterMouseInput(old(State()), state)
    {
      dragging := state == Pressed;
      if !dragging {
        lastCursor := None;
      }
    }

    /** A cursor move; `redraw` says whether the window is asked to redraw. */
    method OnCursorMoved(position: Vec2) returns (redraw: bool)
      modifies this
      ensures State() == AfterCursorMoved(old(State()), position)
      ensures redraw == CursorRequestsRedraw(old(State()))
    {
      redraw := false;
      if dragging {
        var pos := position;
        match lastCursor {
          case Some(prev) =>
            var delta := Vec2(pos.x - prev.x, pos.y - prev.y);
            yaw := yaw - delta.x * Sensitivity;
            pitch := pitch - delta.y * Sensitivity;
            var limit := PitchLimit;
            pitch := Clamp(pitch, -limit, limit);
            redraw := true;
          case None =>
        }
        lastCursor := Some(pos);
      }
    }

    /** A wheel event; the source always asks for a redraw after it. */
    method OnMouseWheel(delta: ScrollDelta)
      modifies this
      ensures State() == AfterMouseWheel(old(State()), delta)
    {
      var scroll := match delta
        case LineDelta(_, y) => y
        case PixelDelta(p) => p.y / PixelsPerLine;
      var factor := Clamp(1.0 - scroll * ZoomPerUnit, MinFactor, MaxFactor);
      radius := Clamp(radius * factor, MinRadius, MaxRadius);
    }
  }
}
