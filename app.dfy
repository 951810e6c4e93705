/**
 * `App` of src/main.rs: the window-event dispatcher that routes input to the
 * camera controller, resizes to `GpuState::resize`, and redraw requests to
 * `GpuState::render`, recovering from surface errors.
 *
 * The window system is reduced to what the handler observes: a window id, the
 * event, the seconds elapsed since start-up, and the outcome of acquiring the
 * next surface image. Exiting the event loop, asking for a redraw and printing an
 * error are recorded as flags and a log.
 */
module App {
  import opened Optional
  import opened Camera
  import opened Frame
  import opened Gpu

  datatype MouseButton = Left | Right | Middle | Back | Forward | OtherButton(code: nat)

  /** The `WindowEvent`s the handler distinguishes; every other kind is `OtherEvent`. */
  datatype WindowEvent =
    | CloseRequested
    | Resized(size: PhysicalSize)
    | MouseInput(state: ElementState, button: MouseButton)
    | CursorMoved(position: Vec2)
    | MouseWheel(delta: ScrollDelta)
    | RedrawRequested
    | OtherEvent

  /** What the handler does when rendering a frame fails. */
  datatype Recovery = ResizeToCurrentSize | ExitLoop | LogAndSkip

  /**
   * A lost surface is recovered by resizing to the current size, running out of
   * memory ends the event loop, and every other error is logged and the frame
   * skipped.
   */
  function RecoveryFor(e: SurfaceError): (r: Recovery)
    ensures r == ResizeToCurrentSize <==> e == Lost
    ensures r == ExitLoop <==> e == OutOfMemory
    ensures r == LogAndSkip <==> e != Lost && e != OutOfMemory
  {
    match e
    case Lost => ResizeToCurrentSize
    case OutOfMemory => ExitLoop
    case _ => LogAndSkip
  }

  /** The controller input an event carries: left-button, cursor and wheel events only. */
  function CameraInputOf(ev: WindowEvent): (i: Option<CameraInput>)
    ensures i.Some? <==> (ev.MouseInput? && ev.button == Left) || ev.CursorMoved? || ev.MouseWheel?
    ensures ev.MouseInput? && ev.button == Left ==> i == Some(Button(ev.state))
    ensures ev.CursorMoved? ==> i == Some(Cursor(ev.position))
    ensures ev.MouseWheel? ==> i == Some(Wheel(ev.delta))
  {
    match ev
    case MouseInput(s, Left) => Some(Button(s))
    case CursorMoved(p) => Some(Cursor(p))
    case MouseWheel(d) => Some(Wheel(d))
    case _ => None
  }

  /** The controller state after an event; an event the controller ignores leaves it as it was. */
  function CameraAfter(c: CameraState, ev: WindowEvent): (r: CameraState)
    ensures CameraInv(c) ==> CameraInv(r)
    ensures CameraInputOf(ev).None? ==> r == c
  {
    match CameraInputOf(ev)
    case Some(input) => Step(c, input)
    case None => c
  }

  /** Whether acquiring the frame failed with a lost surface while the window has a non-zero size. */
  predicate LostWithArea(acquire: Acquire, size: PhysicalSize) {
    acquire == AcquireFailed(Lost) && size.width != 0 && size.height != 0
  }

  /** The camera block `render` writes for configuration cfg at the given time. */
  ghost function FrameUbo(st: GpuState, cfg: SurfaceConfig, time: real): (u: CameraUbo)
    reads st, st.camera
  {
    CameraUbo(CameraMatrices(st.camera.State(), cfg.width, cfg.height), Params(cfg.width, cfg.height, time))
  }

  class App {
    var window: Option<nat>
    var state: GpuState?
    var exitRequested: bool
    var redrawRequested: bool
    /** The surface errors printed to standard error, oldest first. */
    var errorLog: seq<SurfaceError>

    /** The objects the handler may read and change. */
    function Repr(): (r: set<object>)
      reads this
    {
      if state == null then {this} else {this, state, state.camera}
    }

    /** The window and the GPU state exist together, and both keep their invariants. */
    ghost predicate Valid()
      reads Repr()
    {
      && (window.Some? <==> state != null)
      && (state != null ==> state.Valid() && CameraInv(state.camera.State()))
    }

    /** Whether an event with this window id reaches the match on its kind. */
    ghost predicate Accepts(id: nat)
      reads this
    {
      window.Some? && state != null && id == window.value
    }

    /** `main`: no window, no surface, no GPU state yet. */
    constructor ()
      ensures Valid()
      ensures window == None && state == null
      ensures !exitRequested && !redrawRequested && errorLog == []
    {
      window := None;
      state := null;
      exitRequested := false;
      redrawRequested := false;
      errorLog := [];
    }

    /** `resumed`: on the first call, create the window and the GPU state for its size. */
    method Resumed(id: nat, innerSize: PhysicalSize)
      requires Valid()
      modifies this
      ensures Valid()
      ensures old(window).None? ==>
        && window == Some(id) && state != null && fresh(state) && fresh(state.camera)
        && state.size == innerSize && state.camera.State() == Init()
        && exitRequested == old(exitRequested) && redrawRequested == old(redrawRequested)
        && errorLog == old(errorLog)
        && state.ubo == CameraUbo(CameraMatrices(Init(), state.config.width, state.config.height),
                                  Params(state.config.width, state.config.height, 0.0))
      ensures old(window).Some? ==> unchanged(this)
    {
      if window.None? {
        state := new GpuState(innerSize);
        window := Some(id);
      }
    }

    /** `window_event`. */
    method HandleWindowEvent(id: nat, ev: WindowEvent, elapsed: real, acquire: Acquire)
      requires Valid()
      modifies Repr()
      ensures Valid()
      ensures window == old(window) && state == old(state)
      ensures !old(Accepts(id)) ==> unchanged(Repr())
      ensures old(Accepts(id)) ==>
        && state.camera.State() == CameraAfter(old(state.camera.State()), ev)
        && exitRequested == (old(exitRequested) || ev.CloseRequested?
                             || (ev.RedrawRequested? && acquire == AcquireFailed(OutOfMemory)))
        && redrawRequested == (old(redrawRequested) || ev.MouseWheel?
                               || (ev.CursorMoved? && CursorRequestsRedraw(old(state.camera.State()))))
        && errorLog == old(errorLog) +
             (if ev.RedrawRequested? && acquire.AcquireFailed? && RecoveryFor(acquire.error) == LogAndSkip
              then [acquire.error] else [])
        && (!(ev.Resized? && ev.size.width != 0 && ev.size.height != 0) && !ev.RedrawRequested? ==> unchanged(state))
        && (ev.Resized? && ev.size.width != 0 && ev.size.height != 0 ==> state.size == ev.size)
        && (!(ev.Resized? && ev.size.width != 0 && ev.size.height != 0) ==> state.size == old(state.size))
        && (ev.Resized? && ev.size.width != 0 && ev.size.height != 0 ==>
              state.ResizedFrom(ev.size, old(state.log), old(state.nextId)))
        && (ev.RedrawRequested? && acquire == FrameAcquired ==>
              && state.ubo == FrameUbo(state, state.config, elapsed)
              && state.log == Then(Then(Then(old(state.log), WriteBuffer(state.cameraBuf, state.ubo)),
                                        Submit(state.FrameCommands())), Present))
        && (ev.RedrawRequested? && acquire.AcquireFailed? && !LostWithArea(acquire, old(state.size)) ==>
              && state.ubo == FrameUbo(state, state.config, elapsed)
              && state.log == Then(old(state.log), WriteBuffer(state.cameraBuf, state.ubo)))
        && (ev.RedrawRequested? && !LostWithArea(acquire, old(state.size)) ==>
              unchanged(state`size, state`config, state`storageTex, state`storageView,
                        state`computeBg, state`renderBg, state`nextId))
        && (ev.RedrawRequested? && LostWithArea(acquire, old(state.size)) ==>
              state.ResizedFrom(old(state.size),
                                Then(old(state.log), WriteBuffer(state.cameraBuf, FrameUbo(state, old(state.config), elapsed))),
                                old(state.nextId)))
    {
      if window.None? || state == null {
        return;
      }
      var st := state;
      if id != window.value {
        return;
      }
      match ev {
        case CloseRequested =>
          exitRequested := true;
        case Resized(newSize) =>
          st.Resize(newSize);
        case MouseInput(s, b) =>
          if b == Left {
            StepPreservesInv(st.camera.State(), Button(s));
            st.camera.OnMouseInput(s);
          }
        case CursorMoved(p) =>
          StepPreservesInv(st.camera.State(), Cursor(p));
          var redraw := st.camera.OnCursorMoved(p);
          if redraw {
            redrawRequested := true;
          }
        case MouseWheel(d) =>
          StepPreservesInv(st.camera.State(), Wheel(d));
          st.camera.OnMouseWheel(d);
          redrawRequested := true;
        case RedrawRequested =>
          var r := st.Render(elapsed, acquire);
          if r.RenderErr? {
            match RecoveryFor(r.error) {
              case ResizeToCurrentSize =>
                st.Resize(st.size);
              case ExitLoop =>
                exitRequested := true;
              case LogAndSkip =>
                errorLog := errorLog + [r.error];
            }
          }
        case OtherEvent =>
      }
    }
  }
}
