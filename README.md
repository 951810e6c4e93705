# Orbit camera, resize protocol and frame derivations of a wgpu viewer

This project is a Dafny model of the host logic in `src/main.rs` of a small wgpu/winit
program. The program runs a compute shader that traces a black hole into a storage
texture, then blits that texture to the window. The model covers four parts.

- **Orbit-camera controller** (`camera.dfy`, module `Camera`). `CameraCtrl` is a class
  whose fields (yaw, pitch, radius, field of view, drag flag, last cursor sample) are
  updated in place by left-button, cursor-move and wheel events. Each method is proved
  against a pure transition function (`AfterMouseInput`, `AfterCursorMoved`,
  `AfterMouseWheel`). Lemmas over event sequences (`Run`) prove the controller invariant
  and the usage scenarios listed below.
- **Per-frame derivations** (`frame.dfy`, module `Frame`). These are the `max(1)` guard on
  surface sizes, the compute dispatch grid `(W+7)/8` in `u32`, the guarded aspect ratio,
  the `params` vector of the camera block, and the inputs to the two inverse camera
  matrices.
- **GPU state and resize protocol** (`gpu.dfy`, module `Gpu`). `GpuState` is a class. Each
  GPU object is an integer id taken from a counter. Every object creation, surface
  configuration, buffer write, submission and present is appended to a `History` of
  `DeviceOp`s. Acquiring the surface image, creating its view and creating the command
  encoder are not recorded. The class invariant says:
  - both bind groups bind the current storage view;
  - the compute bind group binds the unchanged camera buffer;
  - the render bind group binds the unchanged sampler;
  - the texture has the surface's size;
  - every id in the history, and the ids of the held texture and view, are below the counter;
  - every command buffer ever submitted bound the texture view that was current when it
    was submitted.

  Because of the last point, "no bind group references a stale texture" is checked for the
  whole run, not only for the current moment.
- **Event dispatch** (`app.dfy`, module `App`). This is `App::window_event`: a
  window-id filter, camera input routing, resize, redraw, and the three-way recovery
  from surface errors. Its contract states the full resize (`GpuState.ResizedFrom`) for a
  non-zero `Resized` event and for a lost surface, and the frame submitted by a successful
  redraw. It also covers `resumed`, which builds the GPU state once.

The source has four details that the model keeps as written:
- A left-button press keeps the previous cursor sample; only a release clears it
  (src/main.rs:501-502). The
  model proves that in every reachable state the controller has no sample while idle
  (`CameraInv`), so a press from idle always starts a drag without a sample
  (`PressFromIdleStartsFresh`).
- Pitch is clamped to the *closed* interval [-0.995·π/2, 0.995·π/2] (src/main.rs:512-513).
- At start-up the surface is configured to `size.max(1)`, but `size` keeps the raw window
  size (src/main.rs:81, 115-116, 379-380). So the invariant is `config == max(size, 1)`, not `config == size`. The dispatch
  grid is computed from `size`. For a zero-sized initial window it is therefore 0
  workgroups wide, even though the texture is 1 pixel wide (`FrameCommands` states both
  cases).
- `(W + 7) / 8` (src/main.rs:379-380) is modelled as `u32` arithmetic that wraps, as in a
  release build. The
  ceiling property is proved for `W <= 2^32 - 8`. Above that the count wraps to 0.

## Model

| member | source | states |
|---|---|---|
| Camera.Clamp | src/main.rs:513 | `f32::clamp`. It needs `lo <= hi`, which is when the source does not panic. The result lies in [lo, hi]. It equals x when x is inside, and the nearer bound otherwise. |
| Camera.ClampIsNearest | src/main.rs:524-525 | The clamped value is the point of [lo, hi] nearest to x. |
| Camera.Init | src/main.rs:31-40 | `CameraCtrl::new` gives yaw 0.6, pitch 0.3, radius 4, fov 60°. The controller is idle with no cursor sample, and it satisfies the controller invariant. |
| Camera.AfterMouseInput | src/main.rs:500-503 | `dragging` becomes `state == Pressed`. A release sets `last_cursor` to None. A press keeps `last_cursor`. No other field changes. |
| Camera.AfterCursorMoved | src/main.rs:504-518 | When not dragging, every field is untouched. When dragging with no sample, only the sample is recorded. When dragging with a previous sample, yaw decreases by dx·0.005 and pitch becomes clamp(pitch − dy·0.005, ±0.995·π/2). The sample becomes the new position in both dragging cases. |
| Camera.CursorRequestsRedraw | src/main.rs:507-515 | A cursor move asks for a redraw only while dragging with a previous sample, and then yaw moves by the x delta times 0.005. Without a redraw the move leaves yaw and pitch as they were. |
| Camera.ScrollAmount | src/main.rs:520-523 | A line delta gives its y lines. A pixel delta gives y/50 lines. |
| Camera.ZoomFactor | src/main.rs:524 | The factor lies in [0.2, 5]. It is exactly 1 − 0.1·scroll for scrolls from −40 to 8 lines, 0.2 above that range and 5 below it. |
| Camera.AfterMouseWheel | src/main.rs:519-527 | The radius lies in [1, 50]. It is radius·factor when that is in range, 50 when above, 1 when below. Every other field is unchanged. |
| Camera.Step | src/main.rs:500-527 | Each input touches only its own fields. The button sets the drag flag and leaves the angles and radius. The cursor leaves the radius and the drag flag. The wheel changes only the radius. No input changes the field of view. |
| Camera.Run | src/main.rs:496-527 | Inputs are handled in order, and the field of view never changes. |
| Camera.StepPreservesInv | src/main.rs:500-527 | Every input keeps pitch within the limit, radius within [1, 50], and no cursor sample while idle. |
| Camera.RunPreservesInv | src/main.rs:500-527 | The invariant holds after any sequence of inputs. |
| Camera.RunAppend | src/main.rs:496-539 | Handling a + b equals handling a, then b. |
| Camera.PressFromIdleStartsFresh | src/main.rs:500-503 | From any reachable idle state, a press starts a drag with no cursor sample. |
| Camera.IdleIgnoresCursor | src/main.rs:505 | While idle, any sequence of cursor moves changes nothing. |
| Camera.PressDragReleaseThenMove | src/main.rs:500-518 | After press, two moves and release, the controller is idle with no sample, and further moves change nothing. |
| Camera.DragScenario | src/main.rs:505-516 | From the initial state, a drag of +100 px along x gives yaw 0.1 and leaves pitch at 0.3. |
| Camera.ZoomInScenario | src/main.rs:520-525 | One line of scroll gives factor 0.9, so radius 4 becomes 3.6. |
| Camera.ZoomOutStaysAtMax | src/main.rs:524-525 | At radius 50, any number of zoom-outs with factor ≥ 1 leave the state unchanged. |
| Camera.TwentyZoomOutsSaturate | src/main.rs:524-525 | From the initial state, twenty scrolls of −5 lines (factor 1.5) end at radius 50. |
| Camera.CameraCtrl.constructor | src/main.rs:31-40 | The fields hold `Init()`. |
| Camera.CameraCtrl.OnMouseInput | src/main.rs:500-503 | The new state is `AfterMouseInput` of the old state. |
| Camera.CameraCtrl.OnCursorMoved | src/main.rs:504-518 | The new state is `AfterCursorMoved` of the old state. A redraw is requested exactly when dragging with a previous sample. |
| Camera.CameraCtrl.OnMouseWheel | src/main.rs:519-526 | The new state is `AfterMouseWheel` of the old state. |
| Frame.Max1 | src/main.rs:115-116 | `n.max(1)`: the result is at least 1 and at least n, and it is one of them. |
| Frame.WrappingAdd | src/main.rs:379-380 | `u32` addition modulo 2^32. |
| Frame.TileCountUnique | src/main.rs:379-381 | A tile count for an extent is unique, so `IsTileCount` defines ceil(n/8). |
| Frame.WorkgroupCount | src/main.rs:379-380 | For n ≤ 2^32 − 8, (n+7)/8 is the tile count: 8·(wg−1) < n ≤ 8·wg. It is 0 exactly when n is 0. Above that bound it wraps to 0. |
| Frame.Dispatch | src/main.rs:379-381 | z is 1, and x and y are the tile counts of width and height. |
| Frame.DispatchExamples | src/main.rs:379-381 | (1,1) gives (1,1,1), (8,8) gives (1,1,1), and (9,8) gives (2,1,1). |
| Frame.Params | src/main.rs:354 | The `params` vector has four entries: width, height, the time, and 0 padding. |
| Frame.Aspect | src/main.rs:443 | The aspect is positive for every size, even zero. It equals width/height for non-zero sizes. |
| Frame.CameraMatrices | src/main.rs:438-447 | The view follows yaw, pitch and radius. The projection uses fov_y and the guarded aspect, with 0 < near < far. |
| Gpu.CreatedBelowBound | src/main.rs:307-343 | Every id created in the history is below its bound, so an id taken at the counter is fresh. |
| Gpu.LatestViewCreated | src/main.rs:307-314 | The latest view of a history is one the history created, so its id is below the history's id bound. |
| Gpu.NoStaleAt | src/main.rs:378-406 | At any point in the history, a submitted command buffer bound the view current at that point. |
| Gpu.StaleBindingDetected | src/main.rs:313-330 | Submitting with a bind group over the old view after a new view was created breaks the invariant. |
| Gpu.GpuState.constructor | src/main.rs:80-296 | `size` is the raw window size, and the surface is configured to `size.max(1)`. The camera starts from `CameraCtrl::new`. The camera buffer holds `[w, h, 0, 0]` for the configured size, and the invariant holds. |
| Gpu.GpuState.CreateStorageTexture | src/main.rs:412-436 | A new texture of the given size, and a view of it, with fresh ids. The new view is the latest one. |
| Gpu.GpuState.Resize | src/main.rs:298-346 | A zero width or height changes nothing. Otherwise `ResizedFrom` holds for the old history and counter: size and config become the new size; the surface is reconfigured; a texture and view with fresh ids are created; both bind groups are rebuilt over the new view with the old buffer and sampler; the camera params become `[w, h, 0, 0]`. The six device calls appear in that order. The new texture and view have larger ids than the ones they replace, so they are a new generation. |
| Gpu.GpuState.Reconfigure | src/main.rs:302-305 | Size and config take the new size, and the surface is reconfigured. The history invariant is unaffected. |
| Gpu.GpuState.RebuildBindGroups | src/main.rs:316-343 | `compute_bg` binds the current view and the camera buffer. `render_bg` binds the current view and the sampler. Both get fresh ids. |
| Gpu.GpuState.UpdateCameraBuffer | src/main.rs:348-358 | The buffer is overwritten with the matrices for the current camera and surface size, and with params `[width, height, time, 0]`. |
| Gpu.GpuState.FrameCommands | src/main.rs:371-404 | The compute pass binds the current view and the camera buffer. The blit pass binds the current view and the sampler. The grid has z = 1 and covers the texture for non-zero sizes. The blit clears to black and draws 3 vertices and 1 instance. |
| Gpu.GpuState.Render | src/main.rs:360-409 | The camera buffer is refreshed before the surface image is acquired. On failure the error is returned and nothing is submitted. Otherwise one command buffer (compute, then blit) is submitted and then presented. |
| App.RecoveryFor | src/main.rs:530-535 | `Lost` leads to a resize at the current size, `OutOfMemory` to an exit, and any other error to log-and-skip. Each case holds if and only if its condition holds. |
| App.CameraInputOf | src/main.rs:500-527 | Only left-button, cursor and wheel events reach the controller, each as its own input. |
| App.CameraAfter | src/main.rs:496-539 | The controller after an event keeps the invariant. Events the controller ignores leave it unchanged. |
| App.App.constructor | src/main.rs:552-558 | The app starts with no window and no GPU state. |
| App.App.Resumed | src/main.rs:459-483 | The first call creates the window and the GPU state for the window's size, with the camera at `Init()` and the camera block holding `[w, h, 0, 0]` for the configured size. The exit flag, the redraw flag and the error log are left alone. Later calls change nothing. |
| App.App.HandleWindowEvent | src/main.rs:485-541 | Events before initialisation, or for another window, change nothing. Otherwise the controller state is `CameraAfter`. Exit happens on close or out-of-memory. A redraw is requested by a wheel event or a turning cursor move. Other surface errors are logged. Input events and a `Resized` event with a zero width or height leave the GPU state untouched. A non-zero `Resized` runs the whole resize (`ResizedFrom`) from the old history and counter. A redraw writes the camera block at the elapsed time. On success it appends that write, the frame's command buffer and the present to the history. On `Lost` with a non-zero size, the write is followed by the whole resize to the current size. On any other failure only the write is appended, and the texture, view, bind groups and size stay as they were. |

## Left out

- Adapter and device requests and their failure (`expect` aborts the process): the GPU state constructor assumes they succeed.
- Window and surface creation failure in `resumed` (`expect("window")` at src/main.rs:464, `expect("surface")` at 471): `App.App.Resumed` assumes both succeed; a failure aborts the process, which has no state to model.
- The acquired surface image, its view and the command encoder (src/main.rs:363-368) are not in the device-operation history. The blit's colour target is implicit in `RenderPass`, so `LatestView` always names the storage view. Surface format selection (first sRGB format, else the first one), alpha mode and present mode are not represented, because they are fixed properties of the configuration that no logic here depends on.
- Shader modules, pipeline layouts, pipelines, bind group layouts and the sampler appear only as ids created at start-up; their descriptors are wgpu plumbing.
- The matrix and trigonometry maths (`eye_target_up`, `look_at_rh`, `perspective_rh`, `inverse`): the camera block records the inputs the two inverse matrices are built from (`ViewPose`, `Projection`), not the matrices, because that is floating-point work inside glam.
- The `CameraUbo` byte layout and its `bytemuck` cast (src/main.rs:14-20, 357): serialisation by an external crate.
- f32 rounding, NaN and infinities: all angles, radii and positions are reals, and π is a decimal constant.
- `Frame.WorkgroupCount`: a debug build panics on the `u32` overflow of `W + 7`, where the model wraps as a release build does.
- Time, the event loop and its side effects: elapsed seconds (src/main.rs:529) and the outcome of acquiring a surface image are parameters, `request_redraw` and `elwt.exit()` are flags, `eprintln!` is a log of errors, and `about_to_wait` (src/main.rs:543-547) is not modelled.
- `pollster::block_on` around initialisation and the `Box::leak` of the window (src/main.rs:466-479): runtime and ownership mechanics with no observable logic.
- GPU execution itself: the model records what is submitted and in what order, not what the shaders compute.
