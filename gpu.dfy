/**
 * `GpuState` of src/main.rs: the surface configuration, the storage texture the
 * tracer writes and the blit samples, the two bind groups over it, the camera
 * uniform buffer, and the resize and render operations.
 *
 * Every GPU object is an integer id handed out by a counter. Every object
 * creation, surface configuration, buffer write, submission and present is
 * recorded, in order, in a log of `DeviceOp`s; acquiring the surface image, its
 * view and the command encoder are not. The
 * resource invariant is checked on that log: every submitted command buffer
 * binds the texture view that was created most recently before it, so no
 * bind group used by a frame refers to a texture that a resize has replaced.
 */
module Gpu {
  import opened Optional
  import opened Camera
  import opened Frame

  /** The surface configuration's size; usage, format, present mode and alpha mode never change. */
  datatype SurfaceConfig = SurfaceConfig(width: U32, height: U32)

  /** The Rgba8Unorm storage texture and its default view. */
  datatype Texture = Texture(id: nat, width: U32, height: U32)
  datatype TextureView = TextureView(id: nat, texture: nat)

  /** `compute_bg`: binding 0 the storage view, binding 1 the camera buffer. */
  datatype ComputeBindGroup = ComputeBindGroup(id: nat, layout: nat, view: nat, buffer: nat)
  /** `render_bg`: binding 0 the storage view, binding 1 the linear sampler. */
  datatype RenderBindGroup = RenderBindGroup(id: nat, layout: nat, view: nat, sampler: nat)

  /** The other objects created once at start-up and never replaced. */
  datatype ObjectKind =
    | SamplerObject | ShaderModuleObject | BindGroupLayoutObject
    | PipelineLayoutObject | ComputePipelineObject | RenderPipelineObject

  /** Contents of the camera uniform buffer (`CameraUbo`). */
  datatype CameraUbo = CameraUbo(mats: CameraMats, params: seq<real>)

  datatype Color = Black

  /** The compute pass: pipeline, bind group and workgroup grid. */
  datatype ComputePass = ComputePass(pipeline: nat, bindGroup: ComputeBindGroup, workgroups: Workgroups)
  /** The blit pass: pipeline, bind group, clear colour, vertex and instance counts. */
  datatype RenderPass = RenderPass(pipeline: nat, bindGroup: RenderBindGroup, clear: Color, vertices: nat, instances: nat)
  /** One encoded command buffer: the compute pass, then the blit pass. */
  datatype Commands = Commands(compute: ComputePass, blit: RenderPass)

  /** A call into the device, the queue or the surface. */
  datatype DeviceOp =
    | ConfigureSurface(config: SurfaceConfig)
    | CreateTexture(texture: Texture)
    | CreateView(view: TextureView)
    | CreateObject(id: nat, kind: ObjectKind)
    | CreateBuffer(bufferId: nat, initial: CameraUbo)
    | CreateComputeBindGroup(computeGroup: ComputeBindGroup)
    | CreateRenderBindGroup(renderGroup: RenderBindGroup)
    | WriteBuffer(buffer: nat, contents: CameraUbo)
    | Submit(commands: Commands)
    | Present

  /** `wgpu::SurfaceError`. */
  datatype SurfaceError = Timeout | Outdated | Lost | OutOfMemory | Other

  /** What `surface.get_current_texture()` gives back when the frame is rendered. */
  datatype Acquire = FrameAcquired | AcquireFailed(error: SurfaceError)

  /** `Result<(), SurfaceError>` of `render`. */
  datatype RenderResult = RenderOk | RenderErr(error: SurfaceError)

  /** The device operations issued so far, oldest first: `Then(h, op)` is h followed by op. */
  datatype History = Start | Then(before: History, op: DeviceOp)

  /** The id of the texture view created last in the history, if any. */
  function LatestView(h: History): (v: Option<nat>) {
    match h
    case Start => None
    case Then(before, op) => if op.CreateView? then Some(op.view.id) else LatestView(before)
  }

  /** The id of the object an operation creates. */
  function CreatedBy(op: DeviceOp): (ids: set<nat>) {
    match op
    case CreateTexture(t) => {t.id}
    case CreateView(v) => {v.id}
    case CreateObject(id, _) => {id}
    case CreateBuffer(id, _) => {id}
    case CreateComputeBindGroup(g) => {g.id}
    case CreateRenderBindGroup(g) => {g.id}
    case _ => {}
  }

  /** The ids of all objects created in the history. */
  function CreatedIds(h: History): (ids: set<nat>) {
    match h
    case Start => {}
    case Then(before, op) => CreatedIds(before) + CreatedBy(op)
  }

  /** One more than the largest id an operation creates (0 if it creates nothing). */
  function IdBoundOf(op: DeviceOp): (b: nat) {
    match op
    case CreateTexture(t) => t.id + 1
    case CreateView(v) => v.id + 1
    case CreateObject(id, _) => id + 1
    case CreateBuffer(id, _) => id + 1
    case CreateComputeBindGroup(g) => g.id + 1
    case CreateRenderBindGroup(g) => g.id + 1
    case _ => 0
  }

  /** One more than the largest id created in the history. */
  function IdBound(h: History): (b: nat) {
    match h
    case Start => 0
    case Then(before, op) =>
      var prev := IdBound(before);
      if prev < IdBoundOf(op) then IdBoundOf(op) else prev
  }

  /** Every id created in the history is below its bound: an id at or above it is fresh. */
  lemma {:induction false} CreatedBelowBound(h: History, id: nat)
    requires id in CreatedIds(h)
    ensures id < IdBound(h)
  {
    if id in CreatedIds(h.before) {
      CreatedBelowBound(h.before, id);
    }
  }

  /** The latest view of a history is one the history created, so it lies below the history's bound. */
  lemma {:induction false} LatestViewCreated(h: History)
    requires LatestView(h).Some?
    ensures LatestView(h).value in CreatedIds(h)
    ensures LatestView(h).value < IdBound(h)
  {
    if !h.op.CreateView? {
      LatestViewCreated(h.before);
    }
    CreatedBelowBound(h, LatestView(h).value);
  }

  /** Both passes of a command buffer bind the given view. */
  ghost predicate BindsView(cmds: Commands, view: Option<nat>) {
    && view.Some?
    && cmds.compute.bindGroup.view == view.value
    && cmds.blit.bindGroup.view == view.value
  }

  /** Every submission in the history binds the view that was current when it was submitted. */
  ghost predicate NoStaleSubmission(h: History) {
    match h
    case Start => true
    case Then(before, op) =>
      NoStaleSubmission(before) && (op.Submit? ==> BindsView(op.commands, LatestView(before)))
  }

  /**
   * The history agrees with the held objects: its latest view is `view`, no
   * submission in it is stale, and every id it created is below `bound`.
   */
  ghost predicate HistoryInv(h: History, view: nat, bound: nat) {
    LatestView(h) == Some(view) && NoStaleSubmission(h) && IdBound(h) <= bound
  }

  /** g is h or an earlier state of it. */
  ghost predicate IsPrefix(g: History, h: History) {
    g == h || (h.Then? && IsPrefix(g, h.before))
  }

  /** Read at any point of the history: a submission there bound the view current there. */
  lemma {:induction false} NoStaleAt(h: History, before: History, cmds: Commands)
    requires NoStaleSubmission(h)
    requires IsPrefix(Then(before, Submit(cmds)), h)
    ensures BindsView(cmds, LatestView(before))
  {
    if h != Then(before, Submit(cmds)) {
      NoStaleAt(h.before, before, cmds);
    }
  }

  /**
   * A frame that skipped rebuilding the bind groups after a new view was created
   * would be stale: the invariant tells the two situations apart.
   */
  lemma StaleBindingDetected(h: History, oldView: TextureView, newView: TextureView, cmds: Commands)
    requires oldView.id != newView.id
    requires BindsView(cmds, Some(oldView.id))
    ensures !NoStaleSubmission(Then(Then(h, CreateView(newView)), Submit(cmds)))
  {
  }

  class GpuState {
    var config: SurfaceConfig
    var size: PhysicalSize

    var storageTex: Texture
    var storageView: TextureView
    const sampler: nat

    const camera: CameraCtrl
    const cameraBuf: nat
    /** What the camera buffer holds, as last written. */
    var ubo: CameraUbo

    const computeBgl: nat
    var computeBg: ComputeBindGroup
    const computePipeline: nat

    const renderBgl: nat
    var renderBg: RenderBindGroup
    const renderPipeline: nat

    /** The device operations issued so far, oldest first. */
    var log: History
    /** The next unused object id. */
    var nextId: nat

    /**
     * The surface has the window's size (at least 1x1), the storage texture has
     * the surface's size, both bind groups bind the current view with the
     * unchanged buffer and sampler, and the log agrees with the held objects.
     */
    ghost predicate ResourcesValid()
      reads this
    {
      && config.width == Max1(size.width) && config.height == Max1(size.height)
      && storageTex.width == config.width && storageTex.height == config.height
      && storageView.texture == storageTex.id
      && storageTex.id < nextId && storageView.id < nextId
      && computeBg == ComputeBindGroup(computeBg.id, computeBgl, storageView.id, cameraBuf)
      && renderBg == RenderBindGroup(renderBg.id, renderBgl, storageView.id, sampler)
      && HistoryInv(log, storageView.id, nextId)
    }

    /** The camera block carries the surface's size and the matching aspect. */
    ghost predicate UboInSync()
      reads this
    {
      && |ubo.params| == 4
      && ubo.params[0] == config.width as real
      && ubo.params[1] == config.height as real
      && ubo.params[3] == 0.0
      && ubo.mats.projInv.aspect == Aspect(config.width, config.height)
    }

    ghost predicate Valid()
      reads this
    {
      ResourcesValid() && UboInSync()
    }

    /**
     * `GpuState::new` once the adapter and device exist: the surface is
     * configured to the window size raised to at least 1, then the storage
     * texture, sampler, shaders, camera buffer, pipelines and bind groups are
     * created in the source's order.
     */
    constructor (windowSize: PhysicalSize)
      ensures Valid() && fresh(camera)
      ensures size == windowSize
      ensures config == SurfaceConfig(Max1(windowSize.width), Max1(windowSize.height))
      ensures camera.State() == Init()
      ensures ubo == CameraUbo(CameraMatrices(Init(), config.width, config.height), Params(config.width, config.height, 0.0))
    {
      var cfg := SurfaceConfig(Max1(windowSize.width), Max1(windowSize.height));
      var tex := Texture(0, cfg.width, cfg.height);
      var view := TextureView(1, tex.id);
      var cam := new CameraCtrl();
      var contents := CameraUbo(CameraMatrices(cam.State(), cfg.width, cfg.height), Params(cfg.width, cfg.height, 0.0));
      var cbg := ComputeBindGroup(9, 6, view.id, 5);
      var rbg := RenderBindGroup(13, 10, view.id, 2);
      var ops := Start;
      ops := Then(ops, ConfigureSurface(cfg));
      assert IdBound(ops) == 0;
      ops := Then(ops, CreateTexture(tex));
      assert IdBound(ops) == 1;
      assert NoStaleSubmission(ops);
      ops := Then(ops, CreateView(view));
      assert HistoryInv(ops, 1, 2);
      ops := Then(ops, CreateObject(2, SamplerObject));
      assert HistoryInv(ops, 1, 3);
      ops := Then(ops, CreateObject(3, ShaderModuleObject));
      assert HistoryInv(ops, 1, 4);
      ops := Then(ops, CreateObject(4, ShaderModuleObject));
      assert HistoryInv(ops, 1, 5);
      ops := Then(ops, CreateBuffer(5, contents));
      assert HistoryInv(ops, 1, 6);
      ops := Then(ops, CreateObject(6, BindGroupLayoutObject));
      assert HistoryInv(ops, 1, 7);
      ops := Then(ops, CreateObject(7, PipelineLayoutObject));
      assert HistoryInv(ops, 1, 8);
      ops := Then(ops, CreateObject(8, ComputePipelineObject));
      assert HistoryInv(ops, 1, 9);
      ops := Then(ops, CreateComputeBindGroup(cbg));
      assert HistoryInv(ops, 1, 10);
      ops := Then(ops, CreateObject(10, BindGroupLayoutObject));
      assert HistoryInv(ops, 1, 11);
      ops := Then(ops, CreateObject(11, PipelineLayoutObject));
      assert HistoryInv(ops, 1, 12);
      ops := Then(ops, CreateObject(12, RenderPipelineObject));
      assert HistoryInv(ops, 1, 13);
      ops := Then(ops, CreateRenderBindGroup(rbg));
      assert HistoryInv(ops, 1, 14);

      config := cfg;
      size := windowSize;
      storageTex := tex;
      storageView := view;
      sampler := 2;
      camera := cam;
      cameraBuf := 5;
      ubo := contents;
      computeBgl := 6;
      computeBg := cbg;
      computePipeline := 8;
      renderBgl := 10;
      renderBg := rbg;
      renderPipeline := 12;
      log := ops;
      nextId := 14;
    }

    /** Hands out a fresh object id. */
    method Allocate() returns (id: nat)
      modifies this`nextId
      ensures id == old(nextId) && nextId == id + 1
    {
      id := nextId;
      nextId := nextId + 1;
    }

    /** `create_storage_texture`: a new texture of the given size and a view of it. */
    method CreateStorageTexture(width: U32, height: U32) returns (tex: Texture, view: TextureView)
      modifies this`nextId, this`log
      ensures tex == Texture(old(nextId), width, height)
      ensures view == TextureView(old(nextId) + 1, tex.id)
      ensures nextId == old(nextId) + 2
      ensures log == Then(Then(old(log), CreateTexture(tex)), CreateView(view))
      ensures LatestView(log) == Some(view.id)
      ensures IdBound(log) == (if IdBound(old(log)) < view.id + 1 then view.id + 1 else IdBound(old(log)))
      ensures NoStaleSubmission(old(log)) ==> NoStaleSubmission(log)
    {
      var id := Allocate();
      tex := Texture(id, width, height);
      log := Then(log, CreateTexture(tex));
      id := Allocate();
      view := TextureView(id, tex.id);
      log := Then(log, CreateView(view));
    }

    /**
     * The state a non-zero resize leaves behind, from the history `before` and the
     * counter value `firstId` it started with: the new size and configuration, a
     * texture and view of that size with fresh ids, both bind groups rebuilt over
     * the new view, the camera block refreshed with time 0, and the six device
     * operations in the order of `resize`.
     */
    ghost predicate ResizedFrom(newSize: PhysicalSize, before: History, firstId: nat)
      reads this, camera
    {
      && size == newSize
      && config == SurfaceConfig(newSize.width, newSize.height)
      && storageTex == Texture(firstId, newSize.width, newSize.height)
      && storageView == TextureView(firstId + 1, storageTex.id)
      && computeBg == ComputeBindGroup(firstId + 2, computeBgl, storageView.id, cameraBuf)
      && renderBg == RenderBindGroup(firstId + 3, renderBgl, storageView.id, sampler)
      && IdBound(before) <= storageTex.id && storageTex.id < storageView.id < computeBg.id < renderBg.id
      && ubo == CameraUbo(CameraMatrices(camera.State(), newSize.width, newSize.height),
                          Params(newSize.width, newSize.height, 0.0))
      && log == Then(Then(Then(Then(Then(Then(before,
                  ConfigureSurface(config)),
                  CreateTexture(storageTex)),
                  CreateView(storageView)),
                  CreateComputeBindGroup(computeBg)),
                  CreateRenderBindGroup(renderBg)),
                  WriteBuffer(cameraBuf, ubo))
      && nextId == firstId + 4
    }

    /**
     * `GpuState::resize`. A zero width or height changes nothing. Otherwise the
     * size and surface configuration take the new size, the surface is
     * reconfigured, a new storage texture and view are created, both bind groups
     * are rebuilt over the new view with the unchanged buffer and sampler, and
     * the camera buffer is rewritten with time 0.
     */
    method Resize(newSize: PhysicalSize)
      requires Valid()
      modifies this
      ensures Valid()
      ensures newSize.width == 0 || newSize.height == 0 ==> unchanged(this)
      ensures newSize.width != 0 && newSize.height != 0 ==> ResizedFrom(newSize, old(log), old(nextId))
      ensures newSize.width != 0 && newSize.height != 0 ==>
        old(storageTex.id) < storageTex.id && old(storageView.id) < storageView.id
    {
      if newSize.width == 0 || newSize.height == 0 {
        return;
      }
      Reconfigure(newSize);
      var tex, view := CreateStorageTexture(config.width, config.height);
      storageTex := tex;
      storageView := view;
      RebuildBindGroups();
      assert ResourcesValid();
      UpdateCameraBuffer(0.0);
    }

    /** Resize step 1: the size and surface configuration take the new size, and the surface is reconfigured. */
    method Reconfigure(newSize: PhysicalSize)
      modifies this`size, this`config, this`log
      ensures size == newSize && config == SurfaceConfig(newSize.width, newSize.height)
      ensures log == Then(old(log), ConfigureSurface(config))
      ensures LatestView(log) == LatestView(old(log)) && IdBound(log) == IdBound(old(log))
      ensures NoStaleSubmission(log) == NoStaleSubmission(old(log))
    {
      size := newSize;
      config := config.(width := newSize.width);
      config := config.(height := newSize.height);
      log := Then(log, ConfigureSurface(config));
    }

    /** Resize step 3: both bind groups are rebuilt over the current view, buffer and sampler. */
    method RebuildBindGroups()
      modifies this`computeBg, this`renderBg, this`nextId, this`log
      ensures computeBg == ComputeBindGroup(old(nextId), computeBgl, storageView.id, cameraBuf)
      ensures renderBg == RenderBindGroup(old(nextId) + 1, renderBgl, storageView.id, sampler)
      ensures nextId == old(nextId) + 2
      ensures log == Then(Then(old(log), CreateComputeBindGroup(computeBg)), CreateRenderBindGroup(renderBg))
      ensures LatestView(log) == LatestView(old(log))
      ensures NoStaleSubmission(log) == NoStaleSubmission(old(log))
      ensures IdBound(old(log)) <= old(nextId) ==> IdBound(log) <= nextId
    {
      var id := Allocate();
      computeBg := ComputeBindGroup(id, computeBgl, storageView.id, cameraBuf);
      log := Then(log, CreateComputeBindGroup(computeBg));
      id := Allocate();
      renderBg := RenderBindGroup(id, renderBgl, storageView.id, sampler);
      log := Then(log, CreateRenderBindGroup(renderBg));
    }

    /** `update_camera_buffer`: the camera block is derived from the controller and the surface size. */
    method UpdateCameraBuffer(time: real)
      requires ResourcesValid()
      modifies this`ubo, this`log
      ensures Valid()
      ensures ubo == CameraUbo(CameraMatrices(camera.State(), config.width, config.height),
                               Params(config.width, config.height, time))
      ensures log == Then(old(log), WriteBuffer(cameraBuf, ubo))
    {
      var mats := CameraMatrices(camera.State(), config.width, config.height);
      ubo := CameraUbo(mats, Params(config.width, config.height, time));
      log := Then(log, WriteBuffer(cameraBuf, ubo));
    }

    /**
     * The command buffer `render` encodes: the compute pass over the current
     * bind group, dispatched over the window size in 8x8 tiles, then the blit
     * pass that clears to black and draws one three-vertex triangle.
     */
    function FrameCommands(): (c: Commands)
      reads this
      requires ResourcesValid()
      ensures BindsView(c, Some(storageView.id))
      ensures c.compute.bindGroup.buffer == cameraBuf && c.blit.bindGroup.sampler == sampler
      ensures c.compute.pipeline == computePipeline && c.blit.pipeline == renderPipeline
      ensures c.compute.workgroups.z == 1
      ensures 0 < size.width <= MaxU32 - 7 ==> storageTex.width <= TileSize * c.compute.workgroups.x
      ensures 0 < size.height <= MaxU32 - 7 ==> storageTex.height <= TileSize * c.compute.workgroups.y
      ensures size.width == 0 ==> c.compute.workgroups.x == 0
      ensures c.blit.clear == Black && c.blit.vertices == 3 && c.blit.instances == 1
    {
      Commands(ComputePass(computePipeline, computeBg, Dispatch(size)),
               RenderPass(renderPipeline, renderBg, Black, 3, 1))
    }

    /**
     * `GpuState::render`: the camera buffer is refreshed first, then the next
     * surface image is acquired; on failure the error is returned and nothing is
     * submitted, otherwise the frame's commands are submitted and presented.
     */
    method Render(time: real, acquire: Acquire) returns (r: RenderResult)
      requires Valid()
      modifies this`ubo, this`log
      ensures Valid()
      ensures ubo == CameraUbo(CameraMatrices(camera.State(), config.width, config.height),
                               Params(config.width, config.height, time))
      ensures acquire.AcquireFailed? ==>
        r == RenderErr(acquire.error) && log == Then(old(log), WriteBuffer(cameraBuf, ubo))
      ensures acquire == FrameAcquired ==>
        r == RenderOk && log == Then(Then(Then(old(log), WriteBuffer(cameraBuf, ubo)), Submit(FrameCommands())), Present)
    {
      UpdateCameraBuffer(time);
      if acquire.AcquireFailed? {
        return RenderErr(acquire.error);
      }
      var wgX := WorkgroupCount(size.width);
      var wgY := WorkgroupCount(size.height);
      var cpass := ComputePass(computePipeline, computeBg, Workgroups(wgX, wgY, 1));
      var rpass := RenderPass(renderPipeline, renderBg, Black, 3, 1);
      var cmds := Commands(cpass, rpass);
      log := Then(log, Submit(cmds));
      log := Then(log, Present);
      r := RenderOk;
    }
  }
}
