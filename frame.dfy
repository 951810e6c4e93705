/**
 * The per-frame integer and parameter derivations of src/main.rs: the
 * `max(1)` guard on surface dimensions, the compute-dispatch grid, the aspect
 * ratio, the `params` vector of the camera block, and the inputs from which the
 * two inverse camera matrices are built.
 */
module Frame {
  import opened Camera

  const MaxU32: int := 0xFFFF_FFFF

  /** `u32`. */
  type U32 = x: int | 0 <= x <= MaxU32

  /** A window size in physical pixels (`PhysicalSize<u32>`). */
  datatype PhysicalSize = PhysicalSize(width: U32, height: U32)

  /** Side of the square thread tile the tracer program runs per workgroup. */
  const TileSize: nat := 8

  /** `n.max(1)`: the least value that is at least n and at least 1. */
  function Max1(n: U32): (m: U32)
    ensures 1 <= m && n <= m
    ensures m == n || m == 1
  {
    if n >= 1 then n else 1
  }

  /** `u32` addition as a release build performs it: modulo 2^32. */
  function WrappingAdd(a: U32, b: U32): (s: U32)
    ensures a + b <= MaxU32 ==> s == a + b
    ensures a + b > MaxU32 ==> s == a + b - (MaxU32 + 1)
  {
    (a + b) % (MaxU32 + 1)
  }

  /** k tiles of side 8 cover n pixels, and k - 1 tiles would not: k is ceil(n / 8). */
  ghost predicate IsTileCount(k: int, n: int) {
    TileSize * (k - 1) < n <= TileSize * k
  }

  /** There is only one tile count for a given extent. */
  lemma TileCountUnique(k1: int, k2: int, n: int)
    requires IsTileCount(k1, n) && IsTileCount(k2, n)
    ensures k1 == k2
  {
  }

  /** `(n + 7) / 8` in `u32`: the number of 8-wide workgroups along one axis. */
  function WorkgroupCount(n: U32): (wg: U32)
    ensures n <= MaxU32 - 7 ==> IsTileCount(wg, n)
    ensures n <= MaxU32 - 7 ==> (wg == 0 <==> n == 0)
    ensures n > MaxU32 - 7 ==> wg == 0
  {
    WrappingAdd(n, 7) / TileSize
  }

  datatype Workgroups = Workgroups(x: U32, y: U32, z: U32)

  /** The grid dispatched over an image of the given size: one layer, 8x8 tiles. */
  function Dispatch(size: PhysicalSize): (wg: Workgroups)
    ensures wg.z == 1
    ensures size.width <= MaxU32 - 7 ==> IsTileCount(wg.x, size.width)
    ensures size.height <= MaxU32 - 7 ==> IsTileCount(wg.y, size.height)
  {
    Workgroups(WorkgroupCount(size.width), WorkgroupCount(size.height), 1)
  }

  lemma DispatchExamples()
    ensures Dispatch(PhysicalSize(1, 1)) == Workgroups(1, 1, 1)
    ensures Dispatch(PhysicalSize(8, 8)) == Workgroups(1, 1, 1)
    ensures Dispatch(PhysicalSize(9, 8)) == Workgroups(2, 1, 1)
  {
  }

  /** Width over height, with each guarded by `max(1)`: always defined and positive. */
  function Aspect(width: U32, height: U32): (a: real)
    ensures a > 0.0
    ensures a * (Max1(height) as real) == Max1(width) as real
    ensures width > 0 && height > 0 ==> a * (height as real) == width as real
  {
    (Max1(width) as real) / (Max1(height) as real)
  }

  /** The scalar vector of the camera block: width, height, elapsed time, padding. */
  function Params(width: U32, height: U32, time: real): (p: seq<real>)
    ensures |p| == 4 && p[0] == width as real && p[1] == height as real && p[2] == time && p[3] == 0.0
  {
    [width as real, height as real, time, 0.0]
  }

  /**
   * Stands for the inverse view matrix: `look_at_rh(eye, 0, +Y).inverse()`
   * with the eye on the sphere of the given radius at the given yaw and pitch.
   */
  datatype ViewPose = ViewPose(yaw: real, pitch: real, radius: real)

  /** Stands for the inverse projection matrix: `perspective_rh(fov, aspect, near, far).inverse()`. */
  datatype Projection = Projection(fovY: real, aspect: real, near: real, far: real)

  datatype CameraMats = CameraMats(viewInv: ViewPose, projInv: Projection)

  const Near: real := 0.1
  const Far: real := 1000.0

  /**
   * `compute_camera_mats`: the view follows the controller's orbit, the
   * projection takes its field of view and the guarded aspect; the projection
   * is well formed (positive aspect, 0 < near < far) for every surface size.
   */
  function CameraMatrices(c: CameraState, width: U32, height: U32): (m: CameraMats)
    ensures m.viewInv == ViewPose(c.yaw, c.pitch, c.radius)
    ensures m.projInv.fovY == c.fovY
    ensures m.projInv.aspect > 0.0 && 0.0 < m.projInv.near < m.projInv.far
    ensures width > 0 && height > 0 ==> m.projInv.aspect * (height as real) == width as real
  {
    var aspect := Aspect(width, height);
    CameraMats(ViewPose(c.yaw, c.pitch, c.radius), Projection(c.fovY, aspect, Near, Far))
  }
}
