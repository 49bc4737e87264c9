/** src/camera.h: the first-person camera. Mouse samples turn it, keyboard
    ticks move it inside a loosely enforced box, and the view matrix is
    cached behind a dirty flag. */
module CameraControl {
  import opened Glm

  /** The navigable box, per axis. */
  datatype Bounds = Bounds(minX: real, maxX: real, minY: real, maxY: real, minZ: real, maxZ: real)

  /** Every field of the source's `Camera`. `lastMouseX`/`lastMouseY` are
      read only once `mouseInitialized` holds; the constructor leaves them
      unset in the source and 0 here. A negative `lastKeyTime` means "no
      keyboard tick yet". */
  datatype Camera = Camera(
    heading: real,
    pitch: real,
    lastMouseX: real,
    lastMouseY: real,
    mouseInitialized: bool,
    lastKeyTime: real,
    moveSpeed: real,
    pos: Vec3,
    dir: Vec3,
    viewMat: Mat4,
    viewDirty: bool,
    fov: real,
    aspect: real,
    projMat: Mat4,
    bounds: Bounds)

  const Up: Vec3 := Vec3(0.0, 1.0, 0.0)
  const Near: real := 0.1
  const Far: real := 100.0

  /** Radians turned per pixel of mouse travel: the `0.001 * M_PI_2` of
      `mouseCallBack`. */
  const Sensitivity: real := 0.001 * HalfPi

  /** The pitch limits: 0.01 short of straight up or down. */
  const PitchMax: real := HalfPi - 0.01
  const PitchMin: real := -HalfPi + 0.01

  predicate PitchInRange(c: Camera) {
    PitchMin <= c.pitch <= PitchMax
  }

  predicate Inside(p: Vec3, b: Bounds) {
    b.minX <= p.x <= b.maxX && b.minY <= p.y <= b.maxY && b.minZ <= p.z <= b.maxZ
  }

  /** The view matrix `lookAt` gives for the camera as it is now. */
  function FreshView(c: Camera, g: Prims): Mat4 {
    g.lookAt(c.pos, Add3(c.pos, c.dir), Up)
  }

  /** The cache is coherent: a clean flag means the stored matrix is the
      one the current position and direction give. */
  ghost predicate ViewCoherent(c: Camera, g: Prims) {
    !c.viewDirty ==> c.viewMat == FreshView(c, g)
  }

  /** `(float)w / (float)h`. */
  function Aspect(w: int, h: int): real
    requires h != 0
  {
    (w as real) / (h as real)
  }

  /** The constructor `Camera(fov, windowWidth, windowHeight)`. */
  function NewCamera(fov: real, w: int, h: int, g: Prims): (c: Camera)
    requires h != 0
    ensures c.bounds == Bounds(-20.0, 20.0, -10.0, 10.0, -20.0, 20.0)
    ensures c.pos == Vec3(0.0, 5.0, 10.0) && Inside(c.pos, c.bounds)
    ensures c.dir == Vec3(0.0, 0.0, -1.0) && c.heading == 0.0 && PitchInRange(c)
    ensures !c.mouseInitialized && c.lastKeyTime < 0.0
    ensures c.aspect == Aspect(w, h) && c.projMat == g.perspective(fov, Aspect(w, h), Near, Far)
    ensures c.viewMat == FreshView(c, g) && ViewCoherent(c, g)
  {
    var pos := Vec3(0.0, 5.0, 10.0);
    var dir := Vec3(0.0, 0.0, -1.0);
    Camera(0.0, 0.0, 0.0, 0.0, false, -1.0, 10.0, pos, dir,
           g.lookAt(pos, Add3(pos, dir), Up), true,
           fov, Aspect(w, h), g.perspective(fov, Aspect(w, h), Near, Far),
           Bounds(-20.0, 20.0, -10.0, 10.0, -20.0, 20.0))
  }

  /** The forward vector for a heading and pitch. */
  function Direction(heading: real, pitch: real, g: Prims): Vec3 {
    Vec3(-g.cos(pitch) * g.sin(heading), g.sin(pitch), -g.cos(pitch) * g.cos(heading))
  }

  /** With sin 0 = 0 and cos 0 = 1, the initial direction (0, 0, -1) is the
      one heading 0 and pitch 0 give. */
  lemma InitialDirectionMatchesAngles(g: Prims)
    requires g.sin(0.0) == 0.0 && g.cos(0.0) == 1.0
    ensures Direction(0.0, 0.0, g) == Vec3(0.0, 0.0, -1.0)
  {
  }

  /** The two sequential pitch clamps of `mouseCallBack`. */
  function ClampPitch(p: real): (r: real)
    ensures PitchMin <= r <= PitchMax
    ensures PitchMin < p < PitchMax ==> r == p
    ensures p >= PitchMax ==> r == PitchMax
    ensures p <= PitchMin ==> r == PitchMin
  {
    var p1 := if p >= PitchMax then PitchMax else p;
    if p1 <= PitchMin then PitchMin else p1
  }

  /** `getViewMat`/`getProjectMat` aside, everything that is not orientation
      stays put when the mouse moves. */
  ghost predicate SameExceptOrientation(c: Camera, r: Camera) {
    && r.lastKeyTime == c.lastKeyTime && r.moveSpeed == c.moveSpeed && r.pos == c.pos
    && r.viewMat == c.viewMat && r.fov == c.fov && r.aspect == c.aspect
    && r.projMat == c.projMat && r.bounds == c.bounds
  }

  /** `mouseCallBack(window, x, y)`. */
  function MouseMove(c: Camera, x: real, y: real, g: Prims): (r: Camera)
    ensures r.lastMouseX == x && r.lastMouseY == y && r.mouseInitialized
    ensures SameExceptOrientation(c, r)
    ensures !c.mouseInitialized ==>
      r.heading == c.heading && r.pitch == c.pitch && r.dir == c.dir && r.viewDirty == c.viewDirty
    ensures c.mouseInitialized ==>
      && r.heading == c.heading - (x - c.lastMouseX) * Sensitivity
      && r.pitch == ClampPitch(c.pitch - (y - c.lastMouseY) * Sensitivity)
      && r.dir == Direction(r.heading, r.pitch, g)
      && r.viewDirty
    ensures PitchInRange(c) ==> PitchInRange(r)
    ensures ViewCoherent(c, g) ==> ViewCoherent(r, g)
  {
    if !c.mouseInitialized then
      c.(lastMouseX := x, lastMouseY := y, mouseInitialized := true)
    else
      var heading := c.heading - (x - c.lastMouseX) * Sensitivity;
      var pitch := ClampPitch(c.pitch - (y - c.lastMouseY) * Sensitivity);
      c.(heading := heading, pitch := pitch, lastMouseX := x, lastMouseY := y,
         dir := Direction(heading, pitch, g), viewDirty := true)
  }

  /** Feeds mouse samples to `MouseMove` in order. */
  function MouseMoves(c: Camera, samples: seq<(real, real)>, g: Prims): Camera
    decreases |samples|
  {
    if |samples| == 0 then c
    else MouseMoves(MouseMove(c, samples[0].0, samples[0].1, g), samples[1..], g)
  }

  /** Pitch stays within [-pi/2 + 0.01, pi/2 - 0.01] across any run of mouse
      samples from a freshly made camera. */
  lemma {:induction false} PitchAlwaysInRange(c: Camera, samples: seq<(real, real)>, g: Prims)
    requires PitchInRange(c)
    ensures PitchInRange(MouseMoves(c, samples, g))
    decreases |samples|
  {
    if |samples| > 0 {
      PitchAlwaysInRange(MouseMove(c, samples[0].0, samples[0].1, g), samples[1..], g);
    }
  }

  /** `getViewMat()`: recomputes only when dirty, then clears the flag. The
      result pairs the updated camera with the returned matrix. */
  function GetViewMat(c: Camera, g: Prims): (r: (Camera, Mat4))
    ensures c.viewDirty ==> r.0 == c.(viewDirty := false, viewMat := FreshView(c, g))
    ensures !c.viewDirty ==> r.0 == c
    ensures r.1 == r.0.viewMat && !r.0.viewDirty
    ensures ViewCoherent(c, g) ==> r.1 == FreshView(c, g)
  {
    if c.viewDirty then
      var m := g.lookAt(c.pos, Add3(c.pos, c.dir), Up);
      (c.(viewDirty := false, viewMat := m), m)
    else
      (c, c.viewMat)
  }

  /** A second read with nothing in between changes nothing and returns the
      same matrix. */
  lemma GetViewMatTwice(c: Camera, g: Prims)
    ensures GetViewMat(GetViewMat(c, g).0, g) == GetViewMat(c, g)
  {
  }

  /** `windowSizeChanged(w, h)`: recomputes the projection on every call,
      whether or not the aspect ratio changed. */
  function WindowSizeChanged(c: Camera, w: int, h: int, g: Prims): (r: Camera)
    requires h != 0
    ensures r.aspect == Aspect(w, h)
    ensures r.projMat == g.perspective(c.fov, Aspect(w, h), Near, Far)
    ensures r == c.(aspect := r.aspect, projMat := r.projMat)
  {
    var aspect := (w as real) / (h as real);
    c.(aspect := aspect, projMat := g.perspective(c.fov, aspect, Near, Far))
  }

  // ---------------------------------------------------------------------
  // Keyboard movement.
  // ---------------------------------------------------------------------

  /** The keys `keyboardCallBack` polls, true when pressed. */
  datatype Keys = Keys(w: bool, s: bool, a: bool, d: bool, c: bool, space: bool)

  function Step(minus: bool, plus: bool): real {
    (if minus then -1.0 else 0.0) + (if plus then 1.0 else 0.0)
  }

  /** The view-space intent vector: W/S along -z/+z, A/D along -x/+x, C/Space
      along -y/+y. */
  function Intent(k: Keys): (v: Vec4)
    ensures v.w == 0.0
    ensures v.x in {-1.0, 0.0, 1.0} && v.y in {-1.0, 0.0, 1.0} && v.z in {-1.0, 0.0, 1.0}
  {
    Vec4(Step(k.a, k.d), Step(k.c, k.space), Step(k.w, k.s), 0.0)
  }

  /** `glm::length(moveDi) > 0.1`, stated on the squared length. */
  predicate WantsToMove(k: Keys) {
    LengthSq4(Intent(k)) > 0.01
  }

  /** The length test passes exactly when the intent vector is not zero:
      opposite keys cancel, and any uncancelled key moves. */
  lemma WantsToMoveIffNonZero(k: Keys)
    ensures WantsToMove(k) <==> Intent(k) != Vec4(0.0, 0.0, 0.0, 0.0)
    ensures WantsToMove(k) <==> (k.w != k.s || k.a != k.d || k.c != k.space)
  {
  }

  /** One axis of the containment rule: the delta is dropped only when the
      camera is already past that bound and moving further out. */
  function ContainAxis(p: real, lo: real, hi: real, d: real): real {
    if p > hi && d > 0.0 then 0.0
    else if p < lo && d < 0.0 then 0.0
    else d
  }

  /** What the containment rule promises, per axis: the delta is kept or
      dropped whole; it is dropped exactly when it would carry an outside
      camera further out; an inside camera always gets it unchanged. */
  lemma ContainAxisSpec(p: real, lo: real, hi: real, d: real)
    requires lo <= hi
    ensures ContainAxis(p, lo, hi, d) == d || ContainAxis(p, lo, hi, d) == 0.0
    ensures ContainAxis(p, lo, hi, d) != d <==> (p > hi && d > 0.0) || (p < lo && d < 0.0)
    ensures lo <= p <= hi ==> ContainAxis(p, lo, hi, d) == d
    ensures p > hi ==> p + ContainAxis(p, lo, hi, d) <= p
    ensures p < lo ==> p + ContainAxis(p, lo, hi, d) >= p
  {
  }

  function Contain(p: Vec3, b: Bounds, d: Vec3): Vec3 {
    Vec3(ContainAxis(p.x, b.minX, b.maxX, d.x),
         ContainAxis(p.y, b.minY, b.maxY, d.y),
         ContainAxis(p.z, b.minZ, b.maxZ, d.z))
  }

  /** Not a hard clamp: a camera on the boundary moving outwards crosses it. */
  lemma ContainmentAllowsOvershoot()
    ensures 20.0 + ContainAxis(20.0, -20.0, 20.0, 1.0) == 21.0
  {
  }

  /** Positions visited along one axis under a run of deltas. */
  function Walk(p: real, lo: real, hi: real, ds: seq<real>): real
    decreases |ds|
  {
    if |ds| == 0 then p else Walk(p + ContainAxis(p, lo, hi, ds[0]), lo, hi, ds[1..])
  }

  /** What does hold for any run of ticks: if no tick's delta exceeds `m`,
      a position starting inside the box enlarged by `m` never leaves it. */
  lemma {:induction false} WalkStaysNearBox(p: real, lo: real, hi: real, m: real, ds: seq<real>)
    requires lo <= hi && lo - m <= p <= hi + m
    requires forall i :: 0 <= i < |ds| ==> -m <= ds[i] <= m
    ensures lo - m <= Walk(p, lo, hi, ds) <= hi + m
    decreases |ds|
  {
    if |ds| > 0 {
      WalkStaysNearBox(p + ContainAxis(p, lo, hi, ds[0]), lo, hi, m, ds[1..]);
    }
  }

  /** `glm::inverse(viewMat) * glm::normalize(moveDi)` scaled by the elapsed
      time and the speed: the tick's proposed world-space move. It reads the
      cached `viewMat` field, not `getViewMat()`. */
  function ProposedDelta(c: Camera, now: real, k: Keys, g: Prims): Vec3 {
    var world := Transform(g.inverse(c.viewMat), g.normalize4(Intent(k)));
    Mul3(Xyz(world), (now - c.lastKeyTime) * c.moveSpeed)
  }

  /** `keyboardCallBack(window)` at time `now` with keys `k` held. */
  function KeyboardTick(c: Camera, now: real, k: Keys, g: Prims): (r: Camera)
    ensures r.lastKeyTime == now
    ensures r == c.(lastKeyTime := now, pos := r.pos, viewDirty := r.viewDirty)
    ensures c.lastKeyTime < 0.0 || !WantsToMove(k) ==> r.pos == c.pos && r.viewDirty == c.viewDirty
    ensures c.lastKeyTime >= 0.0 && WantsToMove(k) ==>
      r.viewDirty && r.pos == Add3(c.pos, Contain(c.pos, c.bounds, ProposedDelta(c, now, k, g)))
    ensures ViewCoherent(c, g) ==> ViewCoherent(r, g)
  {
    if c.lastKeyTime < 0.0 then
      c.(lastKeyTime := now)
    else if WantsToMove(k) then
      var delta := ProposedDelta(c, now, k, g);
      c.(pos := Add3(c.pos, Contain(c.pos, c.bounds, delta)), viewDirty := true, lastKeyTime := now)
    else
      c.(lastKeyTime := now)
  }

  /** `KeyboardTick` over a run of (time, keys) polls, in order. */
  function KeyboardTicks(c: Camera, ticks: seq<(real, Keys)>, g: Prims): Camera
    decreases |ticks|
  {
    if |ticks| == 0 then c
    else KeyboardTicks(KeyboardTick(c, ticks[0].0, ticks[0].1, g), ticks[1..], g)
  }

  predicate Ordered(b: Bounds) {
    b.minX <= b.maxX && b.minY <= b.maxY && b.minZ <= b.maxZ
  }

  /** The box enlarged by `m` on every side. */
  predicate NearBox(p: Vec3, b: Bounds, m: real) {
    b.minX - m <= p.x <= b.maxX + m && b.minY - m <= p.y <= b.maxY + m && b.minZ - m <= p.z <= b.maxZ + m
  }

  predicate DeltaWithin(d: Vec3, m: real) {
    -m <= d.x <= m && -m <= d.y <= m && -m <= d.z <= m
  }

  /** Every tick of the run that moves proposes a delta no component of
      which exceeds `m`, judged on the camera that tick sees. */
  ghost predicate MovesWithin(c: Camera, ticks: seq<(real, Keys)>, g: Prims, m: real)
    decreases |ticks|
  {
    |ticks| == 0 ||
    ((c.lastKeyTime >= 0.0 && WantsToMove(ticks[0].1) ==> DeltaWithin(ProposedDelta(c, ticks[0].0, ticks[0].1, g), m))
     && MovesWithin(KeyboardTick(c, ticks[0].0, ticks[0].1, g), ticks[1..], g, m))
  }

  /** One tick is one step of `Walk` on each axis, so it keeps a camera
      within `m` of its box when its delta is within `m`. */
  lemma TickStaysNearBox(c: Camera, now: real, k: Keys, g: Prims, m: real)
    requires Ordered(c.bounds) && NearBox(c.pos, c.bounds, m)
    requires c.lastKeyTime >= 0.0 && WantsToMove(k) ==> DeltaWithin(ProposedDelta(c, now, k, g), m)
    ensures KeyboardTick(c, now, k, g).bounds == c.bounds
    ensures NearBox(KeyboardTick(c, now, k, g).pos, c.bounds, m)
  {
    if c.lastKeyTime >= 0.0 && WantsToMove(k) {
      var d := ProposedDelta(c, now, k, g);
      var b := c.bounds;
      WalkStaysNearBox(c.pos.x, b.minX, b.maxX, m, [d.x]);
      WalkStaysNearBox(c.pos.y, b.minY, b.maxY, m, [d.y]);
      WalkStaysNearBox(c.pos.z, b.minZ, b.maxZ, m, [d.z]);
    }
  }

  /** The bound of `WalkStaysNearBox` for the modelled ticks: across any run
      whose moving ticks propose deltas within `m`, a camera starting within
      `m` of its box stays within `m` of it. */
  lemma {:induction false} TicksStayNearBox(c: Camera, ticks: seq<(real, Keys)>, g: Prims, m: real)
    requires Ordered(c.bounds) && NearBox(c.pos, c.bounds, m)
    requires MovesWithin(c, ticks, g, m)
    ensures KeyboardTicks(c, ticks, g).bounds == c.bounds
    ensures NearBox(KeyboardTicks(c, ticks, g).pos, c.bounds, m)
    decreases |ticks|
  {
    if |ticks| > 0 {
      TickStaysNearBox(c, ticks[0].0, ticks[0].1, g, m);
      TicksStayNearBox(KeyboardTick(c, ticks[0].0, ticks[0].1, g), ticks[1..], g, m);
    }
  }

  /** The move depends on the cached matrix only: turning the camera without
      reading the view in between leaves the next move unchanged. */
  lemma MoveUsesCachedView(c: Camera, now: real, k: Keys, g: Prims, x: real, y: real)
    ensures MouseMove(c, x, y, g).viewMat == c.viewMat
    ensures KeyboardTick(MouseMove(c, x, y, g), now, k, g).pos == KeyboardTick(c, now, k, g).pos
  {
    var m := MouseMove(c, x, y, g);
    assert ProposedDelta(m, now, k, g) == ProposedDelta(c, now, k, g) by {
      assert m.viewMat == c.viewMat && m.lastKeyTime == c.lastKeyTime && m.moveSpeed == c.moveSpeed;
    }
  }

  /** Every camera operation keeps the cache coherent, so each read of the
      view returns the matrix for the camera's current position and
      direction. */
  lemma ViewReadIsCurrent(c: Camera, g: Prims)
    requires ViewCoherent(c, g)
    ensures GetViewMat(c, g).1 == FreshView(c, g)
    ensures ViewCoherent(GetViewMat(c, g).0, g)
  {
  }
}
