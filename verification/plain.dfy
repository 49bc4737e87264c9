/** src/plain.h: the ground plane and the grid of thin quads drawn on it.

    The grid loops of the source step `x` from `-plainSize + lineInterval`
    by `lineInterval` while `x <= plainSize - lineInterval / 2`; here `x` is
    a real, so the iteration count is exact (`GridSteps`). */
module PlainGrid {
  import opened Glm
  import opened Gl
  import opened Global
  import opened ShaderUniforms

  /** `glm::uvec3`: one triangle of the element buffer. */
  datatype UVec3 = UVec3(a: nat, b: nat, c: nat)

  /** The plane and grid after construction: their vertex arrays and the
      contents uploaded to their vertex and element buffers. Vertex data
      interleaves position and normal, so vertex `i` is `data[2 * i]` with
      normal `data[2 * i + 1]`. */
  datatype Plain = Plain(
    size: real,
    lineWidth: real,
    lineInterval: real,
    plainVao: Name,
    lineVao: Name,
    lineCount: nat,
    plainData: seq<Vec3>,
    plainElements: seq<nat>,
    lineData: seq<Vec3>,
    lineIndices: seq<UVec3>)

  const Up: Vec3 := Vec3(0.0, 1.0, 0.0)
  const PlainColor: Vec3 := Vec3(22.0 / 256.0, 121.0 / 256.0, 113.0 / 256.0)

  /** The `vertices` array of `setupPlainVAO`. */
  function PlainData(size: real): seq<Vec3> {
    [Vec3(-size, 0.0, -size), Up, Vec3(size, 0.0, -size), Up,
     Vec3(-size, 0.0, size), Up, Vec3(size, 0.0, size), Up]
  }

  /** The `elements` array of `setupPlainVAO`. */
  const PlainElements: seq<nat> := [0, 2, 1, 1, 2, 3]

  /** The index count `draw` asks for on the plane. */
  const PlainDrawCount: nat := 6

  function Sub3(a: Vec3, b: Vec3): Vec3 {
    Vec3(a.x - b.x, a.y - b.y, a.z - b.z)
  }

  function Cross(a: Vec3, b: Vec3): Vec3 {
    Vec3(a.y * b.z - a.z * b.y, a.z * b.x - a.x * b.z, a.x * b.y - a.y * b.x)
  }

  /** The geometric normal of triangle (p, q, r) under counter-clockwise
      winding, unnormalised. */
  function FaceNormal(p: Vec3, q: Vec3, r: Vec3): Vec3 {
    Cross(Sub3(q, p), Sub3(r, p))
  }

  /** The plane's two triangles use only its four vertices, the draw count
      covers exactly its element list, and both triangles wind
      counter-clockwise seen from above, agreeing with the stored normal, so
      back-face culling keeps them. */
  lemma PlaneIsWellFormed(size: real)
    requires size > 0.0
    ensures |PlainElements| == PlainDrawCount && |PlainData(size)| == 2 * 4
    ensures forall i :: 0 <= i < |PlainElements| ==> PlainElements[i] < 4
    ensures forall t :: 0 <= t < 2 ==>
      var v := PlainData(size);
      var n := FaceNormal(v[2 * PlainElements[3 * t]], v[2 * PlainElements[3 * t + 1]], v[2 * PlainElements[3 * t + 2]]);
      n.x == 0.0 && n.z == 0.0 && n.y > 0.0
  {
    var v := PlainData(size);
    assert FaceNormal(v[0], v[4], v[2]) == Vec3(0.0, 4.0 * size * size, 0.0);
    assert FaceNormal(v[2], v[4], v[6]) == Vec3(0.0, 4.0 * size * size, 0.0);
  }

  /** The `x` of iteration `k` of either grid loop. */
  function LineX(size: real, interval: real, k: nat): real {
    -size + (k as real + 1.0) * interval
  }

  /** The condition both grid loops test. */
  predicate InGrid(size: real, interval: real, x: real) {
    x <= size - interval / 2.0
  }

  /** How many iterations the grid loops make: the iterations whose `x`
      passes the guard are exactly the first `GridSteps`. A positive
      interval is what makes the loops end. */
  function GridSteps(size: real, interval: real): (n: nat)
    requires interval > 0.0
    ensures forall k: nat :: k < n ==> InGrid(size, interval, LineX(size, interval, k))
    ensures !InGrid(size, interval, LineX(size, interval, n))
  {
    var q := (2.0 * size - interval / 2.0) / interval;
    var n := if q.Floor < 0 then 0 else q.Floor;
    GridStepsBound(size, interval, q, n);
    n
  }

  /** With the constructor's default arguments (size 50, interval 1) the
      loops run for x = -49, -48, ..., 49: 99 iterations, 198 lines. */
  lemma DefaultGridSteps()
    ensures GridSteps(50.0, 1.0) == 99
  {
    assert (2.0 * 50.0 - 1.0 / 2.0) / 1.0 == 99.5;
  }

  /** Without a positive interval the guard never fails: with a size of at
      least 0 and an interval of at most 0, every iteration's `x` passes it,
      so neither grid loop ends. */
  lemma {:induction false} GridEndlessWithoutInterval(size: real, interval: real, k: nat)
    requires size >= 0.0 && interval <= 0.0
    ensures InGrid(size, interval, LineX(size, interval, k))
  {
    assert (k as real + 1.0) * interval <= 0.0;
  }

  lemma GridStepsBound(size: real, interval: real, q: real, n: nat)
    requires interval > 0.0 && q == (2.0 * size - interval / 2.0) / interval
    requires n == if q.Floor < 0 then 0 else q.Floor
    ensures forall k: nat :: k < n ==> InGrid(size, interval, LineX(size, interval, k))
    ensures !InGrid(size, interval, LineX(size, interval, n))
  {
    DivideThenScale(2.0 * size - interval / 2.0, interval);
    forall k: nat | k < n
      ensures InGrid(size, interval, LineX(size, interval, k))
    {
      StepWithin(size, interval, q, k as real + 1.0);
    }
    StepBeyond(size, interval, q, n as real + 1.0);
  }

  lemma DivideThenScale(d: real, c: real)
    requires c > 0.0
    ensures (d / c) * c == d
  {
  }

  /** Step `m` (counting from 1) passes the guard when `m <= q`. */
  lemma StepWithin(size: real, interval: real, q: real, m: real)
    requires interval > 0.0 && q * interval == 2.0 * size - interval / 2.0 && m <= q
    ensures -size + m * interval <= size - interval / 2.0
  {
    ScaleLeq(m, q, interval);
  }

  /** Step `m` fails the guard when `m > q`. */
  lemma StepBeyond(size: real, interval: real, q: real, m: real)
    requires interval > 0.0 && q * interval == 2.0 * size - interval / 2.0 && q < m
    ensures -size + m * interval > size - interval / 2.0
  {
    ScaleLess(q, m, interval);
  }

  lemma ScaleLeq(a: real, b: real, c: real)
    requires a <= b && c > 0.0
    ensures a * c <= b * c
  {
  }

  lemma ScaleLess(a: real, b: real, c: real)
    requires a < b && c > 0.0
    ensures a * c < b * c
  {
  }

  /** The sixteen `vec3` one iteration of the vertex loop pushes: a quad
      along z at `x`, then a quad along x at `z = x`, each vertex followed by
      the up normal. */
  function LineBlock(x: real, hlw: real, size: real): (b: seq<Vec3>)
    ensures |b| == 16
  {
    [Vec3(x - hlw, 0.0, -size), Up, Vec3(x + hlw, 0.0, -size), Up,
     Vec3(x - hlw, 0.0, size), Up, Vec3(x + hlw, 0.0, size), Up,
     Vec3(-size, 0.0, x - hlw), Up, Vec3(size, 0.0, x - hlw), Up,
     Vec3(-size, 0.0, x + hlw), Up, Vec3(size, 0.0, x + hlw), Up]
  }

  /** The vertex data after `k` iterations of the vertex loop. */
  function Blocks(size: real, interval: real, hlw: real, k: nat): seq<Vec3> {
    if k == 0 then [] else Blocks(size, interval, hlw, k - 1) + LineBlock(LineX(size, interval, k - 1), hlw, size)
  }

  /** Iteration `j` owns the sixteen vectors starting at `16 * j`. */
  lemma {:induction false} BlocksLayout(size: real, interval: real, hlw: real, k: nat)
    ensures |Blocks(size, interval, hlw, k)| == 16 * k
    ensures forall j :: 0 <= j < k ==>
      Blocks(size, interval, hlw, k)[16 * j .. 16 * j + 16] == LineBlock(LineX(size, interval, j), hlw, size)
  {
    if k > 0 {
      var prev := Blocks(size, interval, hlw, k - 1);
      var data := Blocks(size, interval, hlw, k);
      BlocksLayout(size, interval, hlw, k - 1);
      assert data == prev + LineBlock(LineX(size, interval, k - 1), hlw, size);
      forall j | 0 <= j < k
        ensures data[16 * j .. 16 * j + 16] == LineBlock(LineX(size, interval, j), hlw, size)
      {
        if j < k - 1 {
          SixteenBelow(j, k - 1);
          AppendKeepsSlice(prev, LineBlock(LineX(size, interval, k - 1), hlw, size), 16 * j, 16 * j + 16);
        } else {
          AppendKeepsSlice(prev, LineBlock(LineX(size, interval, k - 1), hlw, size), |prev|, |prev|);
        }
      }
    }
  }

  lemma SixteenBelow(j: nat, k: nat)
    requires j < k
    ensures 16 * j + 16 <= 16 * k
  {
  }

  /** Appending to `a` leaves its slices alone and puts `b` right after it. */
  lemma AppendKeepsSlice<T>(a: seq<T>, b: seq<T>, i: nat, j: nat)
    requires i <= j <= |a|
    ensures (a + b)[i .. j] == a[i .. j]
    ensures (a + b)[|a| .. |a| + |b|] == b
  {
  }

  /** One step of either grid loop moves `x` to the next iteration's. */
  lemma NextLineX(size: real, interval: real, k: nat)
    ensures LineX(size, interval, k) + interval == LineX(size, interval, k + 1)
  {
    assert (k as real + 2.0) * interval == (k as real + 1.0) * interval + interval;
  }

  /** The vertex loop of `setupLineVAO`: iteration `k` appends the block for
      its `x` (eight vertices, sixteen `vec3`) and counts two lines. */
  method SetupLineVertices(size: real, interval: real, width: real)
    returns (data: seq<Vec3>, lineCount: nat)
    requires interval > 0.0
    ensures lineCount == 2 * GridSteps(size, interval) && |data| == 8 * lineCount
    ensures forall k :: 0 <= k < GridSteps(size, interval) ==>
      data[16 * k .. 16 * k + 16] == LineBlock(LineX(size, interval, k), width / 2.0, size)
  {
    ghost var n := GridSteps(size, interval);
    lineCount := 0;
    data := [];
    var hlw := width / 2.0;
    var x := -size + interval;
    ghost var k := 0;
    while x <= size - interval / 2.0
      invariant k <= n
      invariant data == Blocks(size, interval, hlw, k) && lineCount == 2 * k
      invariant x == LineX(size, interval, k)
      decreases n - k
    {
      data := data + LineBlock(x, hlw, size);
      lineCount := lineCount + 2;
      NextLineX(size, interval, k);
      x := x + interval;
      k := k + 1;
    }
    BlocksLayout(size, interval, hlw, k);
  }

  /** The two triangles of the quad whose first vertex is `o`. */
  function QuadFirst(o: nat): UVec3 {
    UVec3(o, o + 2, o + 1)
  }

  function QuadSecond(o: nat): UVec3 {
    UVec3(o + 1, o + 2, o + 3)
  }

  /** The triangle uses only vertices `base .. base + 3`. */
  predicate InQuad(t: UVec3, base: nat) {
    base <= t.a < base + 4 && base <= t.b < base + 4 && base <= t.c < base + 4
  }

  /** The index loop of `setupLineVAO`: iteration `k` emits the two quads at
      offsets `8k` and `8k + 4`, two triangles each. */
  method SetupLineIndices(size: real, interval: real) returns (indices: seq<UVec3>)
    requires interval > 0.0
    ensures var n := GridSteps(size, interval); |indices| == 4 * n
    ensures forall q :: 0 <= q < |indices| / 2 ==> indices[2 * q] == QuadFirst(4 * q) && indices[2 * q + 1] == QuadSecond(4 * q)
    ensures forall t :: 0 <= t < |indices| ==> InQuad(indices[t], 4 * (t / 2))
    ensures forall t :: 0 <= t < |indices| ==> indices[t].a < 2 * |indices| && indices[t].b < 2 * |indices| && indices[t].c < 2 * |indices|
  {
    ghost var n := GridSteps(size, interval);
    indices := [];
    var offset := 0;
    var x := -size + interval;
    ghost var k := 0;
    while x <= size - interval / 2.0
      invariant k <= n && offset == 8 * k && |indices| == 4 * k
      invariant x == LineX(size, interval, k)
      invariant forall q :: 0 <= q < 2 * k ==> indices[2 * q] == QuadFirst(4 * q) && indices[2 * q + 1] == QuadSecond(4 * q)
      decreases n - k
    {
      indices := indices + [UVec3(offset + 0, offset + 2, offset + 1), UVec3(offset + 1, offset + 2, offset + 3)];
      offset := offset + 4;
      indices := indices + [UVec3(offset + 0, offset + 2, offset + 1), UVec3(offset + 1, offset + 2, offset + 3)];
      offset := offset + 4;
      x := x + interval;
      assert x == LineX(size, interval, k + 1) by {
        assert (k as real + 2.0) * interval == (k as real + 1.0) * interval + interval;
      }
      k := k + 1;
    }
    forall t | 0 <= t < |indices|
      ensures InQuad(indices[t], 4 * (t / 2))
      ensures indices[t].a < 2 * |indices| && indices[t].b < 2 * |indices| && indices[t].c < 2 * |indices|
    {
      var q := t / 2;
      if t == 2 * q {
        assert indices[t] == QuadFirst(4 * q);
      } else {
        assert t == 2 * q + 1;
        assert indices[t] == QuadSecond(4 * q);
      }
    }
  }

  /** The index count `draw` asks for on the grid. */
  function LineDrawCount(lineCount: nat): nat {
    6 * lineCount
  }

  /** The constructor `Plain(plainSize, lineInterval, lineWidth)` with its
      two setup calls, each taking a vertex array, a vertex buffer and an
      element buffer. */
  method NewPlain(size: real, interval: real, width: real, ns: Names) returns (p: Plain, ns': Names)
    requires interval > 0.0
    ensures p.size == size && p.lineInterval == interval && p.lineWidth == width
    ensures p.plainData == PlainData(size) && p.plainElements == PlainElements
    ensures p.lineCount == 2 * GridSteps(size, interval)
    ensures |p.lineData| == 8 * p.lineCount && |p.lineIndices| == 2 * p.lineCount
    ensures LineDrawCount(p.lineCount) == 3 * |p.lineIndices|
    ensures forall t :: 0 <= t < |p.lineIndices| ==>
      p.lineIndices[t].a < |p.lineData| / 2 && p.lineIndices[t].b < |p.lineData| / 2 &&
      p.lineIndices[t].c < |p.lineData| / 2
    ensures p.plainVao == ns.nextVertexArray && p.lineVao == ns.nextVertexArray + 1
    ensures ns'.nextVertexArray == ns.nextVertexArray + 2 && ns'.nextBuffer == ns.nextBuffer + 4
    ensures ns'.nextTexture == ns.nextTexture
  {
    var (plainVao, n1) := GenVertexArray(ns);
    var (_, n2) := GenBuffer(n1);
    var (_, n3) := GenBuffer(n2);
    var data, lineCount := SetupLineVertices(size, interval, width);
    var indices := SetupLineIndices(size, interval);
    var (lineVao, n4) := GenVertexArray(n3);
    var (_, n5) := GenBuffer(n4);
    var (_, n6) := GenBuffer(n5);
    p := Plain(size, width, interval, plainVao, lineVao, lineCount, PlainData(size), PlainElements, data, indices);
    ns' := n6;
  }

  /** One pass of `draw`: the untextured default material with the given
      diffuse color, bound from texture unit 0, then the draw call. */
  function Pass(s: Shader, color: Vec3, vao: nat, count: nat): (r: Issued)
    ensures r.call == DrawElements(vao, count)
    ensures Holds(r.shader, DiffTex, IntU(0)) && Holds(r.shader, SpecTex, IntU(1))
    ensures Holds(r.shader, DiffColor, Vec3U(color))
    ensures r.shader.units == s.units[0 := EmptyTex][1 := EmptyTex]
    ensures Unchanged(s, r.shader, MaterialNames)
  {
    var texUnit := 0;
    var (s1, _) := SetMaterial(s, DefaultMaterial.(diffuseColor := color), texUnit);
    Issued(s1, DrawElements(vao, count))
  }

  /** `draw(shader)`: the plane in `plainColor`, then the grid in white, each
      pass counting its texture units from 0 again. Returns the final shader
      state and the two draws with the state each one sees. */
  function Draw(p: Plain, sh: Shader): (r: (Shader, seq<Issued>))
    ensures |r.1| == 2 && r.0 == r.1[1].shader
    ensures r.1[0].call == DrawElements(p.plainVao, PlainDrawCount)
    ensures r.1[1].call == DrawElements(p.lineVao, LineDrawCount(p.lineCount))
    ensures PassState(sh, r.1[0].shader, PlainColor)
    ensures PassState(sh, r.1[1].shader, Splat(1.0))
  {
    var s0 := SetMat4(sh, ModelMat, Identity());
    var plane := Pass(s0, PlainColor, p.plainVao, 6);
    var lines := Pass(plane.shader, Splat(1.0), p.lineVao, 6 * p.lineCount);
    ModelMatIsNotMaterialName();
    RebindSameUnits(sh.units, EmptyTex, EmptyTex);
    (lines.shader, [plane, lines])
  }

  /** Binding the same two textures again on units 0 and 1 changes nothing. */
  lemma RebindSameUnits(units: map<nat, nat>, d: nat, sp: nat)
    ensures units[0 := d][1 := sp][0 := d][1 := sp] == units[0 := d][1 := sp]
  {
    var u := units[0 := d][1 := sp];
    assert u[0 := d][1 := sp].Keys == u.Keys;
  }

  /** What one pass of `draw` sees: the identity model matrix, an untextured
      material of the given diffuse color, bound from texture unit 0. */
  ghost predicate PassState(sh: Shader, s: Shader, color: Vec3) {
    && Holds(s, ModelMat, Mat4U(Identity()))
    && Holds(s, DiffTex, IntU(0)) && Holds(s, SpecTex, IntU(1))
    && Holds(s, DiffColor, Vec3U(color))
    && s.units == sh.units[0 := EmptyTex][1 := EmptyTex]
  }
}
