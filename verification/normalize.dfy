/** `calculateModelMat` of src/model.h: the bounding box of every vertex of
    every mesh, and the matrix that scales the model into a 10-unit cube. */
module Normalization {
  import opened Glm
  import opened MeshResource

  /** `numeric_limits<float>::min()` (2^-126, the smallest positive normal
      float) and `numeric_limits<float>::max()`, exactly. */
  const FltMin: real := 1.0 / 85070591730234615865843651857942052864.0
  const FltMax: real := 340282346638528859811704183484516925440.0

  datatype Box = Box(minX: real, maxX: real, minY: real, maxY: real, minZ: real, maxZ: real)

  /** The accumulators before the loop: every max at `FltMin`, every min at
      `FltMax`. */
  const StartBox: Box := Box(FltMax, FltMin, FltMax, FltMin, FltMax, FltMin)

  /** The six comparisons the loop makes for one vertex position. */
  function Accumulate(b: Box, p: Vec3): Box {
    var maxX := if p.x > b.maxX then p.x else b.maxX;
    var minX := if p.x < b.minX then p.x else b.minX;
    var maxY := if p.y > b.maxY then p.y else b.maxY;
    var minY := if p.y < b.minY then p.y else b.minY;
    var maxZ := if p.z > b.maxZ then p.z else b.maxZ;
    var minZ := if p.z < b.minZ then p.z else b.minZ;
    Box(minX, maxX, minY, maxY, minZ, maxZ)
  }

  predicate Encloses(b: Box, p: Vec3) {
    b.minX <= p.x <= b.maxX && b.minY <= p.y <= b.maxY && b.minZ <= p.z <= b.maxZ
  }

  /** The accumulators after folding `ps` into `start`, in order. */
  function Fold(start: Box, ps: seq<Vec3>): Box {
    if |ps| == 0 then start else Accumulate(Fold(start, ps[..|ps| - 1]), ps[|ps| - 1])
  }

  /** The box `calculateModelMat` ends with for positions `ps`: each
      coordinate lies within it, each max is the largest coordinate or
      `FltMin` if that is larger, and each min is the smallest coordinate or
      `FltMax` if that is smaller. So the max is positive even when every
      coordinate is negative. */
  function BoxOf(ps: seq<Vec3>): (b: Box)
    ensures forall k :: 0 <= k < |ps| ==> Encloses(b, ps[k])
    ensures b.maxX >= FltMin && b.maxY >= FltMin && b.maxZ >= FltMin
    ensures b.minX <= FltMax && b.minY <= FltMax && b.minZ <= FltMax
    ensures b.maxX == FltMin || exists k :: 0 <= k < |ps| && ps[k].x == b.maxX
    ensures b.maxY == FltMin || exists k :: 0 <= k < |ps| && ps[k].y == b.maxY
    ensures b.maxZ == FltMin || exists k :: 0 <= k < |ps| && ps[k].z == b.maxZ
    ensures b.minX == FltMax || exists k :: 0 <= k < |ps| && ps[k].x == b.minX
    ensures b.minY == FltMax || exists k :: 0 <= k < |ps| && ps[k].y == b.minY
    ensures b.minZ == FltMax || exists k :: 0 <= k < |ps| && ps[k].z == b.minZ
  {
    if |ps| == 0 then StartBox
    else
      var prev := BoxOf(ps[..|ps| - 1]);
      assert forall k :: 0 <= k < |ps| - 1 ==> ps[..|ps| - 1][k] == ps[k];
      Accumulate(prev, ps[|ps| - 1])
  }

  /** Folding encloses every folded position. */
  lemma {:induction false} FoldEncloses(start: Box, ps: seq<Vec3>)
    ensures forall k :: 0 <= k < |ps| ==> Encloses(Fold(start, ps), ps[k])
  {
    if |ps| > 0 {
      var init := ps[..|ps| - 1];
      FoldEncloses(start, init);
      assert forall k :: 0 <= k < |init| ==> init[k] == ps[k];
    }
  }

  lemma {:induction false} BoxOfIsFold(ps: seq<Vec3>)
    ensures BoxOf(ps) == Fold(StartBox, ps)
  {
    if |ps| > 0 {
      BoxOfIsFold(ps[..|ps| - 1]);
    }
  }

  function Positions(vs: seq<Vertex>): (ps: seq<Vec3>)
    ensures |ps| == |vs| && forall i :: 0 <= i < |vs| ==> ps[i] == vs[i].position
  {
    seq(|vs|, i requires 0 <= i < |vs| => vs[i].position)
  }

  /** Every vertex position of every mesh, mesh by mesh. */
  function AllPositions(meshes: seq<Mesh>): seq<Vec3> {
    if |meshes| == 0 then []
    else AllPositions(meshes[..|meshes| - 1]) + Positions(meshes[|meshes| - 1].vertices)
  }

  lemma FoldSnoc(start: Box, ps: seq<Vec3>, p: Vec3)
    ensures Fold(start, ps + [p]) == Accumulate(Fold(start, ps), p)
  {
    assert (ps + [p])[..|ps|] == ps;
  }

  lemma PositionsSnoc(vs: seq<Vertex>, j: nat)
    requires j < |vs|
    ensures Positions(vs[..j + 1]) == Positions(vs[..j]) + [vs[j].position]
  {
  }

  lemma AllPositionsSnoc(meshes: seq<Mesh>, i: nat)
    requires i < |meshes|
    ensures AllPositions(meshes[..i + 1]) == AllPositions(meshes[..i]) + Positions(meshes[i].vertices)
  {
    assert meshes[..i + 1][..i] == meshes[..i];
  }

  /** The body of the inner loop: six independent comparisons. */
  method AccumulatePoint(b: Box, p: Vec3) returns (r: Box)
    ensures r == Accumulate(b, p)
    ensures Encloses(r, p)
  {
    r := b;
    if p.x > r.maxX { r := r.(maxX := p.x); }
    if p.x < r.minX { r := r.(minX := p.x); }
    if p.y > r.maxY { r := r.(maxY := p.y); }
    if p.y < r.minY { r := r.(minY := p.y); }
    if p.z > r.maxZ { r := r.(maxZ := p.z); }
    if p.z < r.minZ { r := r.(minZ := p.z); }
  }

  /** The inner loop over one mesh's vertices, continuing the fold over the
      positions seen so far. */
  method AccumulateMesh(start: Box, b: Box, vs: seq<Vertex>, ghost before: seq<Vec3>) returns (r: Box)
    requires b == Fold(start, before)
    ensures r == Fold(start, before + Positions(vs))
  {
    r := b;
    var j := 0;
    assert before + Positions(vs[..0]) == before;
    while j < |vs|
      invariant j <= |vs|
      invariant r == Fold(start, before + Positions(vs[..j]))
    {
      ghost var seen := before + Positions(vs[..j]);
      r := AccumulatePoint(r, vs[j].position);
      PositionsSnoc(vs, j);
      assert before + Positions(vs[..j + 1]) == seen + [vs[j].position];
      FoldSnoc(start, seen, vs[j].position);
      j := j + 1;
    }
    assert vs[..j] == vs;
  }

  /** The nested loop of `calculateModelMat`, from the accumulators
      `start`: it folds every vertex position of every mesh, in order. */
  method AccumulateBounds(meshes: seq<Mesh>, start: Box) returns (b: Box)
    ensures b == Fold(start, AllPositions(meshes))
  {
    b := start;
    var i := 0;
    while i < |meshes|
      invariant i <= |meshes|
      invariant b == Fold(start, AllPositions(meshes[..i]))
    {
      b := AccumulateMesh(start, b, meshes[i].vertices, AllPositions(meshes[..i]));
      AllPositionsSnoc(meshes, i);
      i := i + 1;
    }
    assert meshes[..i] == meshes;
  }

  /** With the accumulators the source starts from, the loop computes
      `BoxOf` of all positions. */
  method BoundsAsWritten(meshes: seq<Mesh>) returns (b: Box)
    ensures b == BoxOf(AllPositions(meshes))
  {
    b := AccumulateBounds(meshes, StartBox);
    BoxOfIsFold(AllPositions(meshes));
  }

  /** `glm::min(a, b)`. */
  function GlmMin(a: real, b: real): real {
    if b < a then b else a
  }

  /** The uniform scale: the smallest of `10 / extent` over the three axes. */
  function ScaleFactor(b: Box): real
    requires b.maxX - b.minX != 0.0 && b.maxY - b.minY != 0.0 && b.maxZ - b.minZ != 0.0
  {
    GlmMin(10.0 / (b.maxX - b.minX), GlmMin(10.0 / (b.maxY - b.minY), 10.0 / (b.maxZ - b.minZ)))
  }

  /** The translation as written: `+` the X and Z centers, `-minY`. */
  function Shift(b: Box): Vec3 {
    Vec3((b.minX + b.maxX) / 2.0, -b.minY, (b.minZ + b.maxZ) / 2.0)
  }

  /** `glm::translate(glm::scale(mat4(1.0), vec3(s)), t)`: a uniform scale
      by `s` whose translation `t` applies first. */
  function ScaledShift(s: real, t: Vec3): Mat4 {
    Translate(Scale(Identity(), Vec3(s, s, s)), t)
  }

  /** The matrix `calculateModelMat` returns for its accumulated box: the
      identity, scaled, then translated (so the translation applies first). */
  function ModelMatrix(b: Box): Mat4
    requires b.maxX - b.minX != 0.0 && b.maxY - b.minY != 0.0 && b.maxZ - b.minZ != 0.0
  {
    ScaledShift(ScaleFactor(b), Shift(b))
  }

  /** A uniform scale by `s` followed by a translation by `t` (applied
      first) maps `p` to `s * (p + t)`. */
  lemma ScaleTranslateAction(s: real, t: Vec3, p: Vec3)
    ensures Transform(ScaledShift(s, t), Vec4(p.x, p.y, p.z, 1.0)) ==
      Vec4(s * (p.x + t.x), s * (p.y + t.y), s * (p.z + t.z), 1.0)
  {
    var m := ScaledShift(s, t);
    assert m.c0 == Vec4(s, 0.0, 0.0, 0.0);
    assert m.c1 == Vec4(0.0, s, 0.0, 0.0);
    assert m.c2 == Vec4(0.0, 0.0, s, 0.0);
    assert m.c3 == Vec4(s * t.x, s * t.y, s * t.z, 1.0);
  }

  /** The model matrix maps a point `p` to `s * (p + t)`, with `s` the scale
      factor and `t` the shift. */
  lemma ModelMatrixAction(b: Box, p: Vec3)
    requires b.maxX - b.minX != 0.0 && b.maxY - b.minY != 0.0 && b.maxZ - b.minZ != 0.0
    ensures var s, t := ScaleFactor(b), Shift(b);
      Transform(ModelMatrix(b), Vec4(p.x, p.y, p.z, 1.0)) ==
        Vec4(s * (p.x + t.x), s * (p.y + t.y), s * (p.z + t.z), 1.0)
  {
    ScaleTranslateAction(ScaleFactor(b), Shift(b), p);
  }

  predicate PositiveExtents(b: Box) {
    b.maxX - b.minX > 0.0 && b.maxY - b.minY > 0.0 && b.maxZ - b.minZ > 0.0
  }

  /** `min(10/ex, 10/ey, 10/ez)` scales every extent to at most 10 and the
      longest to exactly 10. */
  lemma ScaleToTen(ex: real, ey: real, ez: real)
    requires ex > 0.0 && ey > 0.0 && ez > 0.0
    ensures var s := GlmMin(10.0 / ex, GlmMin(10.0 / ey, 10.0 / ez));
      && s > 0.0
      && s * ex <= 10.0 && s * ey <= 10.0 && s * ez <= 10.0
      && (s * ex == 10.0 || s * ey == 10.0 || s * ez == 10.0)
  {
    var s := GlmMin(10.0 / ex, GlmMin(10.0 / ey, 10.0 / ez));
    assert (10.0 / ex) * ex == 10.0 && (10.0 / ey) * ey == 10.0 && (10.0 / ez) * ez == 10.0;
    assert s * ex <= (10.0 / ex) * ex;
    assert s * ey <= (10.0 / ey) * ey;
    assert s * ez <= (10.0 / ez) * ez;
  }

  /** With positive extents the scaled box fits a 10-unit cube and fills it
      along its longest axis. */
  lemma NormalizedFits(b: Box)
    requires PositiveExtents(b)
    ensures var s := ScaleFactor(b);
      && s > 0.0
      && s * (b.maxX - b.minX) <= 10.0 && s * (b.maxY - b.minY) <= 10.0 && s * (b.maxZ - b.minZ) <= 10.0
      && (s * (b.maxX - b.minX) == 10.0 || s * (b.maxY - b.minY) == 10.0 || s * (b.maxZ - b.minZ) == 10.0)
  {
    ScaleToTen(b.maxX - b.minX, b.maxY - b.minY, b.maxZ - b.minZ);
  }

  /** The lowest point of the box lands on the floor, y = 0. */
  lemma LowestPointOnFloor(b: Box, x: real, z: real)
    requires b.maxX - b.minX != 0.0 && b.maxY - b.minY != 0.0 && b.maxZ - b.minZ != 0.0
    ensures Transform(ModelMatrix(b), Vec4(x, b.minY, z, 1.0)).y == 0.0
  {
    ModelMatrixAction(b, Vec3(x, b.minY, z));
  }

  function Point(p: Vec3): Vec4 {
    Vec4(p.x, p.y, p.z, 1.0)
  }

  /** The 10-unit cube the model is meant to fill: centered on the y axis
      and standing on y = 0. */
  predicate InCube(q: Vec4) {
    -5.0 <= q.x <= 5.0 && 0.0 <= q.y <= 10.0 && -5.0 <= q.z <= 5.0
  }

  /** No axis of the box has zero extent: the divisions by the extents are
      defined. */
  predicate NonDegenerate(b: Box) {
    b.maxX - b.minX != 0.0 && b.maxY - b.minY != 0.0 && b.maxZ - b.minZ != 0.0
  }

  /** Heights are right as written: a point of the box lands between the
      floor and height 10. */
  lemma FloorHeight(b: Box, p: Vec3)
    requires PositiveExtents(b) && Encloses(b, p)
    ensures 0.0 <= Transform(ModelMatrix(b), Vec4(p.x, p.y, p.z, 1.0)).y <= 10.0
  {
    NormalizedFits(b);
    ShiftedHeight(ScaleFactor(b), Shift(b), p, b.minY, b.maxY);
  }

  /** A uniform scale `s` after a shift of `-lo` in y puts a height in
      `[lo, hi]` into `[0, 10]` when `s * (hi - lo) <= 10`. */
  lemma ShiftedHeight(s: real, t: Vec3, p: Vec3, lo: real, hi: real)
    requires s > 0.0 && t.y == -lo && lo <= p.y <= hi && s * (hi - lo) <= 10.0
    ensures 0.0 <= Transform(ScaledShift(s, t), Vec4(p.x, p.y, p.z, 1.0)).y <= 10.0
  {
    ScaleTranslateAction(s, t, p);
    FloorCoordinate(s, lo, hi, p.y, t.y);
  }

  /** The as-written matrix over a box enclosing `ps` gives every point a
      height in [0, 10]. */
  lemma AsWrittenPlacement(b: Box, ps: seq<Vec3>)
    requires NonDegenerate(b)
    requires forall k :: 0 <= k < |ps| ==> Encloses(b, ps[k])
    ensures PositiveExtents(b) ==>
      forall i :: 0 <= i < |ps| ==> 0.0 <= Transform(ModelMatrix(b), Point(ps[i])).y <= 10.0
  {
    if PositiveExtents(b) {
      forall i | 0 <= i < |ps|
        ensures 0.0 <= Transform(ModelMatrix(b), Point(ps[i])).y <= 10.0
      {
        FloorHeight(b, ps[i]);
      }
    }
  }

  /** The max accumulators start at `FltMin`, the smallest positive
      float, not at the lowest one. A model lying entirely at negative x
      gets `maxX == FltMin` instead of its largest x. */
  lemma NegativeModelMaxAsWritten()
    ensures var b := BoxOf([Vec3(-2.0, -2.0, -2.0), Vec3(-1.0, -1.0, -1.0)]);
      b.maxX == FltMin && b.maxX != -1.0
  {
  }

  /** The corrected accumulators: every max starts at the lowest float,
      `-FltMax`. */
  const TightStart: Box := Box(FltMax, -FltMax, FltMax, -FltMax, FltMax, -FltMax)

  predicate InFloatRange(p: Vec3) {
    -FltMax <= p.x <= FltMax && -FltMax <= p.y <= FltMax && -FltMax <= p.z <= FltMax
  }

  /** The corrected bounds: for a non-empty set of float positions, every
      bound is the extreme coordinate of some position. */
  function TightBoxOf(ps: seq<Vec3>): (b: Box)
    ensures forall k :: 0 <= k < |ps| ==> Encloses(b, ps[k])
    ensures |ps| > 0 && (forall k :: 0 <= k < |ps| ==> InFloatRange(ps[k])) ==>
      && (exists k :: 0 <= k < |ps| && ps[k].x == b.maxX)
      && (exists k :: 0 <= k < |ps| && ps[k].y == b.maxY)
      && (exists k :: 0 <= k < |ps| && ps[k].z == b.maxZ)
      && (exists k :: 0 <= k < |ps| && ps[k].x == b.minX)
      && (exists k :: 0 <= k < |ps| && ps[k].y == b.minY)
      && (exists k :: 0 <= k < |ps| && ps[k].z == b.minZ)
  {
    if |ps| == 0 then TightStart
    else
      var prev := TightBoxOf(ps[..|ps| - 1]);
      assert forall k :: 0 <= k < |ps| - 1 ==> ps[..|ps| - 1][k] == ps[k];
      Accumulate(prev, ps[|ps| - 1])
  }

  lemma {:induction false} TightBoxOfIsFold(ps: seq<Vec3>)
    ensures TightBoxOf(ps) == Fold(TightStart, ps)
  {
    if |ps| > 0 {
      TightBoxOfIsFold(ps[..|ps| - 1]);
    }
  }

  /** The loop of `calculateModelMat` run from the corrected accumulators. */
  method TightBounds(meshes: seq<Mesh>) returns (b: Box)
    ensures b == TightBoxOf(AllPositions(meshes))
  {
    b := AccumulateBounds(meshes, TightStart);
    TightBoxOfIsFold(AllPositions(meshes));
  }

  /** The translation adds the X and Z centers where "move model
      to center" needs them subtracted, so the box's center lands at
      x = s * (minX + maxX): off the y axis unless the model was already
      centered on it. */
  lemma CenterDriftsAsWritten(b: Box, y: real)
    requires PositiveExtents(b)
    ensures var q := Transform(ModelMatrix(b), Vec4((b.minX + b.maxX) / 2.0, y, (b.minZ + b.maxZ) / 2.0, 1.0));
      && q.x == ScaleFactor(b) * (b.minX + b.maxX)
      && (q.x == 0.0 <==> b.minX + b.maxX == 0.0)
  {
    var s := ScaleFactor(b);
    assert s > 0.0 by { NormalizedFits(b); }
    DoubledCenter(s, Shift(b), Vec3((b.minX + b.maxX) / 2.0, y, (b.minZ + b.maxZ) / 2.0), b.minX + b.maxX);
  }

  /** Adding a center `c / 2` to a point at `c / 2` and scaling by `s > 0`
      lands it at `s * c`, which is 0 only when `c` is. */
  lemma DoubledCenter(s: real, t: Vec3, p: Vec3, c: real)
    requires s > 0.0 && t.x == c / 2.0 && p.x == c / 2.0
    ensures var q := Transform(ScaledShift(s, t), Vec4(p.x, p.y, p.z, 1.0));
      q.x == s * c && (q.x == 0.0 <==> c == 0.0)
  {
    ScaleTranslateAction(s, t, p);
    assert p.x + t.x == c;
  }

  /** The box [1, 3] x [0, 2] x [1, 3]: scale 5, and its center lands at
      x = 20. */
  lemma CenterDriftExample()
    ensures var b := Box(1.0, 3.0, 0.0, 2.0, 1.0, 3.0);
      Transform(ModelMatrix(b), Vec4(2.0, 1.0, 2.0, 1.0)).x == 20.0
  {
    var b := Box(1.0, 3.0, 0.0, 2.0, 1.0, 3.0);
    assert ScaleFactor(b) == 5.0;
    CenterDriftsAsWritten(b, 1.0);
  }

  /** The corrected translation: minus the X and Z centers, minus `minY`. */
  function CenteredShift(b: Box): Vec3 {
    Vec3(-(b.minX + b.maxX) / 2.0, -b.minY, -(b.minZ + b.maxZ) / 2.0)
  }

  function CenteredModelMatrix(b: Box): Mat4
    requires b.maxX - b.minX != 0.0 && b.maxY - b.minY != 0.0 && b.maxZ - b.minZ != 0.0
  {
    ScaledShift(ScaleFactor(b), CenteredShift(b))
  }

  /** `s * (v + t)` lies in `[-5, 5]` when `v` lies in `[lo, hi]`, `-t` is
      its midpoint and `s * (hi - lo) <= 10`. */
  lemma CenteredCoordinate(s: real, lo: real, hi: real, v: real, t: real)
    requires s > 0.0 && lo <= v <= hi && s * (hi - lo) <= 10.0 && t == -(lo + hi) / 2.0
    ensures -5.0 <= s * (v + t) <= 5.0
  {
    var d := v + t;
    assert -(hi - lo) / 2.0 <= d <= (hi - lo) / 2.0;
    assert s * d <= s * ((hi - lo) / 2.0);
    assert s * (-(hi - lo) / 2.0) <= s * d;
  }

  /** `s * (v + t)` lies in `[0, 10]` when `v` lies in `[lo, hi]`, `t` is
      `-lo` and `s * (hi - lo) <= 10`. */
  lemma FloorCoordinate(s: real, lo: real, hi: real, v: real, t: real)
    requires s > 0.0 && lo <= v <= hi && s * (hi - lo) <= 10.0 && t == -lo
    ensures 0.0 <= s * (v + t) <= 10.0
  {
    assert s * (v + t) <= s * (hi - lo);
  }

  /** A uniform scale `s` after the corrected shift puts a box's points in
      [-5, 5] x [0, 10] x [-5, 5] when `s` scales every extent to at most
      10. */
  lemma CenteredScaleFits(s: real, b: Box, p: Vec3)
    requires s > 0.0 && Encloses(b, p)
    requires s * (b.maxX - b.minX) <= 10.0 && s * (b.maxY - b.minY) <= 10.0 && s * (b.maxZ - b.minZ) <= 10.0
    ensures var q := Transform(ScaledShift(s, CenteredShift(b)), Vec4(p.x, p.y, p.z, 1.0));
      -5.0 <= q.x <= 5.0 && 0.0 <= q.y <= 10.0 && -5.0 <= q.z <= 5.0 && q.w == 1.0
  {
    var t := CenteredShift(b);
    ScaleTranslateAction(s, t, p);
    CenteredCoordinate(s, b.minX, b.maxX, p.x, t.x);
    FloorCoordinate(s, b.minY, b.maxY, p.y, t.y);
    CenteredCoordinate(s, b.minZ, b.maxZ, p.z, t.z);
  }

  /** The corrected matrix does what the source's comments promise: every
      point of a box with positive extents lands in the cube
      [-5, 5] x [0, 10] x [-5, 5]. */
  lemma CenteredModelMatrixFits(b: Box, p: Vec3)
    requires PositiveExtents(b) && Encloses(b, p)
    ensures var q := Transform(CenteredModelMatrix(b), Vec4(p.x, p.y, p.z, 1.0));
      -5.0 <= q.x <= 5.0 && 0.0 <= q.y <= 10.0 && -5.0 <= q.z <= 5.0 && q.w == 1.0
  {
    NormalizedFits(b);
    CenteredScaleFits(ScaleFactor(b), b, p);
  }

  /** Under the corrected matrix the box's center lands on the y axis. */
  lemma CenteredModelMatrixCenters(b: Box, y: real)
    requires b.maxX - b.minX != 0.0 && b.maxY - b.minY != 0.0 && b.maxZ - b.minZ != 0.0
    ensures var q := Transform(CenteredModelMatrix(b), Vec4((b.minX + b.maxX) / 2.0, y, (b.minZ + b.maxZ) / 2.0, 1.0));
      q.x == 0.0 && q.z == 0.0
  {
    var t := CenteredShift(b);
    ScaleTranslateAction(ScaleFactor(b), t, Vec3((b.minX + b.maxX) / 2.0, y, (b.minZ + b.maxZ) / 2.0));
    assert (b.minX + b.maxX) / 2.0 + t.x == 0.0;
    assert (b.minZ + b.maxZ) / 2.0 + t.z == 0.0;
  }

  /** `calculateModelMat()` as written: the bounds loop from `StartBox`
      (its result is `BoxOf`, by `BoundsAsWritten`), then scale and the
      `+center` translation. Every vertex gets a height in [0, 10]; where
      the center of the bounds lands is `CenterDriftsAsWritten`. */
  method ModelMatAsWritten(meshes: seq<Mesh>) returns (mat: Mat4)
    requires NonDegenerate(Fold(StartBox, AllPositions(meshes)))
    ensures mat == ModelMatrix(Fold(StartBox, AllPositions(meshes)))
    ensures PositiveExtents(Fold(StartBox, AllPositions(meshes))) ==>
      forall i :: 0 <= i < |AllPositions(meshes)| ==> 0.0 <= Transform(mat, Point(AllPositions(meshes)[i])).y <= 10.0
  {
    var b := AccumulateBounds(meshes, StartBox);
    mat := ModelMatrix(b);
    FoldEncloses(StartBox, AllPositions(meshes));
    AsWrittenPlacement(b, AllPositions(meshes));
  }

  /** `calculateModelMat()` with both findings corrected: bounds from
      `TightStart`, translation by minus the center. Every vertex lands in
      the 10-unit cube. */
  method CenteredModelMat(meshes: seq<Mesh>) returns (mat: Mat4)
    requires NonDegenerate(TightBoxOf(AllPositions(meshes)))
    ensures mat == CenteredModelMatrix(TightBoxOf(AllPositions(meshes)))
    ensures forall i :: 0 <= i < |AllPositions(meshes)| ==> InCube(Transform(mat, Point(AllPositions(meshes)[i])))
  {
    var b := TightBounds(meshes);
    mat := CenteredModelMatrix(b);
    var ps := AllPositions(meshes);
    if |ps| > 0 {
      assert Encloses(b, ps[0]);
      forall i | 0 <= i < |ps|
        ensures InCube(Transform(mat, Point(ps[i])))
      {
        CenteredModelMatrixFits(b, ps[i]);
      }
    }
  }
}
