/** src/mesh.h: one renderable mesh, its GPU objects reduced to names, its
    draw and its instance buffer. */
module MeshResource {
  import opened Glm
  import opened Gl
  import opened Global
  import opened ShaderUniforms

  datatype Vertex = Vertex(position: Vec3, normal: Vec3, texCoord: Vec2)

  /** `vertexArray` is the VAO made by `setupMesh`; `instanceBuffer` is 0
      until `setInstances` first runs; `instanceData` is what that buffer
      holds. */
  datatype Mesh = Mesh(
    vertices: seq<Vertex>,
    indices: seq<nat>,
    material: Material,
    vertexArray: Name,
    instanceBuffer: nat,
    instanceCount: int,
    instanceData: seq<Vec3>)

  /** One `glVertexAttribPointer` call: attribute location, component count,
      byte stride, byte offset, and the `glVertexAttribDivisor` in force. */
  datatype Attribute = Attribute(location: nat, components: nat, stride: nat, offset: nat, divisor: nat)

  /** `sizeof(float)` and `sizeof(Vertex)` (three, three and two floats). */
  const FloatSize: nat := 4
  const VertexSize: nat := 8 * FloatSize

  /** The per-vertex layout `setupMesh` declares. */
  const VertexLayout: seq<Attribute> := [
    Attribute(0, 3, VertexSize, 0, 0),
    Attribute(1, 3, VertexSize, 3 * FloatSize, 0),
    Attribute(2, 2, VertexSize, 6 * FloatSize, 0)
  ]

  /** The per-instance position attribute `setInstances` declares. */
  const InstanceAttribute: Attribute := Attribute(3, 3, 3 * FloatSize, 0, 1)

  /** The vertex attributes tile one `Vertex` exactly: each fits in the
      stride, none overlaps another, and together they cover all 32 bytes
      in declaration order (position, normal, texture coordinate). The
      instance attribute uses a location of its own and advances once per
      instance. */
  lemma LayoutTilesVertex()
    ensures forall i :: 0 <= i < |VertexLayout| ==>
      VertexLayout[i].location == i && VertexLayout[i].stride == VertexSize &&
      VertexLayout[i].divisor == 0 &&
      VertexLayout[i].offset + VertexLayout[i].components * FloatSize <= VertexSize
    ensures forall i :: 0 <= i < |VertexLayout| - 1 ==>
      VertexLayout[i].offset + VertexLayout[i].components * FloatSize == VertexLayout[i + 1].offset
    ensures VertexLayout[0].offset == 0
    ensures forall i :: 0 <= i < |VertexLayout| ==> VertexLayout[i].location != InstanceAttribute.location
    ensures InstanceAttribute.divisor == 1 && InstanceAttribute.components * FloatSize == InstanceAttribute.stride
  {
  }

  /** The `Mesh` constructor: stores its arguments and runs `setupMesh`,
      which takes a vertex array and two buffers (vertex and element) from
      the name supply. */
  function NewMesh(vertices: seq<Vertex>, indices: seq<nat>, material: Material, ns: Names): (r: (Mesh, Names))
    ensures r.0.vertices == vertices && r.0.indices == indices && r.0.material == material
    ensures r.0.vertexArray == ns.nextVertexArray
    ensures r.0.instanceBuffer == 0 && r.0.instanceCount == 0
    ensures r.1.nextTexture == ns.nextTexture
    ensures r.1.nextVertexArray == ns.nextVertexArray + 1 && r.1.nextBuffer == ns.nextBuffer + 2
  {
    var (vao, n1) := GenVertexArray(ns);
    var (_, n2) := GenBuffer(n1);
    var (_, n3) := GenBuffer(n2);
    (Mesh(vertices, indices, material, vao, 0, 0, []), n3)
  }

  /** `draw`: diffuse then specular from texture unit 0, then one indexed
      triangle draw over the whole index buffer. */
  function Draw(m: Mesh, sh: Shader): (r: (Shader, DrawCall))
    ensures r.1 == DrawElements(m.vertexArray, |m.indices|)
    ensures r.0.units == sh.units[0 := m.material.diffuseTexture][1 := m.material.specularTexture]
    ensures Holds(r.0, DiffTex, IntU(0)) && Holds(r.0, SpecTex, IntU(1))
    ensures Holds(r.0, DiffColor, Vec3U(m.material.diffuseColor))
    ensures Holds(r.0, SpecColor, Vec3U(m.material.specularColor))
  {
    var (s, _) := SetMaterial(sh, m.material, 0);
    (s, DrawElements(m.vertexArray, |m.indices|))
  }

  /** `draw` never reads the instance state: the same draw happens before
      and after any `setInstances`. */
  lemma DrawIgnoresInstances(m: Mesh, sh: Shader, buffer: nat, count: int, data: seq<Vec3>)
    ensures Draw(m.(instanceBuffer := buffer, instanceCount := count, instanceData := data), sh) == Draw(m, sh)
  {
  }

  /** `setInstances(posArray, count)`: takes a buffer name only when the mesh
      has none yet, then overwrites the buffer's contents and the count. */
  function SetInstances(m: Mesh, positions: seq<Vec3>, ns: Names): (r: (Mesh, Names))
    ensures r.0.instanceBuffer != 0
    ensures m.instanceBuffer != 0 ==> r.0.instanceBuffer == m.instanceBuffer && r.1 == ns
    ensures m.instanceBuffer == 0 ==> r.0.instanceBuffer == ns.nextBuffer && r.1.nextBuffer == ns.nextBuffer + 1
    ensures r.1.nextTexture == ns.nextTexture && r.1.nextVertexArray == ns.nextVertexArray
    ensures r.0.instanceData == positions && r.0.instanceCount == |positions|
    ensures r.0.vertices == m.vertices && r.0.indices == m.indices && r.0.material == m.material
    ensures r.0.vertexArray == m.vertexArray
  {
    var (buf, ns') := if m.instanceBuffer == 0 then GenBuffer(ns) else (m.instanceBuffer, ns);
    (m.(instanceBuffer := buf, instanceData := positions, instanceCount := |positions|), ns')
  }

  /** However many times `setInstances` runs, the buffer is created once:
      the second call keeps the first call's name, takes no new name, and
      only the most recent positions and count remain. */
  lemma SetInstancesCreatesOnce(m: Mesh, p1: seq<Vec3>, p2: seq<Vec3>, ns: Names)
    ensures var (m1, ns1) := SetInstances(m, p1, ns);
            var (m2, ns2) := SetInstances(m1, p2, ns1);
            && m2.instanceBuffer == m1.instanceBuffer
            && ns2 == ns1
            && m2.instanceCount == |p2| && m2.instanceData == p2
  {
  }
}
