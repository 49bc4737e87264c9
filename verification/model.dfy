/** src/model.h: importing a scene into meshes with materials and a shared
    texture cache, normalizing it into a 10-unit cube, and drawing it. The
    importer's output (an `aiScene` after triangulation) is an input
    datatype. */
module ModelImport {
  import opened Wrappers
  import opened Glm
  import opened Gl
  import opened Global
  import opened ShaderUniforms
  import opened MeshResource
  import opened TextureCache
  import opened Normalization

  // ---------------------------------------------------------------------
  // The imported scene.
  // ---------------------------------------------------------------------

  /** An `aiMesh`: per-vertex positions and normals, the first texture
      coordinate channel if there is one, faces as index lists, and the
      index of its material in the scene. */
  datatype AiMesh = AiMesh(
    positions: seq<Vec3>,
    normals: seq<Vec3>,
    texCoords: Option<seq<Vec2>>,
    faces: seq<seq<nat>>,
    materialIndex: nat)

  /** An `aiMaterial`, reduced to what `loadMaterials` asks of it: the
      diffuse and specular texture file names, and each scalar or color
      property, `None` when the material does not define it. */
  datatype AiMaterial = AiMaterial(
    diffuseTextures: seq<string>,
    specularTextures: seq<string>,
    diffuseColor: Option<Vec3>,
    specularColor: Option<Vec3>,
    shininess: Option<real>,
    shininessStrength: Option<real>)

  /** An `aiNode`: indices into the scene's meshes, and child nodes. */
  datatype Node = Node(meshes: seq<nat>, children: seq<Node>)

  /** An `aiScene` with its root node. */
  datatype Scene = Scene(meshes: seq<AiMesh>, materials: seq<AiMaterial>, root: Node)

  /** What `processMesh` reads without checking: a normal per vertex, a
      texture coordinate per vertex when the channel exists, and a material
      index the scene has. */
  predicate MeshWellFormed(m: AiMesh, materialCount: nat) {
    && |m.normals| == |m.positions|
    && (m.texCoords.Some? ==> |m.texCoords.value| == |m.positions|)
    && m.materialIndex < materialCount
  }

  /** Every mesh index of every node below `n` names a scene mesh. */
  predicate NodeRefsValid(n: Node, meshCount: nat)
    decreases n
  {
    && (forall i :: 0 <= i < |n.meshes| ==> n.meshes[i] < meshCount)
    && (forall k :: 0 <= k < |n.children| ==> NodeRefsValid(n.children[k], meshCount))
  }

  predicate SceneWellFormed(s: Scene) {
    && (forall i :: 0 <= i < |s.meshes| ==> MeshWellFormed(s.meshes[i], |s.materials|))
    && NodeRefsValid(s.root, |s.meshes|)
  }

  // ---------------------------------------------------------------------
  // Materials.
  // ---------------------------------------------------------------------

  /** The handle the cache holds for the first texture name, or `fallback`
      when there is no name. */
  function CachedHandle(textures: seq<string>, fallback: nat, c: Cache): nat {
    if |textures| > 0 && textures[0] in c.entries then c.entries[textures[0]] else fallback
  }

  /** The first texture name, if any, is in the cache. */
  predicate Cached(textures: seq<string>, c: Cache) {
    |textures| > 0 ==> textures[0] in c.entries
  }

  /** The material `loadMaterials` produces from `m` over `base`, described
      against the final cache: each texture is the cached handle of its first
      file name, each property present in `m` overrides `base`, and the
      black-diffuse correction is applied last. */
  function ExpectedMaterial(m: AiMaterial, base: Material, c: Cache): Material {
    CorrectBlackDiffuse(Material(
      CachedHandle(m.diffuseTextures, base.diffuseTexture, c),
      m.diffuseColor.GetOr(base.diffuseColor),
      CachedHandle(m.specularTextures, base.specularTexture, c),
      m.specularColor.GetOr(base.specularColor),
      m.shininess.GetOr(base.shininess),
      m.shininessStrength.GetOr(base.shininessStrength)))
  }

  /** A cache that grows keeps every handle `ExpectedMaterial` looked up. */
  lemma ExpectedMaterialStable(m: AiMaterial, base: Material, c: Cache, c': Cache)
    requires Cached(m.diffuseTextures, c) && Cached(m.specularTextures, c) && Extends(c, c')
    ensures Cached(m.diffuseTextures, c') && Cached(m.specularTextures, c')
    ensures ExpectedMaterial(m, base, c') == ExpectedMaterial(m, base, c)
  {
  }

  /** `loadFloat` and `loadColor`: the property overwrites the field only
      when the material defines it. */
  function LoadProperty<T>(field: T, property: Option<T>): (r: T)
    ensures property.Some? ==> r == property.value
    ensures property.None? ==> r == field
  {
    match property
    case Some(v) => v
    case None => field
  }

  datatype MaterialLoad = MaterialLoad(material: Material, cache: Cache, names: Names)

  /** `loadMaterials(aiMtl, mtl)`: diffuse texture, diffuse color, specular
      texture, specular color, shininess and its strength, then the
      black-diffuse correction. Textures go through the shared cache. */
  function LoadMaterials(m: AiMaterial, mtl: Material, c: Cache, ns: Names, directory: string, decode: Decoder): (r: MaterialLoad)
    ensures r.material == ExpectedMaterial(m, mtl, r.cache)
    ensures Cached(m.diffuseTextures, r.cache) && Cached(m.specularTextures, r.cache)
    ensures TextureVisible(r.material)
    ensures Extends(c, r.cache) && (Valid(c) ==> Valid(r.cache))
    ensures |r.cache.decoded| <= |c.decoded| + 2
    ensures r.names.nextVertexArray == ns.nextVertexArray && r.names.nextBuffer == ns.nextBuffer
  {
    var d := LoadTexture(c, ns, directory, m.diffuseTextures, Diffuse, mtl.diffuseTexture, decode);
    var diffuseColor := LoadProperty(mtl.diffuseColor, m.diffuseColor);
    var s := LoadTexture(d.cache, d.names, directory, m.specularTextures, Specular, mtl.specularTexture, decode);
    var specularColor := LoadProperty(mtl.specularColor, m.specularColor);
    var shininess := LoadProperty(mtl.shininess, m.shininess);
    var strength := LoadProperty(mtl.shininessStrength, m.shininessStrength);
    var loaded := Material(d.handle, diffuseColor, s.handle, specularColor, shininess, strength);
    ExtendsTransitive(c, d.cache, s.cache);
    MaterialLoad(CorrectBlackDiffuse(loaded), s.cache, s.names)
  }

  /** A material that defines nothing loads as the default material, and
      touches neither the cache nor the name supply. */
  lemma EmptyMaterialIsDefault(c: Cache, ns: Names, directory: string, decode: Decoder)
    ensures LoadMaterials(AiMaterial([], [], None, None, None, None), DefaultMaterial, c, ns, directory, decode)
      == MaterialLoad(DefaultMaterial, c, ns)
  {
    DefaultMaterialIsStable();
  }

  /** Loading the same material again, as a second mesh sharing it does,
      yields the same material, decodes nothing and takes no names. */
  lemma LoadMaterialsAgain(m: AiMaterial, c: Cache, ns: Names, directory: string, decode: Decoder)
    ensures var first := LoadMaterials(m, DefaultMaterial, c, ns, directory, decode);
      LoadMaterials(m, DefaultMaterial, first.cache, first.names, directory, decode) == first
  {
    var first := LoadMaterials(m, DefaultMaterial, c, ns, directory, decode);
    var second := LoadMaterials(m, DefaultMaterial, first.cache, first.names, directory, decode);
    assert second.cache == first.cache;
    assert second.names == first.names;
  }

  // ---------------------------------------------------------------------
  // Meshes.
  // ---------------------------------------------------------------------

  /** The texture coordinate of vertex `i`: from the first channel when the
      mesh has one. */
  function TexCoordOf(m: AiMesh, i: nat): Vec2
    requires m.texCoords.Some? ==> i < |m.texCoords.value|
  {
    if m.texCoords.Some? then m.texCoords.value[i] else Vec2(0.0, 0.0)
  }

  /** The vertex loop of `processMesh`: one vertex per position, with its
      normal and texture coordinate. */
  function ExtractVertices(m: AiMesh): (vs: seq<Vertex>)
    requires |m.normals| == |m.positions|
    requires m.texCoords.Some? ==> |m.texCoords.value| == |m.positions|
    ensures |vs| == |m.positions| && Positions(vs) == m.positions
    ensures forall i :: 0 <= i < |vs| ==> vs[i].normal == m.normals[i] && vs[i].texCoord == TexCoordOf(m, i)
  {
    seq(|m.positions|, i requires 0 <= i < |m.positions| => Vertex(m.positions[i], m.normals[i], TexCoordOf(m, i)))
  }

  /** The index loop of `processMesh`: every face's indices, face after
      face. */
  function Flatten(faces: seq<seq<nat>>): seq<nat> {
    if |faces| == 0 then [] else Flatten(faces[..|faces| - 1]) + faces[|faces| - 1]
  }

  /** After triangulation every face has three indices, so face `k` is
      indices `3k`, `3k+1`, `3k+2` and the index buffer has three indices
      per face. */
  lemma {:induction false} FlattenTriangles(faces: seq<seq<nat>>)
    requires forall k :: 0 <= k < |faces| ==> |faces[k]| == 3
    ensures |Flatten(faces)| == 3 * |faces|
    ensures forall k, j :: 0 <= k < |faces| && 0 <= j < 3 ==> Flatten(faces)[3 * k + j] == faces[k][j]
  {
    if |faces| > 0 {
      var init := faces[..|faces| - 1];
      FlattenTriangles(init);
      forall k, j | 0 <= k < |faces| && 0 <= j < 3
        ensures Flatten(faces)[3 * k + j] == faces[k][j]
      {
        if k < |faces| - 1 {
          assert init[k] == faces[k];
        }
      }
    }
  }

  /** Every index of the flattened buffer occurs in some face, so faces that
      only name existing vertices give an index buffer that does too. */
  lemma {:induction false} FlattenBounded(faces: seq<seq<nat>>, n: nat)
    requires forall k, j :: 0 <= k < |faces| && 0 <= j < |faces[k]| ==> faces[k][j] < n
    ensures forall t :: 0 <= t < |Flatten(faces)| ==> Flatten(faces)[t] < n
  {
    if |faces| > 0 {
      var init := faces[..|faces| - 1];
      forall k, j | 0 <= k < |init| && 0 <= j < |init[k]|
        ensures init[k][j] < n
      {
        assert init[k] == faces[k];
      }
      FlattenBounded(init, n);
    }
  }

  datatype MeshLoad = MeshLoad(mesh: Mesh, cache: Cache, names: Names)

  /** `processMesh`: vertices, indices and the material (loaded from a
      default one), then the `Mesh` constructor. */
  function ProcessMesh(scene: Scene, a: AiMesh, c: Cache, ns: Names, directory: string, decode: Decoder): (r: MeshLoad)
    requires MeshWellFormed(a, |scene.materials|)
    ensures r.mesh.vertices == ExtractVertices(a) && r.mesh.indices == Flatten(a.faces)
    ensures r.mesh.material == ExpectedMaterial(scene.materials[a.materialIndex], DefaultMaterial, r.cache)
    ensures Cached(scene.materials[a.materialIndex].diffuseTextures, r.cache)
    ensures Cached(scene.materials[a.materialIndex].specularTextures, r.cache)
    ensures r.mesh.vertexArray == ns.nextVertexArray && r.names.nextVertexArray == ns.nextVertexArray + 1
    ensures Extends(c, r.cache) && (Valid(c) ==> Valid(r.cache))
  {
    var vertices := ExtractVertices(a);
    var indices := Flatten(a.faces);
    var ml := LoadMaterials(scene.materials[a.materialIndex], DefaultMaterial, c, ns, directory, decode);
    var (mesh, ns') := NewMesh(vertices, indices, ml.material, ml.names);
    MeshLoad(mesh, ml.cache, ns')
  }

  // ---------------------------------------------------------------------
  // The node traversal.
  // ---------------------------------------------------------------------

  /** The meshes collected so far, the texture cache and the name supply. */
  datatype Progress = Progress(meshes: seq<Mesh>, cache: Cache, names: Names)

  /** The scene's mesh indices in the order `processNode` visits them: a
      node's own meshes, then each child's subtree in turn. */
  function PreOrder(n: Node): seq<nat>
    decreases n, 1, 0
  {
    n.meshes + PreOrderFrom(n, 0)
  }

  function PreOrderFrom(n: Node, i: nat): seq<nat>
    requires i <= |n.children|
    decreases n, 0, |n.children| - i
  {
    if i == |n.children| then [] else PreOrder(n.children[i]) + PreOrderFrom(n, i + 1)
  }

  /** The first loop of `processNode`: `processMesh` for each listed mesh,
      appended in order. */
  function ProcessMeshes(scene: Scene, ids: seq<nat>, st: Progress, directory: string, decode: Decoder): (r: Progress)
    requires SceneWellFormed(scene)
    requires forall i :: 0 <= i < |ids| ==> ids[i] < |scene.meshes|
    ensures |r.meshes| == |st.meshes| + |ids| && r.meshes[..|st.meshes|] == st.meshes
    ensures r.names.nextVertexArray == st.names.nextVertexArray + |ids|
    ensures Extends(st.cache, r.cache) && (Valid(st.cache) ==> Valid(r.cache))
  {
    if |ids| == 0 then st
    else
      var prev := ProcessMeshes(scene, ids[..|ids| - 1], st, directory, decode);
      var ml := ProcessMesh(scene, scene.meshes[ids[|ids| - 1]], prev.cache, prev.names, directory, decode);
      ExtendsTransitive(st.cache, prev.cache, ml.cache);
      assert (prev.meshes + [ml.mesh])[..|st.meshes|] == prev.meshes[..|st.meshes|];
      Progress(prev.meshes + [ml.mesh], ml.cache, ml.names)
  }

  /** `processNode`: the node's meshes, then each child recursively. */
  function ProcessNode(scene: Scene, n: Node, st: Progress, directory: string, decode: Decoder): (r: Progress)
    requires SceneWellFormed(scene) && NodeRefsValid(n, |scene.meshes|)
    ensures |r.meshes| == |st.meshes| + |PreOrder(n)| && r.meshes[..|st.meshes|] == st.meshes
    ensures r.names.nextVertexArray == st.names.nextVertexArray + |PreOrder(n)|
    ensures Extends(st.cache, r.cache) && (Valid(st.cache) ==> Valid(r.cache))
    decreases n, 1, 0
  {
    var own := ProcessMeshes(scene, n.meshes, st, directory, decode);
    var r := ProcessChildren(scene, n, 0, own, directory, decode);
    ExtendsTransitive(st.cache, own.cache, r.cache);
    assert r.meshes[..|st.meshes|] == r.meshes[..|own.meshes|][..|st.meshes|];
    r
  }

  /** The second loop of `processNode`, from child `i` on. */
  function ProcessChildren(scene: Scene, n: Node, i: nat, st: Progress, directory: string, decode: Decoder): (r: Progress)
    requires SceneWellFormed(scene) && NodeRefsValid(n, |scene.meshes|) && i <= |n.children|
    ensures |r.meshes| == |st.meshes| + |PreOrderFrom(n, i)| && r.meshes[..|st.meshes|] == st.meshes
    ensures r.names.nextVertexArray == st.names.nextVertexArray + |PreOrderFrom(n, i)|
    ensures Extends(st.cache, r.cache) && (Valid(st.cache) ==> Valid(r.cache))
    decreases n, 0, |n.children| - i
  {
    if i == |n.children| then st
    else
      var child := ProcessNode(scene, n.children[i], st, directory, decode);
      var r := ProcessChildren(scene, n, i + 1, child, directory, decode);
      ExtendsTransitive(st.cache, child.cache, r.cache);
      assert r.meshes[..|st.meshes|] == r.meshes[..|child.meshes|][..|st.meshes|];
      r
  }

  // ---------------------------------------------------------------------
  // What the traversal builds.
  // ---------------------------------------------------------------------

  /** `m` is the mesh `processMesh` builds from `a`, with its material
      described against cache `c`. */
  ghost predicate Imported(scene: Scene, m: Mesh, a: AiMesh, c: Cache)
    requires MeshWellFormed(a, |scene.materials|)
  {
    var mat := scene.materials[a.materialIndex];
    && m.vertices == ExtractVertices(a) && m.indices == Flatten(a.faces)
    && Cached(mat.diffuseTextures, c) && Cached(mat.specularTextures, c)
    && m.material == ExpectedMaterial(mat, DefaultMaterial, c)
  }

  /** `meshes[k]` was imported from scene mesh `order[k]`, and took vertex
      array name `firstVao + k`. */
  ghost predicate ImportedFrom(scene: Scene, meshes: seq<Mesh>, order: seq<nat>, c: Cache, firstVao: nat)
    requires SceneWellFormed(scene)
  {
    && |meshes| == |order|
    && forall k :: 0 <= k < |order| ==>
      && order[k] < |scene.meshes|
      && Imported(scene, meshes[k], scene.meshes[order[k]], c)
      && meshes[k].vertexArray == firstVao + k
  }

  lemma ImportedFromStable(scene: Scene, meshes: seq<Mesh>, order: seq<nat>, c: Cache, c': Cache, firstVao: nat)
    requires SceneWellFormed(scene) && ImportedFrom(scene, meshes, order, c, firstVao) && Extends(c, c')
    ensures ImportedFrom(scene, meshes, order, c', firstVao)
  {
    forall k | 0 <= k < |order|
      ensures Imported(scene, meshes[k], scene.meshes[order[k]], c')
    {
      var a := scene.meshes[order[k]];
      ExpectedMaterialStable(scene.materials[a.materialIndex], DefaultMaterial, c, c');
    }
  }

  lemma AppendAssociative(a: seq<nat>, b: seq<nat>, c: seq<nat>)
    ensures a + (b + c) == (a + b) + c
  {
  }

  lemma {:induction false} ProcessMeshesImports(scene: Scene, ids: seq<nat>, st: Progress, directory: string, decode: Decoder,
                                               order: seq<nat>, firstVao: nat)
    requires SceneWellFormed(scene)
    requires forall i :: 0 <= i < |ids| ==> ids[i] < |scene.meshes|
    requires ImportedFrom(scene, st.meshes, order, st.cache, firstVao)
    requires st.names.nextVertexArray == firstVao + |st.meshes|
    ensures var r := ProcessMeshes(scene, ids, st, directory, decode);
      ImportedFrom(scene, r.meshes, order + ids, r.cache, firstVao)
  {
    if |ids| > 0 {
      var init := ids[..|ids| - 1];
      var prev := ProcessMeshes(scene, init, st, directory, decode);
      ProcessMeshesImports(scene, init, st, directory, decode, order, firstVao);
      var id := ids[|ids| - 1];
      var ml := ProcessMesh(scene, scene.meshes[id], prev.cache, prev.names, directory, decode);
      ImportedFromStable(scene, prev.meshes, order + init, prev.cache, ml.cache, firstVao);
      ImportedFromAppend(scene, prev.meshes, order + init, ml.cache, firstVao, ml.mesh, id);
      assert order + ids == (order + init) + [id];
    }
  }

  /** Appending the mesh imported from scene mesh `id`, under the next
      vertex array name, extends the record by one. */
  lemma ImportedFromAppend(scene: Scene, meshes: seq<Mesh>, order: seq<nat>, c: Cache, firstVao: nat, m: Mesh, id: nat)
    requires SceneWellFormed(scene) && ImportedFrom(scene, meshes, order, c, firstVao)
    requires id < |scene.meshes| && Imported(scene, m, scene.meshes[id], c)
    requires m.vertexArray == firstVao + |meshes|
    ensures ImportedFrom(scene, meshes + [m], order + [id], c, firstVao)
  {
    var ms, os := meshes + [m], order + [id];
    forall k | 0 <= k < |os|
      ensures os[k] < |scene.meshes| && Imported(scene, ms[k], scene.meshes[os[k]], c) && ms[k].vertexArray == firstVao + k
    {
      if k < |order| {
        assert ms[k] == meshes[k] && os[k] == order[k];
      }
    }
  }

  lemma {:induction false} ProcessNodeImports(scene: Scene, n: Node, st: Progress, directory: string, decode: Decoder,
                                             order: seq<nat>, firstVao: nat)
    requires SceneWellFormed(scene) && NodeRefsValid(n, |scene.meshes|)
    requires ImportedFrom(scene, st.meshes, order, st.cache, firstVao)
    requires st.names.nextVertexArray == firstVao + |st.meshes|
    ensures var r := ProcessNode(scene, n, st, directory, decode);
      ImportedFrom(scene, r.meshes, order + PreOrder(n), r.cache, firstVao)
    decreases n, 1, 0
  {
    var own := ProcessMeshes(scene, n.meshes, st, directory, decode);
    ProcessMeshesImports(scene, n.meshes, st, directory, decode, order, firstVao);
    assert own.names.nextVertexArray == firstVao + |own.meshes|;
    assert ProcessNode(scene, n, st, directory, decode) == ProcessChildren(scene, n, 0, own, directory, decode);
    ProcessChildrenImports(scene, n, 0, own, directory, decode, order + n.meshes, firstVao);
    assert PreOrder(n) == n.meshes + PreOrderFrom(n, 0);
    AppendAssociative(order, n.meshes, PreOrderFrom(n, 0));
  }

  lemma {:induction false} ProcessChildrenImports(scene: Scene, n: Node, i: nat, st: Progress, directory: string, decode: Decoder,
                                                 order: seq<nat>, firstVao: nat)
    requires SceneWellFormed(scene) && NodeRefsValid(n, |scene.meshes|) && i <= |n.children|
    requires ImportedFrom(scene, st.meshes, order, st.cache, firstVao)
    requires st.names.nextVertexArray == firstVao + |st.meshes|
    ensures var r := ProcessChildren(scene, n, i, st, directory, decode);
      ImportedFrom(scene, r.meshes, order + PreOrderFrom(n, i), r.cache, firstVao)
    decreases n, 0, |n.children| - i
  {
    if i < |n.children| {
      var child := ProcessNode(scene, n.children[i], st, directory, decode);
      ProcessNodeImports(scene, n.children[i], st, directory, decode, order, firstVao);
      ProcessChildrenImports(scene, n, i + 1, child, directory, decode, order + PreOrder(n.children[i]), firstVao);
      assert PreOrderFrom(n, i) == PreOrder(n.children[i]) + PreOrderFrom(n, i + 1);
      AppendAssociative(order, PreOrder(n.children[i]), PreOrderFrom(n, i + 1));
    }
  }

  // ---------------------------------------------------------------------
  // Loading and drawing a model.
  // ---------------------------------------------------------------------

  /** The state `loadModel` leaves: the meshes, the texture directory, the
      texture cache, and the name supply. */
  datatype SceneImport = SceneImport(meshes: seq<Mesh>, directory: string, cache: Cache, names: Names)

  /** `loadModel(path)`. `incomplete` is the scene's
      `AI_SCENE_FLAGS_INCOMPLETE`: it is only reported, and the import goes
      on. The directory is taken before the traversal, so every texture is
      looked up beside the model file. */
  function LoadModel(path: string, scene: Scene, incomplete: bool, ns: Names, decode: Decoder): (r: SceneImport)
    requires SceneWellFormed(scene)
    ensures r.directory == Directory(path)
    ensures ImportedFrom(scene, r.meshes, PreOrder(scene.root), r.cache, ns.nextVertexArray)
    ensures Valid(r.cache)
    ensures r.names.nextVertexArray == ns.nextVertexArray + |r.meshes|
  {
    var directory := Directory(path);
    var st := Progress([], EmptyCache, ns);
    var r := ProcessNode(scene, scene.root, st, directory, decode);
    ProcessNodeImports(scene, scene.root, st, directory, decode, [], ns.nextVertexArray);
    assert [] + PreOrder(scene.root) == PreOrder(scene.root);
    SceneImport(r.meshes, directory, r.cache, r.names)
  }

  /** The incomplete-scene flag changes nothing the import does. */
  lemma IncompleteSceneImportsAnyway(path: string, scene: Scene, ns: Names, decode: Decoder)
    requires SceneWellFormed(scene)
    ensures LoadModel(path, scene, true, ns, decode) == LoadModel(path, scene, false, ns, decode)
  {
  }

  /** A loaded model: its meshes, directory and texture cache, and the
      matrix that normalizes it. */
  datatype Model = Model(meshes: seq<Mesh>, directory: string, cache: Cache, modelMat: Mat4)

  /** The constructor `Model(path)`: `loadModel`, then the model matrix,
      here with the corrected bounds and centering. Every vertex of every
      mesh ends up in the 10-unit cube. */
  method NewModel(path: string, scene: Scene, incomplete: bool, ns: Names, decode: Decoder) returns (m: Model, ns': Names)
    requires SceneWellFormed(scene)
    requires NonDegenerate(TightBoxOf(AllPositions(LoadModel(path, scene, incomplete, ns, decode).meshes)))
    ensures m.meshes == LoadModel(path, scene, incomplete, ns, decode).meshes
    ensures m.directory == Directory(path)
    ensures ImportedFrom(scene, m.meshes, PreOrder(scene.root), m.cache, ns.nextVertexArray)
    ensures Valid(m.cache)
    ensures ns'.nextVertexArray == ns.nextVertexArray + |m.meshes|
    ensures m.modelMat == CenteredModelMatrix(TightBoxOf(AllPositions(m.meshes)))
    ensures forall i :: 0 <= i < |AllPositions(m.meshes)| ==> InCube(Transform(m.modelMat, Point(AllPositions(m.meshes)[i])))
  {
    var loaded := LoadModel(path, scene, incomplete, ns, decode);
    var mat := CenteredModelMat(loaded.meshes);
    m := Model(loaded.meshes, loaded.directory, loaded.cache, mat);
    ns' := loaded.names;
  }

  /** The constructor `Model(path)` exactly as written, with the source's
      `calculateModelMat`. */
  method NewModelAsWritten(path: string, scene: Scene, incomplete: bool, ns: Names, decode: Decoder)
    returns (m: Model, ns': Names)
    requires SceneWellFormed(scene)
    requires NonDegenerate(Fold(StartBox, AllPositions(LoadModel(path, scene, incomplete, ns, decode).meshes)))
    ensures m.meshes == LoadModel(path, scene, incomplete, ns, decode).meshes
    ensures m.directory == Directory(path)
    ensures ImportedFrom(scene, m.meshes, PreOrder(scene.root), m.cache, ns.nextVertexArray)
    ensures ns'.nextVertexArray == ns.nextVertexArray + |m.meshes|
    ensures m.modelMat == ModelMatrix(Fold(StartBox, AllPositions(m.meshes)))
    ensures PositiveExtents(Fold(StartBox, AllPositions(m.meshes))) ==>
      forall i :: 0 <= i < |AllPositions(m.meshes)| ==> 0.0 <= Transform(m.modelMat, Point(AllPositions(m.meshes)[i])).y <= 10.0
  {
    var loaded := LoadModel(path, scene, incomplete, ns, decode);
    var mat := ModelMatAsWritten(loaded.meshes);
    m := Model(loaded.meshes, loaded.directory, loaded.cache, mat);
    ns' := loaded.names;
  }

  /** The uniforms and texture units a mesh's draw call sees for material
      `mat`, bound from texture unit 0. */
  predicate ShowsMaterial(s: Shader, mat: Material) {
    && Holds(s, DiffTex, IntU(0)) && Holds(s, SpecTex, IntU(1))
    && Holds(s, DiffColor, Vec3U(mat.diffuseColor)) && Holds(s, SpecColor, Vec3U(mat.specularColor))
    && Holds(s, SpecShine, FloatU(mat.shininess)) && Holds(s, SpecShineScale, FloatU(mat.shininessStrength))
    && 0 in s.units && s.units[0] == mat.diffuseTexture
    && 1 in s.units && s.units[1] == mat.specularTexture
  }

  /** Draw `i` is the draw of mesh `m`: its call, its material in place,
      every other uniform as in `sh`. */
  ghost predicate DrewMesh(sh: Shader, m: Mesh, i: Issued) {
    && i.call == DrawElements(m.vertexArray, |m.indices|)
    && ShowsMaterial(i.shader, m.material)
    && Unchanged(sh, i.shader, MaterialNames)
  }

  /** The loop of `Model::draw`: one draw per mesh, changing only
      material uniforms. */
  function DrawMeshes(meshes: seq<Mesh>, sh: Shader): (r: (Shader, seq<Issued>))
    ensures |r.1| == |meshes|
    ensures Unchanged(sh, r.0, MaterialNames)
  {
    if |meshes| == 0 then (sh, [])
    else
      var prev := DrawMeshes(meshes[..|meshes| - 1], sh);
      var last := meshes[|meshes| - 1];
      var d := MeshResource.Draw(last, prev.0);
      DrawStep(sh, prev.0, last);
      (d.0, prev.1 + [Issued(d.0, d.1)])
  }

  /** Draw `k` of the loop is mesh `k`'s: its call, with its own material
      in place and every other uniform as before the loop. */
  lemma {:induction false} DrawMeshesInOrder(meshes: seq<Mesh>, sh: Shader, k: nat)
    requires k < |meshes|
    ensures DrewMesh(sh, meshes[k], DrawMeshes(meshes, sh).1[k])
  {
    var init := meshes[..|meshes| - 1];
    var prev := DrawMeshes(init, sh);
    if k == |meshes| - 1 {
      DrawStep(sh, prev.0, meshes[k]);
    } else {
      DrawMeshesInOrder(init, sh, k);
      assert init[k] == meshes[k];
    }
  }

  /** One more mesh's draw, after earlier ones that changed only material
      uniforms. */
  lemma DrawStep(sh: Shader, s: Shader, m: Mesh)
    requires Unchanged(sh, s, MaterialNames)
    ensures var d := MeshResource.Draw(m, s);
      DrewMesh(sh, m, Issued(d.0, d.1)) && Unchanged(sh, d.0, MaterialNames)
  {
    DrawFrame(m, s);
    UnchangedTransitive(sh, s, MeshResource.Draw(m, s).0, MaterialNames);
  }

  lemma UnchangedTransitive(a: Shader, b: Shader, c: Shader, names: set<string>)
    requires Unchanged(a, b, names) && Unchanged(b, c, names)
    ensures Unchanged(a, c, names)
  {
  }

  /** The state one mesh's draw leaves: its material, and every other
      uniform as before. */
  lemma DrawFrame(m: Mesh, sh: Shader)
    ensures ShowsMaterial(MeshResource.Draw(m, sh).0, m.material)
    ensures Unchanged(sh, MeshResource.Draw(m, sh).0, MaterialNames)
  {
    var s := SetMaterial(sh, m.material, 0).0;
    assert MeshResource.Draw(m, sh).0 == s;
  }

  /** `Model::draw`: the model matrix, then every mesh; one draw per
      mesh, and the model matrix stays set. */
  function DrawModel(m: Model, sh: Shader): (r: (Shader, seq<Issued>))
    ensures |r.1| == |m.meshes|
    ensures Holds(r.0, ModelMat, Mat4U(m.modelMat))
  {
    var s := SetMat4(sh, ModelMat, m.modelMat);
    ModelMatIsNotMaterialName();
    DrawMeshes(m.meshes, s)
  }

  /** Each draw call of `Model::draw` is its mesh's, and sees the model
      matrix and that mesh's material. */
  lemma DrawModelDrawsEachMesh(m: Model, sh: Shader, k: nat)
    requires k < |m.meshes|
    ensures var i := DrawModel(m, sh).1[k];
      && i.call == DrawElements(m.meshes[k].vertexArray, |m.meshes[k].indices|)
      && ShowsMaterial(i.shader, m.meshes[k].material)
      && Holds(i.shader, ModelMat, Mat4U(m.modelMat))
  {
    var s := SetMat4(sh, ModelMat, m.modelMat);
    ModelMatIsNotMaterialName();
    DrawMeshesInOrder(m.meshes, s, k);
  }
}
