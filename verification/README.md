# ObjModelViewer core, modelled in Dafny

ObjModelViewer is an OpenGL viewer. It imports a scene through Assimp, turns
every mesh into GPU buffers, and normalises the model into a 10-unit cube.
It draws the model on a grid plane under spot lights and lets the user walk
around it with a first-person camera. This project models the logic under
that plumbing:

- **Model import** (`model.dfy`, `texture.dfy`, `normalize.dfy`).
  - The pre-order walk of the scene's node tree.
  - Per-mesh extraction of vertices and face indices.
  - Material loading and the black-diffuse correction.
  - The name-keyed texture cache and the texture file's channel and format
    choice.
  - The model directory.
  - The bounding box and the normalising model matrix.
- **Camera** (`camera.dfy`): mouse look with the pitch clamp, the
  dirty-flag view cache, the keyboard tick with its intent vector and
  per-axis containment, and window resizes.
- **Ground plane and grid** (`plain.dfy`): the plane's element list, the
  two grid loops of `setupLineVAO`, and `draw`.
- **Meshes, materials and uniforms** (`mesh.dfy`, `shader.dfy`,
  `global.dfy`).
  - The vertex layout and the mesh's draw call.
  - The create-once instance buffer.
  - `setDiffuse`/`setSpecular` and their texture-unit sequencing.
  - The uniform setters.
  - `Material` defaults and `EMPTY_TEX`.
- **Lights** (`light.dfy`): `lights[i].field` uniform names, spot light
  construction and the ordered uniform writes of `setupLights`.

Each mutable C++ object becomes an immutable datatype, and each member
function becomes a function from the old state to the new one:

- A shader is a map from uniform name to value, plus the texture bound on
  each texture unit.
- The GL name generators are a supply of fresh names (`Gl.Names`).
- An Assimp scene is a tree datatype (`ModelImport.Scene`).
- Image decoding is a function from a path to an optional channel count
  (`TextureCache.Decoder`).
- The trigonometric functions and glm's `normalize`, `inverse`, `lookAt` and
  `perspective` are uninterpreted: they are fields of a `Glm.Prims` record
  passed to the members that use them.
- `glm::scale`, `glm::translate` and matrix-times-vector are modelled exactly
  on column-major 4x4 matrices.
- Floats are `real`. `length(v) > 0.1` and `length(v) < 0.01` are compared on
  squared lengths, which is exact for real lengths.

## Model

| member | source | states |
|---|---|---|
| `Global.DefaultMaterialIsStable` | src/global.h:8-18 | A default `Material` has both textures set to `EMPTY_TEX`, white diffuse and specular colors, shininess 25 and strength 1. It already satisfies the black-diffuse invariant, so the correction leaves it unchanged. |
| `Global.CorrectBlackDiffuse` | src/model.h:94-97 | The result always has a visible texture. A textured material whose diffuse color has length below 0.01 gets white. Any other material comes back unchanged. Texture names, specular color and shininess are never touched. |
| `Global.CorrectBlackDiffuseIdempotent` | src/model.h:94-97 | Correcting twice gives the same material as correcting once. |
| `Global.EmptyTexCollision` | src/global.h:8 | A real texture that happens to get GL name 1 is taken for "no texture", so its black diffuse color is not corrected. |
| `ShaderUniforms.SetMat4` | src/shader.h:32-36 | Writes the matrix under the name and nothing else: every other uniform and every texture unit keeps its value. |
| `ShaderUniforms.SetVec3` | src/shader.h:38-46 | Writes the vector under the name and nothing else. |
| `ShaderUniforms.SetBool` | src/shader.h:152-156 | Writes 1 or 0 as an integer under the name and nothing else. |
| `ShaderUniforms.SetInt` | src/shader.h:158-162 | Writes the integer under the name and nothing else. |
| `ShaderUniforms.SetFloat` | src/shader.h:164-168 | Writes the float under the name and nothing else. |
| `ShaderUniforms.MaterialNamesDistinct` | src/shader.h:69-75 | The six material uniform names are pairwise different, so writing one never overwrites another. |
| `ShaderUniforms.SetDiffuse` | src/shader.h:48-55 | Binds the diffuse texture on the given unit, points the diffuse sampler at that unit, returns the unit plus one and writes the diffuse color. Every other uniform is kept. |
| `ShaderUniforms.SetSpecular` | src/shader.h:57-66 | Binds the specular texture on the given unit, points the specular sampler at it and returns the unit plus one. Writes the specular color, shininess and strength, and keeps every other uniform. |
| `ShaderUniforms.SetMaterial` | src/mesh.h:37-40 | `setDiffuse` then `setSpecular` from one unit: diffuse lands on that unit and specular on the next, each sampler names its own unit, the unit advances by two and only the six material uniforms change. |
| `ShaderUniforms.ModelMatIsNotMaterialName` | src/model.h:33 | The `modelMat` uniform is not a material uniform, so material writes never disturb it. |
| `MeshResource.LayoutTilesVertex` | src/mesh.h:93-102 | Locations 0, 1 and 2 (position 3 floats, normal 3, texture coordinate 2) share the 32-byte vertex stride, do not overlap and cover the vertex in order. The instance attribute uses its own location 3 with divisor 1. |
| `MeshResource.NewMesh` | src/mesh.h:27-34 | Stores vertices, indices and material unchanged. Takes one fresh vertex array and two fresh buffers, and starts with no instance buffer. |
| `MeshResource.Draw` | src/mesh.h:36-46 | Diffuse is bound on unit 0 and specular on unit 1, with samplers 0 and 1 and the material's colors. The draw call uses the mesh's vertex array and a count equal to the number of indices. |
| `MeshResource.DrawIgnoresInstances` | src/mesh.h:36-46 | The draw is the same whatever the instance buffer, count and data are: `draw` never reads them. |
| `MeshResource.SetInstances` | src/mesh.h:48-63 | A buffer name is taken only when the mesh has none, and an existing buffer keeps its name. The data and count become the given positions and their number. Geometry, material and vertex array are untouched. |
| `MeshResource.SetInstancesCreatesOnce` | src/mesh.h:50-52 | A second call keeps the first call's buffer, takes no new name, and leaves only the latest positions and count. |
| `Lights.DecimalRoundTrip` | src/light.h:47-49 | The decimal rendering of an index (as `to_string` gives it) is non-empty, contains no `]`, and reads back to the index. |
| `Lights.UniNameInjective` | src/light.h:47-49 | Equal `lights[i].f` names have equal index and equal field. |
| `Lights.UniNamePrefix` | src/light.h:47-49 | Every light uniform name starts with `lights[`. |
| `Lights.LightNamesDistinct` | src/light.h:47-49 | Different lights, or different fields of one light, never share a uniform name. |
| `Lights.CreateSpotlight` | src/light.h:14-27 | Type 1, white, the given position and the normalized direction. The start cutoff is the cosine of half the angle, and the outer cutoff the cosine of half the angle plus 5 degrees. |
| `Lights.SpotlightCutoffOrdered` | src/light.h:23-24 | For a cosine that decreases on [0, pi] and an outer half-angle of at most 180 degrees, the outer cutoff cosine is below the start cutoff cosine. |
| `Lights.SetupLight` | src/light.h:29-36 | Light `i`'s six uniforms (type, pos, di, color, cutoffCos, cutoffStartCos) hold its six fields. No other uniform and no texture unit changes. |
| `Lights.AddLight` | src/light.h:55-57 | Appends the light at the end, keeps earlier lights at their indices and keeps the ambient color. |
| `Lights.SetupFields` | src/light.h:29-34 | After the first `k` setter calls of `setupLight`, field `f < k` holds its value under its own name. Only names of this light are added, and no other uniform or texture unit changes. |
| `Lights.SetupLightStep` | src/light.h:61-63 | One loop iteration keeps what the earlier lights wrote and adds light `i` under index `i`. Every uniform that is no light name stays as before. |
| `Lights.CountersAreNotLightNames` | src/light.h:64-65 | `lightNum` and `ambient` are not light uniform names. |
| `Lights.SetupLights` | src/light.h:60-66 | Every light's six uniforms hold its fields under its insertion index, `lightNum` holds the number of lights and `ambient` the ambient color. Every other uniform is kept. |
| `TextureCache.LastIndexOf` | src/model.h:187 | Finds the last occurrence of the character, or reports none when the string has no such character. |
| `TextureCache.Directory` | src/model.h:187 | The directory is a prefix of the path: everything before the last backslash, or the whole path when there is none. |
| `TextureCache.DirectoryWithoutSeparator` | src/model.h:187 | A path without a backslash is its own directory. |
| `TextureCache.DirectoryOfTexturePath` | src/model.h:138 | Splitting `directory + "\\" + name` again yields `directory` when `name` holds no backslash. |
| `TextureCache.FormatFor` | src/model.h:155-164 | 3 channels give RGB, 4 give RGBA, and any other count gives no format. |
| `TextureCache.ReadTextureFromFile` | src/model.h:136-176 | Always uses up one texture name. On a successful decode with 3 or 4 effective channels it returns that name and uploads in the matching format. Otherwise it returns the all-ones handle and uploads nothing. |
| `TextureCache.RequestedFormats` | src/model.h:125-130 | A decodable diffuse image is always uploaded as RGBA and a specular one as RGB. Other kinds keep the file's own channel count and succeed only for 3 or 4. |
| `TextureCache.LoadTexture` | src/model.h:116-134 | With no texture of that kind the handle and cache are unchanged. A cached name returns its handle without decoding. A new name is decoded once and its handle (failure value included) stored under the name. The cache only grows and stays duplicate-free. |
| `TextureCache.LoadTextureTwice` | src/model.h:121-123 | Loading the same texture again returns the first handle and changes neither the cache nor the name supply. |
| `ModelImport.ExpectedMaterialStable` | src/model.h:121-122 | Once a material's textures are cached, a growing cache keeps the material it describes. |
| `ModelImport.LoadMaterials` | src/model.h:84-114 | Each texture is the cached handle of its first file name (or the old value when there is none). Each color and float is overwritten only when the material defines it, and the correction applies last. The cache only grows, by at most two decodes, and no vertex array or buffer name is used. |
| `ModelImport.EmptyMaterialIsDefault` | src/model.h:84-98 | A material that defines nothing loads as the default material and touches neither the cache nor the names. |
| `ModelImport.LoadMaterialsAgain` | src/model.h:84-98 | Loading a material a second time, from the first load's cache, gives the same material and decodes nothing. |
| `ModelImport.ExtractVertices` | src/model.h:208-224 | One vertex per position, with position and normal copied verbatim. The texture coordinate comes from the first channel when it exists. |
| `ModelImport.FlattenTriangles` | src/model.h:226-232 | For triangulated faces the index buffer holds three indices per face, with face `k` at positions `3k`, `3k+1` and `3k+2`. |
| `ModelImport.FlattenBounded` | src/model.h:226-232 | Faces that only name existing vertices give an index buffer that does too. |
| `ModelImport.ProcessMesh` | src/model.h:203-241 | The mesh's vertices and indices are the extracted ones. Its material is the scene material loaded over the default one. It takes the next vertex array name, and the cache only grows. |
| `ModelImport.ProcessMeshes` | src/model.h:193-196 | Appends one mesh per listed index, keeping the meshes already collected as a prefix. One vertex array name is used per mesh. |
| `ModelImport.ProcessNode` | src/model.h:192-201 | Appends as many meshes as the subtree's pre-order lists, keeping earlier meshes as a prefix. |
| `ModelImport.ProcessChildren` | src/model.h:198-200 | The children's subtrees from child `i` on, in order, append their pre-order counts of meshes. |
| `ModelImport.ProcessMeshesImports` | src/model.h:193-196 | Mesh `k` appended by the loop is the one imported from the `k`-th listed scene mesh, with consecutive vertex array names. |
| `ModelImport.ProcessNodeImports` | src/model.h:192-201 | The meshes come out in pre-order: the node's own meshes in their listed order, then each child's subtree in turn. Each is imported from its scene mesh. |
| `ModelImport.ProcessChildrenImports` | src/model.h:198-200 | The children from `i` on contribute their subtrees' meshes in child order. |
| `ModelImport.LoadModel` | src/model.h:179-190 | The directory is the model path's. The meshes are the scene's in pre-order of the node tree, each imported from its scene mesh with consecutive vertex array names. The texture cache decodes each name once. |
| `ModelImport.IncompleteSceneImportsAnyway` | src/model.h:183-185 | The incomplete-scene flag changes nothing: it is only reported. |
| `ModelImport.NewModel` | src/model.h:27-30 | The meshes are those `LoadModel` imports. The matrix is the corrected one, `CenteredModelMatrix` of the tight bounds of their vertices, so every vertex of every mesh lands in the cube [-5, 5] x [0, 10] x [-5, 5]. |
| `ModelImport.NewModelAsWritten` | src/model.h:27-30 | The meshes are those `LoadModel` imports. The matrix is the source's own, `ModelMatrix` of the bounds folded from `StartBox`. When those bounds have positive extents, every vertex lands at a height between 0 and 10. |
| `ModelImport.DrawMeshes` | src/model.h:34-36 | One draw per mesh, and only material uniforms change. |
| `ModelImport.DrawMeshesInOrder` | src/model.h:34-36 | Draw `k` is mesh `k`'s draw call, with mesh `k`'s material bound from unit 0. Every other uniform is as before the loop. |
| `ModelImport.DrawModel` | src/model.h:32-37 | One draw per mesh, and the model matrix uniform holds the model's matrix afterwards. |
| `ModelImport.DrawModelDrawsEachMesh` | src/model.h:32-37 | Each draw is its mesh's and sees both the model matrix and that mesh's material. |
| `Normalization.BoxOf` | src/model.h:46-65 | The accumulated box encloses every vertex position. Each max is at least the smallest positive float, even for all-negative coordinates, and each min is at most the largest float. Each bound is attained by some position unless it is still its start value. |
| `Normalization.BoxOfIsFold` | src/model.h:50-65 | `BoxOf` is the left-to-right fold of the six comparisons from the source's start values. |
| `Normalization.AccumulatePoint` | src/model.h:52-63 | The six independent comparisons leave a box that encloses the vertex. |
| `Normalization.AccumulateMesh` | src/model.h:51-64 | The inner loop continues the fold over one mesh's positions in order. |
| `Normalization.AccumulateBounds` | src/model.h:50-65 | The nested loop folds every vertex position of every mesh, mesh by mesh. |
| `Normalization.BoundsAsWritten` | src/model.h:46-65 | From the source's start values the loop computes `BoxOf` of all positions. |
| `Normalization.ScaleTranslateAction` | src/model.h:67-75 | A uniform scale by `s` followed by a translation by `t` maps the point `p` to `s * (p + t)`, with w = 1. |
| `Normalization.ModelMatrixAction` | src/model.h:67-75 | The model matrix maps `p` to `s * (p + t)`: `s` is the smallest of the three `10 / extent` values, and `t` is the two centers plus `-minY`. |
| `Normalization.ScaleToTen` | src/model.h:69-72 | The scale is positive, every scaled extent is at most 10, and one of them is exactly 10. |
| `Normalization.NormalizedFits` | src/model.h:67-73 | With positive extents the scaled box fits in 10 units on every axis and fills 10 along its longest one. |
| `Normalization.LowestPointOnFloor` | src/model.h:74-75 | A point at `minY` lands at height 0. |
| `Normalization.FloorHeight` | src/model.h:67-75 | With positive extents every point of the box lands at a height between 0 and 10. |
| `Normalization.ModelMatAsWritten` | src/model.h:45-78 | `calculateModelMat` as written: the matrix is `ModelMatrix` of the bounds folded from `StartBox`: a uniform scale by the smallest of 10 over each extent, applied after the translation by (+x center, -minY, +z center). With positive extents every vertex lands at a height between 0 and 10. |
| `Normalization.NegativeModelMaxAsWritten` | src/model.h:47 | For a model lying entirely at negative x, the accumulated max x is the smallest positive float, not the largest x. |
| `Normalization.TightBoxOf` | src/model.h:46-65 | Starting the maxima at the lowest float, the box encloses every position. For a non-empty set of float-range positions, every bound is attained by some position. |
| `Normalization.TightBounds` | src/model.h:50-65 | The source's loop run from the corrected start values computes `TightBoxOf`. |
| `Normalization.CenterDriftsAsWritten` | src/model.h:74-75 | With the `+center` translation the box's center lands at x = s * (minX + maxX). That is 0 only when the model was already centered on x. |
| `Normalization.CenterDriftExample` | src/model.h:75 | The box [1, 3] x [0, 2] x [1, 3] has scale 5 and its center lands at x = 20. |
| `Normalization.CenteredModelMatrixFits` | src/model.h:67-75 | With the corrected translation, every point of a box with positive extents lands in [-5, 5] x [0, 10] x [-5, 5]. |
| `Normalization.CenteredModelMatrixCenters` | src/model.h:74-75 | With the corrected translation the box's center lands on the y axis. |
| `Normalization.CenteredModelMat` | src/model.h:45-78 | `calculateModelMat` with both corrections: the matrix is `CenteredModelMatrix` of the tight bounds, which moves the bounds' center onto the y axis. Every vertex lands in the 10-unit cube. |
| `CameraControl.NewCamera` | src/camera.h:39-52 | The box is [-20, 20] x [-10, 10] x [-20, 20] and the start position (0, 5, 10) lies inside it. The camera looks along (0, 0, -1) with pitch 0, with no mouse sample and no keyboard tick yet. The projection is built from w/h, and the cached view is the current one. |
| `CameraControl.InitialDirectionMatchesAngles` | src/camera.h:27 | The initial direction is the one heading 0 and pitch 0 give. |
| `CameraControl.ClampPitch` | src/camera.h:90-95 | The result lies in the closed interval [-pi/2 + 0.01, pi/2 - 0.01]. A pitch strictly inside is kept, and one at or past a limit becomes that limit. |
| `CameraControl.MouseMove` | src/camera.h:80-101 | The first sample only records (x, y). A later sample lowers heading by dx * 0.001 * pi/2 and pitch by dy * 0.001 * pi/2 (clamped), recomputes the direction and marks the view dirty. Both kinds record the sample, keep position, view and projection, and keep the pitch in range. |
| `CameraControl.PitchAlwaysInRange` | src/camera.h:90-95 | Across any run of mouse samples the pitch stays within [-pi/2 + 0.01, pi/2 - 0.01]. |
| `CameraControl.GetViewMat` | src/camera.h:58-65 | Recomputes the view only when dirty, then clears the flag. It returns the stored matrix, which is the current view when the cache was coherent. |
| `CameraControl.GetViewMatTwice` | src/camera.h:58-65 | A second read with nothing in between changes nothing and returns the same matrix. |
| `CameraControl.ViewReadIsCurrent` | src/camera.h:58-65 | On a coherent cache, reading the view returns the view for the current position and direction, and the cache stays coherent. |
| `CameraControl.WindowSizeChanged` | src/camera.h:75-78 | Every resize sets the aspect to w/h and recomputes the projection, and changes nothing else. |
| `CameraControl.Intent` | src/camera.h:112-130 | The intent vector has w = 0 and each component in {-1, 0, 1}. |
| `CameraControl.WantsToMoveIffNonZero` | src/camera.h:131 | The length test passes exactly when the intent vector is non-zero, that is when some pair of opposite keys is not balanced. |
| `CameraControl.ContainAxisSpec` | src/camera.h:137-148 | A delta is kept or dropped whole. It is dropped exactly when the camera is already past that bound and moving further out. An axis inside the box always keeps its delta, and an axis outside never moves further out. |
| `CameraControl.ContainmentAllowsOvershoot` | src/camera.h:137-138 | A camera on the x bound 20 moving outward by 1 reaches 21: containment is not a clamp. |
| `CameraControl.WalkStaysNearBox` | src/camera.h:137-150 | If no tick's delta exceeds `m`, a position starting within `m` of the box stays within `m` of it. |
| `CameraControl.TickStaysNearBox` | src/camera.h:131-153 | One keyboard tick keeps the box and, when its delta is within `m`, keeps a camera that starts within `m` of the box within `m` of it on all three axes. |
| `CameraControl.TicksStayNearBox` | src/camera.h:103-155 | Across any run of keyboard ticks whose moving ticks propose deltas within `m`, a camera starting within `m` of its box stays within `m` of it. |
| `CameraControl.KeyboardTick` | src/camera.h:103-155 | Every tick stores the time. The first tick, or a tick whose intent is zero, changes nothing else. Otherwise the position moves by the contained world-space delta and the view is marked dirty. The view cache stays coherent. |
| `CameraControl.MoveUsesCachedView` | src/camera.h:133 | The move reads the cached view matrix: a mouse turn in between, with no view read, leaves the next move unchanged. |
| `PlainGrid.PlaneIsWellFormed` | src/plain.h:58-70 | The plane's six elements name its four vertices only. Both triangles wind counter-clockwise seen from above, matching the up normal, and `draw`'s count of 6 covers the element list. |
| `PlainGrid.GridSteps` | src/plain.h:98 | Exactly the first `GridSteps` values of x pass the loop guard, and the next one fails it. |
| `PlainGrid.GridEndlessWithoutInterval` | src/plain.h:98 | With a size of at least 0 and an interval of at most 0, every iteration's x passes the loop guard, so the loop never ends. |
| `PlainGrid.DefaultGridSteps` | src/plain.h:15 | With the default arguments (size 50, interval 1) the loops run 99 times. |
| `PlainGrid.SetupLineVertices` | src/plain.h:97-120 | Each iteration appends the two quads for its x (16 vectors, position and normal interleaved) and counts two lines. The line count is twice the iteration count, with 8 vectors per line. |
| `PlainGrid.BlocksLayout` | src/plain.h:98-118 | After `k` iterations of the vertex loop, iteration `j` owns the sixteen vectors starting at `16 * j`, and they are the two quads for its x. |
| `PlainGrid.SetupLineIndices` | src/plain.h:122-133 | Each iteration emits the two-triangle quads at offsets 8k and 8k+4. Triangle `t` uses only the four vertices of quad `t / 2`, and every index is below the vertex count. |
| `PlainGrid.NewPlain` | src/plain.h:15-21 | The grid has twice as many lines as loop iterations, with 8 vectors (4 vertices and their normals) and 2 triangles per line. The draw count 6 * lineCount equals the number of emitted indices, and every index names an emitted vertex. Two vertex arrays and four buffers are taken. |
| `PlainGrid.Pass` | src/plain.h:29-34 | One material binding from unit 0 with the default material in the given color, whose two textures are `EMPTY_TEX` (name 1), followed by the draw. Only material uniforms change. |
| `PlainGrid.Draw` | src/plain.h:22-47 | Two draws, the plane with 6 indices and the grid with 6 * lineCount. Each sees the identity model matrix, samplers 0 and 1, and units 0 and 1 bound to `EMPTY_TEX` (name 1), which is also the name the first loaded texture normally gets (`Global.EmptyTexCollision`); the plane uses `plainColor` and the grid white. |

## Left out

- The `Shader` constructor and `use` (src/shader.h:79-150): file reading and GLSL compilation, outside the logic modelled here.
- `ui.h`, `main.cpp` and `modelViewer.h`: window creation, the frame loop and text rendering are not part of this model.
- Assimp's `ReadFile` and `stb_image`: the scene is an input datatype (after triangulation), and decoding is a `Decoder` parameter that returns only the channel count. Pixel data, sizes and mipmaps are not modelled.
- GL side effects beyond names, bound texture units, uniform values and draw calls: buffer uploads, VAO binding, depth function and face culling.
- Float rounding: coordinates, colors and angles are reals. In particular the grid loop variable is exact, so `GridSteps` is the number of iterations an exact x would make. The float loop may differ by one iteration for sizes and intervals that are not exactly representable.
- The trigonometric functions, `normalize`, `inverse`, `lookAt` and `perspective`: uninterpreted `Glm.Prims` fields, because their float implementations are outside the model.
- `glfwGetTime` and `glfwGetKey`: the keyboard tick takes the time and the pressed keys as parameters.
- `getProjectMat`, `getViewPos` and `getViewDir`: plain field reads.
- A missing scene or a missing root node: the source reports the error and then dereferences the root anyway, so the model takes the scene as given. Its well-formedness (`SceneWellFormed`: normals and texture coordinates per vertex, mesh and material indices in range) is a precondition, because the source reads those arrays unchecked.
- Division by zero: `NewCamera` and `WindowSizeChanged` require a non-zero height. `NewModel`, `NewModelAsWritten`, `ModelMatAsWritten` and `CenteredModelMat` require non-zero extents, as the source divides by them unguarded.
- `glGetUniformLocation` returning -1 for a name the program lacks: every write is recorded in the uniform map.
- Unsigned 32-bit wrap of GL names, and overflow of the signed `int` `lineCount` (undefined behaviour in the source): names and counts are unbounded naturals.
- `ExtractVertices`: a mesh without a texture coordinate channel gets (0, 0), where the source leaves the coordinate uninitialised.
- `NewModel`: builds the matrix with both findings below corrected; `NewModelAsWritten` is the constructor as written.
- GridSteps: requires a positive interval. The constructor never checks `lineInterval`; with an interval of at most 0 and a size of at least 0 both grid loops run forever (`GridEndlessWithoutInterval`), which has no result to model. The viewer only builds the default grid, interval 1.
- SetupLineVertices: requires a positive interval, for the same reason as `GridSteps`.
- SetupLineIndices: requires a positive interval, for the same reason as `GridSteps`.
- NewPlain: requires a positive interval, for the same reason as `GridSteps`.
- Four behaviours a reader might expect but the code does not have; the model follows the code:
  - The pitch is clamped to the closed interval, not kept strictly inside it.
  - The camera can overshoot the box by one tick's delta (`ContainmentAllowsOvershoot`); what holds is `WalkStaysNearBox`, and for runs of keyboard ticks `TicksStayNearBox`.
  - `setInstances` does not make `draw` instanced (`DrawIgnoresInstances`).
  - The projection is recomputed on every resize, not only when the aspect ratio changes.

## Findings

| source | as written | input that shows it | evidently intended | confidence | as-written member | corrected member |
|---|---|---|---|---|---|---|
| src/model.h:47 | The max accumulators start at `numeric_limits<float>::min()`, the smallest positive float. | Positions (-2, -2, -2) and (-1, -1, -1): max x ends at about 1.2e-38 instead of -1, so the box's extents, the scale and the centering are wrong for a model at negative coordinates. | Start the maxima at the lowest float, so every bound is attained by a vertex. | not executed | `Normalization.NegativeModelMaxAsWritten` | `Normalization.TightBoxOf` |
| src/model.h:75 | The translation adds the X and Z centers (`+(minX + maxX) / 2`). | The box [1, 3] x [0, 2] x [1, 3]: scale 5, and its center lands at x = 20, outside the 10-unit cube, instead of 0. | Translate by minus the centers, so the model ends centered on the y axis inside [-5, 5] x [0, 10] x [-5, 5]. | not executed | `Normalization.CenterDriftsAsWritten` | `Normalization.CenteredModelMatrixFits` |
