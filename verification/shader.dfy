/** The uniform-setting half of src/shader.h. A shader program is modelled
    by the values its uniforms hold (a map from uniform name to value) and by
    the texture bound on each texture unit. Compiling and linking are not
    modelled. */
module ShaderUniforms {
  import opened Glm
  import opened Global
  import opened Gl

  datatype UniformValue = IntU(i: int) | FloatU(f: real) | Vec3U(v: Vec3) | Mat4U(m: Mat4)

  /** `uniforms`: value last written under each name; `units`: texture name
      bound to `GL_TEXTURE_2D` on each texture unit. */
  datatype Shader = Shader(uniforms: map<string, UniformValue>, units: map<nat, nat>)

  const DiffTex: string := "mtl.tex_diffuse_texture"
  const DiffColor: string := "mtl.tex_diffuse_color"
  const SpecTex: string := "mtl.tex_specular_texture"
  const SpecColor: string := "mtl.tex_specular_color"
  const SpecShine: string := "mtl.tex_spec_shininess"
  const SpecShineScale: string := "mtl.tex_spec_scale"

  /** A draw call together with the uniform and texture state it sees. */
  datatype Issued = Issued(shader: Shader, call: DrawCall)

  /** Uniform `name` currently holds `v`. */
  predicate Holds(sh: Shader, name: string, v: UniformValue) {
    name in sh.uniforms && sh.uniforms[name] == v
  }

  /** Every uniform outside `names` keeps its value. */
  ghost predicate Unchanged(sh: Shader, r: Shader, names: set<string>) {
    forall n :: n in sh.uniforms && n !in names ==> n in r.uniforms && r.uniforms[n] == sh.uniforms[n]
  }

  /** The write of one uniform: `name` now holds `v`, every other uniform
      and every texture unit is as before. */
  ghost predicate WritesOnly(sh: Shader, r: Shader, name: string, v: UniformValue) {
    && name in r.uniforms && r.uniforms[name] == v
    && r.uniforms.Keys == sh.uniforms.Keys + {name}
    && (forall n :: n in sh.uniforms && n != name ==> r.uniforms[n] == sh.uniforms[n])
    && r.units == sh.units
  }

  function SetUniform(sh: Shader, name: string, v: UniformValue): (r: Shader)
    ensures WritesOnly(sh, r, name, v)
  {
    sh.(uniforms := sh.uniforms[name := v])
  }

  /** `setBool`: the value is written through `glUniform1i` as 0 or 1. */
  function SetBool(sh: Shader, name: string, b: bool): (r: Shader)
    ensures WritesOnly(sh, r, name, IntU(if b then 1 else 0))
  {
    SetUniform(sh, name, IntU(if b then 1 else 0))
  }

  function SetInt(sh: Shader, name: string, i: int): (r: Shader)
    ensures WritesOnly(sh, r, name, IntU(i))
  {
    SetUniform(sh, name, IntU(i))
  }

  function SetFloat(sh: Shader, name: string, f: real): (r: Shader)
    ensures WritesOnly(sh, r, name, FloatU(f))
  {
    SetUniform(sh, name, FloatU(f))
  }

  function SetVec3(sh: Shader, name: string, v: Vec3): (r: Shader)
    ensures WritesOnly(sh, r, name, Vec3U(v))
  {
    SetUniform(sh, name, Vec3U(v))
  }

  function SetMat4(sh: Shader, name: string, m: Mat4): (r: Shader)
    ensures WritesOnly(sh, r, name, Mat4U(m))
  {
    SetUniform(sh, name, Mat4U(m))
  }

  /** `glActiveTexture(GL_TEXTURE0 + unit); glBindTexture(GL_TEXTURE_2D, tex)`. */
  function BindTexture(sh: Shader, unit: nat, tex: nat): Shader {
    sh.(units := sh.units[unit := tex])
  }

  /** The six material uniform names are pairwise distinct, so writing one
      never clobbers another. */
  lemma MaterialNamesDistinct()
    ensures DiffTex != DiffColor && DiffTex != SpecTex && DiffTex != SpecColor
    ensures DiffTex != SpecShine && DiffTex != SpecShineScale
    ensures DiffColor != SpecTex && DiffColor != SpecColor && DiffColor != SpecShine
    ensures DiffColor != SpecShineScale
    ensures SpecTex != SpecColor && SpecTex != SpecShine && SpecTex != SpecShineScale
    ensures SpecColor != SpecShine && SpecColor != SpecShineScale
    ensures SpecShine != SpecShineScale
  {
  }

  /** `setDiffuse(mat, texUnit)`: binds the diffuse texture on `unit`, points
      the sampler at that unit, advances the unit by one and writes the
      diffuse color. The result pairs the shader with the advanced unit. */
  function SetDiffuse(sh: Shader, mat: Material, unit: nat): (r: (Shader, nat))
    ensures r.1 == unit + 1
    ensures r.0.units == sh.units[unit := mat.diffuseTexture]
    ensures r.0.uniforms.Keys == sh.uniforms.Keys + {DiffTex, DiffColor}
    ensures r.0.uniforms[DiffTex] == IntU(unit)
    ensures r.0.uniforms[DiffColor] == Vec3U(mat.diffuseColor)
    ensures Unchanged(sh, r.0, {DiffTex, DiffColor})
  {
    var s1 := BindTexture(sh, unit, mat.diffuseTexture);
    var s2 := SetInt(s1, DiffTex, unit);
    (SetVec3(s2, DiffColor, mat.diffuseColor), unit + 1)
  }

  /** The names `setSpecular` writes. */
  const SpecularNames: set<string> := {SpecTex, SpecColor, SpecShine, SpecShineScale}

  /** `setSpecular(mat, texUnit)`: binds the specular texture on `unit`,
      points the sampler at it, advances the unit by one and writes the
      specular color, shininess and shininess strength. */
  function SetSpecular(sh: Shader, mat: Material, unit: nat): (r: (Shader, nat))
    ensures r.1 == unit + 1
    ensures r.0.units == sh.units[unit := mat.specularTexture]
    ensures r.0.uniforms.Keys == sh.uniforms.Keys + {SpecTex, SpecColor, SpecShine, SpecShineScale}
    ensures r.0.uniforms[SpecTex] == IntU(unit)
    ensures r.0.uniforms[SpecColor] == Vec3U(mat.specularColor)
    ensures r.0.uniforms[SpecShine] == FloatU(mat.shininess)
    ensures r.0.uniforms[SpecShineScale] == FloatU(mat.shininessStrength)
    ensures Unchanged(sh, r.0, SpecularNames)
  {
    var s1 := BindTexture(sh, unit, mat.specularTexture);
    var s2 := SetInt(s1, SpecTex, unit);
    var s3 := SetVec3(s2, SpecColor, mat.specularColor);
    var s4 := SetFloat(s3, SpecShine, mat.shininess);
    (SetFloat(s4, SpecShineScale, mat.shininessStrength), unit + 1)
  }

  /** The uniform the model matrix is written to before each draw. */
  const ModelMat: string := "modelMat"

  lemma ModelMatIsNotMaterialName()
    ensures ModelMat !in MaterialNames
  {
  }

  /** The names `setDiffuse` and `setSpecular` write. */
  const MaterialNames: set<string> := {DiffTex, DiffColor} + SpecularNames

  /** `setDiffuse(mat, texUnit); setSpecular(mat, texUnit);` as every draw
      makes them: diffuse lands on `unit` and specular on `unit + 1`, each
      sampler names its own unit, and no other uniform changes. */
  function SetMaterial(sh: Shader, mat: Material, unit: nat): (r: (Shader, nat))
    ensures r.1 == unit + 2
    ensures r.0.units == sh.units[unit := mat.diffuseTexture][unit + 1 := mat.specularTexture]
    ensures Holds(r.0, DiffTex, IntU(unit)) && Holds(r.0, SpecTex, IntU(unit + 1))
    ensures Holds(r.0, DiffColor, Vec3U(mat.diffuseColor)) && Holds(r.0, SpecColor, Vec3U(mat.specularColor))
    ensures Holds(r.0, SpecShine, FloatU(mat.shininess)) && Holds(r.0, SpecShineScale, FloatU(mat.shininessStrength))
    ensures r.0.uniforms.Keys == sh.uniforms.Keys + MaterialNames
    ensures Unchanged(sh, r.0, MaterialNames)
  {
    var (s1, u1) := SetDiffuse(sh, mat, unit);
    var (s2, u2) := SetSpecular(s1, mat, u1);
    MaterialNamesDistinct();
    assert DiffTex !in SpecularNames && DiffColor !in SpecularNames;
    (s2, u2)
  }
}
