/** Process-wide definitions of src/global.h: the "no texture" handle and the
    per-mesh material record with its defaults. */
module Global {
  import opened Glm

  /** The texture handle that stands for "no texture". It is an ordinary
      name that `glGenTextures` can also return. */
  const EmptyTex: nat := 1

  datatype Material = Material(
    diffuseTexture: nat,
    diffuseColor: Vec3,
    specularTexture: nat,
    specularColor: Vec3,
    shininess: real,
    shininessStrength: real)

  /** A default-constructed `Material`. */
  const DefaultMaterial: Material :=
    Material(EmptyTex, Splat(1.0), EmptyTex, Splat(1.0), 25.0, 1.0)

  /** True when the material names a diffuse texture. */
  predicate HasDiffuseTexture(m: Material) {
    m.diffuseTexture != EmptyTex
  }

  /** `glm::length(c) < 0.01`, stated on the squared length. */
  predicate NearBlack(c: Vec3) {
    LengthSq3(c) < 0.0001
  }

  /** A textured material whose diffuse color is not (near) black: the texture
      is not multiplied away by the color. */
  predicate TextureVisible(m: Material) {
    HasDiffuseTexture(m) ==> !NearBlack(m.diffuseColor)
  }

  /** The black-diffuse correction applied after loading a material: a
      textured material with a near-black diffuse color gets white instead. */
  function CorrectBlackDiffuse(m: Material): (r: Material)
    ensures TextureVisible(r)
    ensures HasDiffuseTexture(m) && NearBlack(m.diffuseColor) ==> r.diffuseColor == Splat(1.0)
    ensures !(HasDiffuseTexture(m) && NearBlack(m.diffuseColor)) ==> r == m
    ensures r.diffuseTexture == m.diffuseTexture && r.specularTexture == m.specularTexture
    ensures r.specularColor == m.specularColor
    ensures r.shininess == m.shininess && r.shininessStrength == m.shininessStrength
  {
    if HasDiffuseTexture(m) && NearBlack(m.diffuseColor) then
      m.(diffuseColor := Splat(1.0))
    else
      m
  }

  /** The default material is untextured and white, so it already satisfies
      the invariant and the correction leaves it alone. */
  lemma DefaultMaterialIsStable()
    ensures !HasDiffuseTexture(DefaultMaterial)
    ensures DefaultMaterial.diffuseTexture == DefaultMaterial.specularTexture == EmptyTex
    ensures DefaultMaterial.diffuseColor == DefaultMaterial.specularColor == Vec3(1.0, 1.0, 1.0)
    ensures DefaultMaterial.shininess == 25.0 && DefaultMaterial.shininessStrength == 1.0
    ensures TextureVisible(DefaultMaterial)
    ensures CorrectBlackDiffuse(DefaultMaterial) == DefaultMaterial
  {
  }

  /** Correcting twice is correcting once. */
  lemma CorrectBlackDiffuseIdempotent(m: Material)
    ensures CorrectBlackDiffuse(CorrectBlackDiffuse(m)) == CorrectBlackDiffuse(m)
  {
  }

  /** The sentinel is a name like any other: a real texture that happens to
      receive name 1 is taken for "no texture", so a black diffuse color on it
      is left black. */
  lemma EmptyTexCollision(m: Material)
    requires m.diffuseTexture == 1 && m.diffuseColor == Splat(0.0)
    ensures CorrectBlackDiffuse(m).diffuseColor == Splat(0.0)
  {
  }
}
