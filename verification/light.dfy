/** src/light.h: spot lights and the uniforms that describe them to the
    shader, addressed as `lights[i].field`. */
module Lights {
  import opened Glm
  import opened ShaderUniforms

  // ---------------------------------------------------------------------
  // Decimal rendering of an index (`std::to_string(int)`) and its inverse.
  // ---------------------------------------------------------------------

  predicate IsDigit(c: char) {
    '0' <= c <= '9'
  }

  function DigitChar(d: nat): (c: char)
    requires d < 10
    ensures IsDigit(c)
  {
    (('0' as int) + d) as char
  }

  function DigitValue(c: char): (d: nat)
    requires IsDigit(c)
    ensures d < 10 && DigitChar(d) == c
  {
    (c as int) - ('0' as int)
  }

  predicate AllDigits(s: string) {
    forall k :: 0 <= k < |s| ==> IsDigit(s[k])
  }

  /** The shortest decimal spelling of `n`, most significant digit first. */
  function NatDecimal(n: nat): (s: string)
    ensures |s| > 0 && AllDigits(s)
    ensures n < 10 <==> |s| == 1
  {
    if n < 10 then [DigitChar(n)] else NatDecimal(n / 10) + [DigitChar(n % 10)]
  }

  /** `std::to_string(i)`: a minus sign and the digits of `-i` when negative. */
  function Decimal(i: int): string {
    if i < 0 then "-" + NatDecimal(-i) else NatDecimal(i)
  }

  /** Reads a non-empty digit string back as a number. */
  function ParseNat(s: string): nat
    requires |s| > 0 && AllDigits(s)
  {
    if |s| == 1 then DigitValue(s[0])
    else ParseNat(s[..|s| - 1]) * 10 + DigitValue(s[|s| - 1])
  }

  /** Reads a rendered index back, minus sign included. */
  function ParseDecimal(s: string): int
    requires |s| > 0
    requires (s[0] == '-' && |s| > 1 && AllDigits(s[1..])) || AllDigits(s)
  {
    if s[0] == '-' then 0 - ParseNat(s[1..]) else ParseNat(s)
  }

  lemma {:induction false} ParseNatDecimal(n: nat)
    ensures ParseNat(NatDecimal(n)) == n
  {
    if n >= 10 {
      var s := NatDecimal(n);
      assert s[..|s| - 1] == NatDecimal(n / 10);
      ParseNatDecimal(n / 10);
    }
  }

  /** A negative index renders as a minus sign before the digits of its
      magnitude. */
  lemma NegativeDecimal(i: int)
    requires i < 0
    ensures Decimal(i)[0] == '-' && Decimal(i)[1..] == NatDecimal(-i)
  {
    assert ("-" + NatDecimal(-i))[1..] == NatDecimal(-i);
  }

  /** Rendering an index and reading it back gives the index: the rendering
      loses nothing, so distinct indices render differently. */
  lemma DecimalRoundTrip(i: int)
    ensures |Decimal(i)| > 0
    ensures forall k :: 0 <= k < |Decimal(i)| ==> Decimal(i)[k] != ']'
    ensures ParseDecimal(Decimal(i)) == i
  {
    var s := Decimal(i);
    if i < 0 {
      NegativeDecimal(i);
      var t := NatDecimal(-i);
      forall k | 0 <= k < |s|
        ensures s[k] != ']'
      {
        if k > 0 {
          assert s[k] == t[k - 1];
        }
      }
      ParseNatDecimal(-i);
      assert ParseDecimal(s) == 0 - ParseNat(t);
    } else {
      assert s[0] != '-';
      ParseNatDecimal(i);
    }
  }

  // ---------------------------------------------------------------------
  // Uniform names.
  // ---------------------------------------------------------------------

  const Prefix: string := "lights["

  /** `uniName(index, name)`. */
  function UniName(index: int, field: string): string {
    Prefix + Decimal(index) + "]." + field
  }

  /** Position of the first `c` in `s`, or `|s|` when there is none. */
  function IndexOf(s: string, c: char): nat {
    if |s| == 0 then 0 else if s[0] == c then 0 else 1 + IndexOf(s[1..], c)
  }

  lemma {:induction false} IndexOfAfter(a: string, rest: string, c: char)
    requires forall k :: 0 <= k < |a| ==> a[k] != c
    requires |rest| > 0 && rest[0] == c
    ensures IndexOf(a + rest, c) == |a|
  {
    if |a| > 0 {
      assert (a + rest)[1..] == a[1..] + rest;
      IndexOfAfter(a[1..], rest, c);
    }
  }

  /** Two bracket-free prefixes followed by `].` and a field: the first
      `]` tells where the prefix ends, so equal strings have equal parts. */
  lemma SplitAtBracket(a: string, f: string, b: string, g: string)
    requires forall k :: 0 <= k < |a| ==> a[k] != ']'
    requires forall k :: 0 <= k < |b| ==> b[k] != ']'
    requires a + ("]." + f) == b + ("]." + g)
    ensures a == b && f == g
  {
    var t := a + ("]." + f);
    IndexOfAfter(a, "]." + f, ']');
    IndexOfAfter(b, "]." + g, ']');
    assert a == t[..|a|] && b == t[..|b|];
    assert f == t[|a| + 2..] && g == t[|b| + 2..];
  }

  /** A light uniform name determines both the index and the field: two
      lights never share a uniform, and two fields of one light never do. */
  lemma UniNameInjective(i: int, f: string, j: int, g: string)
    requires UniName(i, f) == UniName(j, g)
    ensures i == j && f == g
  {
    var a, b := Decimal(i), Decimal(j);
    var s := UniName(i, f);
    DecimalRoundTrip(i);
    DecimalRoundTrip(j);
    assert s == Prefix + (a + ("]." + f));
    assert s == Prefix + (b + ("]." + g));
    assert a + ("]." + f) == s[|Prefix|..] == b + ("]." + g);
    SplitAtBracket(a, f, b, g);
  }

  /** Every light uniform name starts with `lights[`. */
  lemma UniNamePrefix(i: int, f: string)
    ensures |UniName(i, f)| > |Prefix| && UniName(i, f)[..|Prefix|] == Prefix
  {
    DecimalRoundTrip(i);
    assert UniName(i, f) == Prefix + (Decimal(i) + "]." + f);
  }

  // ---------------------------------------------------------------------
  // Lights.
  // ---------------------------------------------------------------------

  /** `kind` is the source's `type` field (1 for a spot light). */
  datatype Light = Light(pos: Vec3, di: Vec3, color: Vec3, kind: int, cutoffCos: real, cutoffStartCos: real)

  /** `Light::createSpotlight(pos, di, angle)`: the light cone's half-angle is
      `angle / 2`; the fall-off starts there and ends 5 degrees further out. */
  function CreateSpotlight(pos: Vec3, di: Vec3, angle: real, g: Prims): (l: Light)
    ensures l.kind == 1 && l.color == Splat(1.0) && l.pos == pos && l.di == g.normalize3(di)
    ensures l.cutoffStartCos == g.cos(Radians(angle / 2.0))
    ensures l.cutoffCos == g.cos(Radians(angle / 2.0) + Radians(5.0))
  {
    Light(pos, g.normalize3(di), Splat(1.0), 1,
          g.cos(Radians((angle / 2.0) + 5.0)), g.cos(Radians(angle / 2.0)))
  }

  /** With a cosine that falls strictly on [0, pi], the outer cutoff cosine is
      below the inner one whenever the outer half-angle is at most 180
      degrees: the cone fades out rather than in. */
  lemma SpotlightCutoffOrdered(pos: Vec3, di: Vec3, angle: real, g: Prims)
    requires forall a, b :: 0.0 <= a < b <= Pi ==> g.cos(b) < g.cos(a)
    requires 0.0 <= angle && angle / 2.0 + 5.0 <= 180.0
    ensures CreateSpotlight(pos, di, angle, g).cutoffCos < CreateSpotlight(pos, di, angle, g).cutoffStartCos
  {
    var inner, outer := Radians(angle / 2.0), Radians(angle / 2.0 + 5.0);
    assert 0.0 <= inner < outer <= Pi;
  }

  /** The six fields `setupLight` writes, in the order it writes them. */
  const Fields: seq<string> := ["type", "pos", "di", "color", "cutoffCos", "cutoffStartCos"]

  /** The value written for field `Fields[k]`. */
  function FieldValue(l: Light, k: nat): UniformValue
    requires k < |Fields|
  {
    match k
    case 0 => IntU(l.kind)
    case 1 => Vec3U(l.pos)
    case 2 => Vec3U(l.di)
    case 3 => Vec3U(l.color)
    case 4 => FloatU(l.cutoffCos)
    case _ => FloatU(l.cutoffStartCos)
  }

  /** The uniform names of lights `0 .. count - 1`. */
  ghost predicate IsLightName(n: string, count: int) {
    exists j, k :: 0 <= j < count && 0 <= k < |Fields| && n == UniName(j, Fields[k])
  }

  /** Two fields of one light, or two lights, never share a uniform name. */
  lemma LightNamesDistinct(i: int, k1: nat, j: int, k2: nat)
    requires k1 < |Fields| && k2 < |Fields|
    requires i != j || k1 != k2
    ensures UniName(i, Fields[k1]) != UniName(j, Fields[k2])
  {
    if UniName(i, Fields[k1]) == UniName(j, Fields[k2]) {
      UniNameInjective(i, Fields[k1], j, Fields[k2]);
    }
  }

  /** The first `k` setter calls of `Light::setupLight(shader, index)`:
      field `f` is written under its own name with the setter of its type
      (`setInt` for the type, `setVec3` for the vectors, `setFloat` for the
      cutoffs). */
  function SetupFields(l: Light, sh: Shader, index: int, k: nat): (r: Shader)
    requires k <= |Fields|
    ensures forall f :: 0 <= f < k ==> Holds(r, UniName(index, Fields[f]), FieldValue(l, f))
    ensures forall n :: n in r.uniforms ==> n in sh.uniforms || IsNameOf(n, index)
    ensures forall n :: n in sh.uniforms && !IsNameOf(n, index) ==> n in r.uniforms && r.uniforms[n] == sh.uniforms[n]
    ensures r.units == sh.units
  {
    if k == 0 then sh
    else
      var r := SetUniform(SetupFields(l, sh, index, k - 1), UniName(index, Fields[k - 1]), FieldValue(l, k - 1));
      forall f | 0 <= f < k - 1
        ensures UniName(index, Fields[f]) != UniName(index, Fields[k - 1])
      {
        LightNamesDistinct(index, f, index, k - 1);
      }
      r
  }

  /** `Light::setupLight(shader, index)`: writes the six uniforms of light
      `index` and nothing else. */
  function SetupLight(l: Light, sh: Shader, index: int): (r: Shader)
    ensures forall k :: 0 <= k < |Fields| ==> Holds(r, UniName(index, Fields[k]), FieldValue(l, k))
    ensures forall n :: n in r.uniforms ==> n in sh.uniforms || IsNameOf(n, index)
    ensures forall n :: n in sh.uniforms && !IsNameOf(n, index) ==> n in r.uniforms && r.uniforms[n] == sh.uniforms[n]
    ensures r.units == sh.units
  {
    SetupFields(l, sh, index, |Fields|)
  }

  /** `n` is one of the six uniform names of light `index`. */
  ghost predicate IsNameOf(n: string, index: int) {
    exists k :: 0 <= k < |Fields| && n == UniName(index, Fields[k])
  }

  /** A light collection; `ambient` keeps its initial value `vec3(0.1)`. */
  datatype LightSet = LightSet(lights: seq<Light>, ambient: Vec3)

  const EmptyLightSet: LightSet := LightSet([], Splat(0.1))

  /** `LightSet::addLight`: appends, keeping earlier lights at their indices. */
  function AddLight(ls: LightSet, l: Light): (r: LightSet)
    ensures |r.lights| == |ls.lights| + 1 && r.lights[|ls.lights|] == l
    ensures forall j :: 0 <= j < |ls.lights| ==> r.lights[j] == ls.lights[j]
    ensures r.ambient == ls.ambient
  {
    ls.(lights := ls.lights + [l])
  }

  /** `setupLight` for light `index` leaves a uniform that is not one of
      that light's as it was. */
  lemma SetupLightKeeps(l: Light, sh: Shader, index: int, name: string, v: UniformValue)
    requires Holds(sh, name, v) && !IsNameOf(name, index)
    ensures Holds(SetupLight(l, sh, index), name, v)
  {
  }

  /** A uniform name of light `j` is none of light `index`'s when `j != index`. */
  lemma OtherLightName(j: int, k: nat, index: int)
    requires k < |Fields| && j != index
    ensures !IsNameOf(UniName(j, Fields[k]), index)
  {
    if IsNameOf(UniName(j, Fields[k]), index) {
      var k' :| 0 <= k' < |Fields| && UniName(j, Fields[k]) == UniName(index, Fields[k']);
      LightNamesDistinct(j, k, index, k');
    }
  }

  /** The names of the first `count` lights are those of the first
      `count - 1` and those of light `count - 1`. */
  lemma LightNamesGrow(n: string, count: int)
    requires count > 0
    ensures IsLightName(n, count) <==> IsLightName(n, count - 1) || IsNameOf(n, count - 1)
  {
    if IsLightName(n, count) {
      var j, k :| 0 <= j < count && 0 <= k < |Fields| && n == UniName(j, Fields[k]);
      if j == count - 1 {
        assert IsNameOf(n, count - 1);
      } else {
        assert IsLightName(n, count - 1);
      }
    }
    if IsNameOf(n, count - 1) {
      var k :| 0 <= k < |Fields| && n == UniName(count - 1, Fields[k]);
      assert IsLightName(n, count);
    }
  }

  const LightNum: string := "lightNum"
  const Ambient: string := "ambient"

  /** Neither `lightNum` nor `ambient` is a light uniform name. */
  lemma CountersAreNotLightNames(count: int)
    ensures !IsLightName(LightNum, count) && !IsLightName(Ambient, count)
  {
    forall j, k | 0 <= j < count && 0 <= k < |Fields|
      ensures LightNum != UniName(j, Fields[k]) && Ambient != UniName(j, Fields[k])
    {
      UniNamePrefix(j, Fields[k]);
      assert UniName(j, Fields[k])[5] == Prefix[5] == 's' != LightNum[5];
      assert UniName(j, Fields[k])[0] == Prefix[0] == 'l' != Ambient[0];
    }
  }

  /** What the loop of `setupLights` leaves after its first `i` iterations:
      light `j < i` is written under index `j`, and every uniform that is
      no name of those lights is as before. */
  ghost predicate FirstLightsSet(r: Shader, sh: Shader, lights: seq<Light>, i: nat)
    requires i <= |lights|
  {
    && (forall j, k :: 0 <= j < i && 0 <= k < |Fields| ==>
          Holds(r, UniName(j, Fields[k]), FieldValue(lights[j], k)))
    && (forall n :: n in sh.uniforms && !IsLightName(n, i) ==>
          n in r.uniforms && r.uniforms[n] == sh.uniforms[n])
    && r.units == sh.units
  }

  /** One iteration of the loop: setting up light `i` keeps the earlier
      lights' uniforms and adds its own. */
  lemma SetupLightStep(r: Shader, sh: Shader, lights: seq<Light>, i: nat)
    requires i < |lights| && FirstLightsSet(r, sh, lights, i)
    ensures FirstLightsSet(SetupLight(lights[i], r, i), sh, lights, i + 1)
  {
    var next := SetupLight(lights[i], r, i);
    forall j, k | 0 <= j < i && 0 <= k < |Fields|
      ensures Holds(next, UniName(j, Fields[k]), FieldValue(lights[j], k))
    {
      OtherLightName(j, k, i);
      SetupLightKeeps(lights[i], r, i, UniName(j, Fields[k]), FieldValue(lights[j], k));
    }
    forall n | n in sh.uniforms && !IsLightName(n, i + 1)
      ensures n in next.uniforms && next.uniforms[n] == sh.uniforms[n]
    {
      LightNamesGrow(n, i + 1);
    }
  }

  /** `LightSet::setupLights(shader)`: light `i` under index `i` for every
      light in insertion order, then the light count and the ambient color. */
  method SetupLights(ls: LightSet, sh: Shader) returns (r: Shader)
    ensures forall j, k :: 0 <= j < |ls.lights| && 0 <= k < |Fields| ==>
      Holds(r, UniName(j, Fields[k]), FieldValue(ls.lights[j], k))
    ensures Holds(r, LightNum, IntU(|ls.lights|))
    ensures Holds(r, Ambient, Vec3U(ls.ambient))
    ensures forall n :: n in sh.uniforms && n != LightNum && n != Ambient && !IsLightName(n, |ls.lights|) ==>
      n in r.uniforms && r.uniforms[n] == sh.uniforms[n]
    ensures r.units == sh.units
  {
    r := sh;
    var i := 0;
    while i < |ls.lights|
      invariant i <= |ls.lights| && FirstLightsSet(r, sh, ls.lights, i)
    {
      SetupLightStep(r, sh, ls.lights, i);
      r := SetupLight(ls.lights[i], r, i);
      i := i + 1;
    }
    CountersAreNotLightNames(i);
    r := SetVec3(SetInt(r, LightNum, i), Ambient, ls.ambient);
  }
}
