/** The texture half of src/model.h: the model directory, the name-keyed
    texture cache of `loadTexture`, and `readTextureFromFile`.

    Image decoding (`stbi_load`) is a function from a file path to the
    image's native channel count, or `None` when the file cannot be read.
    Pixel data and GL uploads are not modelled; a texture is its name. */
module TextureCache {
  import opened Wrappers
  import opened Gl

  // ---------------------------------------------------------------------
  // Paths.
  // ---------------------------------------------------------------------

  const Separator: char := '\\'

  /** `s.find_last_of(c)`, with `None` for `npos`. */
  function LastIndexOf(s: string, c: char): (r: Option<nat>)
    ensures r.Some? ==> r.value < |s| && s[r.value] == c
    ensures r.Some? ==> forall k :: r.value < k < |s| ==> s[k] != c
    ensures r.None? ==> forall k :: 0 <= k < |s| ==> s[k] != c
  {
    if |s| == 0 then None
    else if s[|s| - 1] == c then Some(|s| - 1)
    else LastIndexOf(s[..|s| - 1], c)
  }

  /** `path.substr(0, path.find_last_of('\\'))`: everything before the last
      backslash, or the whole path when there is none (`substr(0, npos)`). */
  function Directory(path: string): (d: string)
    ensures |d| <= |path| && d == path[..|d|]
  {
    match LastIndexOf(path, Separator)
    case Some(i) => path[..i]
    case None => path
  }

  /** `directory + "\\" + fileName`. */
  function TexturePath(directory: string, name: string): string {
    directory + [Separator] + name
  }

  /** Splitting a texture path again yields its directory, provided the
      file name itself holds no backslash. */
  lemma DirectoryOfTexturePath(directory: string, name: string)
    requires forall k :: 0 <= k < |name| ==> name[k] != Separator
    ensures Directory(TexturePath(directory, name)) == directory
  {
    var p := TexturePath(directory, name);
    assert p[|directory|] == Separator;
    assert forall k :: |directory| < k < |p| ==> p[k] == name[k - |directory| - 1];
    var i := LastIndexOf(p, Separator);
    assert i.Some? && i.value >= |directory|;
    assert p[..|directory|] == directory;
  }

  /** A path with no backslash is its own directory, so texture paths then
      become `path + "\\" + name`. */
  lemma DirectoryWithoutSeparator(path: string)
    requires forall k :: 0 <= k < |path| ==> path[k] != Separator
    ensures Directory(path) == path
  {
  }

  // ---------------------------------------------------------------------
  // Decoding and upload.
  // ---------------------------------------------------------------------

  /** `stbi_load` on a path: the native channel count, or `None`. */
  type Decoder = string -> Option<nat>

  /** What `readTextureFromFile` returns on any failure: `-1` converted to
      `unsigned int`. */
  const FailedTex: nat := UintMax

  /** The texture types `loadTexture` is called with, and the rest. */
  datatype TextureKind = Diffuse | Specular | OtherKind

  /** `numChannel` in `loadTexture`: 4 for diffuse (keeps alpha), 3 for
      specular, 0 (native count) for anything else. */
  function RequestedChannels(kind: TextureKind): nat {
    match kind
    case Diffuse => 4
    case Specular => 3
    case OtherKind => 0
  }

  /** The channel count the pixels arrive with: the requested count, or the
      file's own count when 0 was requested. */
  function EffectiveChannels(expected: nat, native: nat): nat {
    if expected == 0 then native else expected
  }

  /** The `glTexImage2D` format for a channel count. */
  function FormatFor(channels: nat): (f: Option<TexFormat>)
    ensures f == Some(Rgb) <==> channels == 3
    ensures f == Some(Rgba) <==> channels == 4
    ensures f.None? <==> channels != 3 && channels != 4
  {
    if channels == 3 then Some(Rgb)
    else if channels == 4 then Some(Rgba)
    else None
  }

  /** The outcome of one `readTextureFromFile`: the handle returned, the
      format uploaded (`None` when nothing was), and the name supply after
      `glGenTextures`. */
  datatype Upload = Upload(handle: nat, format: Option<TexFormat>, names: Names)

  /** `readTextureFromFile(path, directory, expectedChannels)`. A texture
      name is generated before decoding, so one is used up even on failure. */
  function ReadTextureFromFile(name: string, directory: string, expected: nat, ns: Names, decode: Decoder): (r: Upload)
    ensures r.names == ns.(nextTexture := ns.nextTexture + 1)
    ensures r.format.Some? <==>
      decode(TexturePath(directory, name)).Some? &&
      FormatFor(EffectiveChannels(expected, decode(TexturePath(directory, name)).value)).Some?
    ensures r.format.Some? ==>
      r.handle == ns.nextTexture &&
      r.format == FormatFor(EffectiveChannels(expected, decode(TexturePath(directory, name)).value))
    ensures r.format.None? ==> r.handle == FailedTex
  {
    var (texture, ns') := GenTexture(ns);
    match decode(TexturePath(directory, name))
    case None => Upload(FailedTex, None, ns')
    case Some(native) =>
      var channels := EffectiveChannels(expected, native);
      match FormatFor(channels)
      case Some(format) => Upload(texture, Some(format), ns')
      case None => Upload(FailedTex, None, ns')
  }

  /** Diffuse images are always uploaded as RGBA and specular ones as RGB,
      whatever the file holds: only a failed decode loses them. Other kinds
      keep the file's channel count and fail unless it is 3 or 4. */
  lemma RequestedFormats(name: string, directory: string, ns: Names, decode: Decoder)
    requires decode(TexturePath(directory, name)).Some?
    ensures ReadTextureFromFile(name, directory, RequestedChannels(Diffuse), ns, decode).format == Some(Rgba)
    ensures ReadTextureFromFile(name, directory, RequestedChannels(Specular), ns, decode).format == Some(Rgb)
    ensures var native := decode(TexturePath(directory, name)).value;
      ReadTextureFromFile(name, directory, RequestedChannels(OtherKind), ns, decode).format.Some? <==>
        native == 3 || native == 4
  {
  }

  // ---------------------------------------------------------------------
  // The cache.
  // ---------------------------------------------------------------------

  /** `loadedTextures`, plus the names decoded so far in decode order. */
  datatype Cache = Cache(entries: map<string, nat>, decoded: seq<string>)

  const EmptyCache: Cache := Cache(map[], [])

  /** Every cached name was decoded exactly once, and every decode was
      cached. */
  ghost predicate Valid(c: Cache) {
    && (forall i, j :: 0 <= i < j < |c.decoded| ==> c.decoded[i] != c.decoded[j])
    && (forall n :: n in c.entries <==> n in c.decoded)
  }

  /** The cache only grows, and a cached name keeps its handle. */
  ghost predicate Extends(c: Cache, c': Cache) {
    && (forall n :: n in c.entries ==> n in c'.entries && c'.entries[n] == c.entries[n])
    && c.decoded <= c'.decoded
  }

  lemma ExtendsTransitive(a: Cache, b: Cache, c: Cache)
    requires Extends(a, b) && Extends(b, c)
    ensures Extends(a, c)
  {
  }

  /** The result of `loadTexture`: the target handle afterwards, with the
      cache and name supply. */
  datatype Loaded = Loaded(handle: nat, cache: Cache, names: Names)

  /** `loadTexture(mat, type, texture)`. `textures` is the material's list of
      textures of that kind; only the first is used. */
  function LoadTexture(c: Cache, ns: Names, directory: string, textures: seq<string>, kind: TextureKind,
                       target: nat, decode: Decoder): (r: Loaded)
    ensures |textures| == 0 ==> r == Loaded(target, c, ns)
    ensures |textures| > 0 && textures[0] in c.entries ==> r == Loaded(c.entries[textures[0]], c, ns)
    ensures |textures| > 0 && textures[0] !in c.entries ==>
      var up := ReadTextureFromFile(textures[0], directory, RequestedChannels(kind), ns, decode);
      && r.handle == up.handle && r.names == up.names
      && r.cache.entries == c.entries[textures[0] := up.handle]
      && r.cache.decoded == c.decoded + [textures[0]]
    ensures Extends(c, r.cache)
    ensures Valid(c) ==> Valid(r.cache)
    ensures |textures| > 0 ==> textures[0] in r.cache.entries && r.cache.entries[textures[0]] == r.handle
  {
    if |textures| > 0 then
      var name := textures[0];
      if name in c.entries then
        Loaded(c.entries[name], c, ns)
      else
        var up := ReadTextureFromFile(name, directory, RequestedChannels(kind), ns, decode);
        Loaded(up.handle, Cache(c.entries[name := up.handle], c.decoded + [name]), up.names)
    else
      Loaded(target, c, ns)
  }

  /** Looking a texture up a second time returns the first handle and
      decodes nothing: each name is decoded at most once. */
  lemma LoadTextureTwice(c: Cache, ns: Names, directory: string, textures: seq<string>,
                         k1: TextureKind, k2: TextureKind, t1: nat, t2: nat, decode: Decoder)
    requires |textures| > 0
    ensures var first := LoadTexture(c, ns, directory, textures, k1, t1, decode);
            var second := LoadTexture(first.cache, first.names, directory, textures, k2, t2, decode);
            second == Loaded(first.handle, first.cache, first.names)
  {
  }
}
