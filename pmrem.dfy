/**
 * src/Loaders/PMREMGenerator.js: the prefiltered mipmapped radiance
 * environment map generator. The model keeps the level schedule (how
 * many levels, their sizes, the roughness, query scale and source texture
 * each level renders with), the six-face render order, the save and
 * restore of the renderer's settings, and the two real-valued pieces of
 * the fragment shader: the seam remap and the per-face direction table.
 */
module Pmrem {
  import opened Wrappers
  import opened Numbers
  import opened Textures
  import opened Seqs

  const DefaultResolution: nat := 256
  const DefaultSamplesPerLevel: int := 16
  /** The `SAMPLES_PER_LEVEL` define the shader is created with. */
  const ShaderSamplesPerLevel: int := 20
  const MinLodSize: real := 16.0
  /** Levels 0..4 become the source of the next level; later ones do not. */
  const LastCascadeLevel: nat := 4

  function Max(a: real, b: real): (m: real)
    ensures m >= a && m >= b && (m == a || m == b)
  {
    if a >= b then a else b
  }

  function Pow2(k: nat): (p: nat)
    ensures p >= 1
  {
    if k == 0 then 1 else 2 * Pow2(k - 1)
  }

  predicate IsPowerOfTwo(n: nat)
  {
    n == 1 || (n >= 2 && n % 2 == 0 && IsPowerOfTwo(n / 2))
  }

  /** The exponent of a power of two (`Math.log(size) / Math.log(2)`, exact here). */
  function Log2(n: nat): (k: nat)
    requires IsPowerOfTwo(n)
    ensures Pow2(k) == n
  {
    if n == 1 then 0 else 1 + Log2(n / 2)
  }

  // ---------------------------------------------------------------- settings

  /** Encodings that can be filtered linearly. */
  predicate Monotonic(e: Encoding)
  {
    e == LinearEncoding || e == GammaEncoding || e == SRGBEncoding
  }

  /** The min and mag filter the generator imposes on its source. */
  function PrefilterFilter(e: Encoding): (f: Filter)
    ensures f == LinearFilter <==> Monotonic(e)
    ensures f == NearestFilter <==> !Monotonic(e)
  {
    if Monotonic(e) then LinearFilter else NearestFilter
  }

  /** How many levels a resolution of `2^k` holds: `k - 2` (negative below 4). */
  function NumLods(resolution: nat): (n: int)
    requires IsPowerOfTwo(resolution)
    ensures n >= -2 && Pow2((n + 2) as nat) == resolution
  {
    Log2(resolution) as int - 2
  }

  lemma DefaultNumLods()
    ensures IsPowerOfTwo(DefaultResolution) && NumLods(DefaultResolution) == 6
  {
    assert Pow2(8) == 256;
    Pow2Injective(Log2(256), 8);
  }

  lemma {:induction false} Pow2Injective(j: nat, k: nat)
    requires Pow2(j) == Pow2(k)
    ensures j == k
  {
    if j > 0 && k > 0 {
      Pow2Injective(j - 1, k - 1);
    }
  }

  /** The width of level `i`: the resolution, then halving but never below 16. */
  function LodSize(resolution: real, i: nat): (s: real)
    ensures i == 0 ==> s == resolution
    ensures i > 0 ==> s >= MinLodSize
  {
    if i == 0 then resolution else Max(MinLodSize, LodSize(resolution, i - 1) / 2.0)
  }

  lemma HalveQuotient(r: real, p: real)
    requires p > 0.0
    ensures r / (2.0 * p) == (r / p) / 2.0
  {
  }

  /** Each level is the resolution halved `i` times, floored at 16. */
  lemma {:induction false} LodSizeClosedForm(resolution: real, i: nat)
    requires resolution >= MinLodSize
    ensures LodSize(resolution, i) == Max(MinLodSize, resolution / Pow2(i) as real)
  {
    if i > 0 {
      LodSizeClosedForm(resolution, i - 1);
      var p := Pow2(i - 1) as real;
      var q := resolution / p;
      assert Pow2(i) as real == 2.0 * p;
      HalveQuotient(resolution, p);
      assert LodSize(resolution, i) == Max(MinLodSize, Max(MinLodSize, q) / 2.0);
    }
  }

  lemma LodSizesNonIncreasing(resolution: real, i: nat)
    requires resolution >= MinLodSize
    ensures LodSize(resolution, i + 1) <= LodSize(resolution, i)
  {
  }

  lemma DefaultLodSizes()
    ensures LodSize(256.0, 0) == 256.0 && LodSize(256.0, 1) == 128.0 && LodSize(256.0, 2) == 64.0
    ensures LodSize(256.0, 3) == 32.0 && LodSize(256.0, 4) == 16.0 && LodSize(256.0, 5) == 16.0
  {
  }

  /** `r = i / (numLods - 1)`, then `r * 0.9`: NaN when there is a single level. */
  function Roughness(i: nat, numLods: int): (r: JsNumber)
    ensures i < numLods && numLods >= 2 ==> r.Finite? && 0.0 <= r.value <= 0.9
    ensures numLods == 1 && i == 0 ==> r == NaN
  {
    Scale(Div(i as real, (numLods - 1) as real), 0.9)
  }

  lemma RoughnessEnds(numLods: int)
    requires numLods >= 2
    ensures Roughness(0, numLods) == Finite(0.0)
    ensures Roughness((numLods - 1) as nat, numLods) == Finite(0.9)
  {
  }

  lemma RoughnessIncreasing(i: nat, j: nat, numLods: int)
    requires i < j < numLods
    ensures Roughness(i, numLods).Finite? && Roughness(j, numLods).Finite?
    ensures Roughness(i, numLods).value < Roughness(j, numLods).value
  {
    var d := (numLods - 1) as real;
    assert i as real / d < j as real / d;
  }

  lemma SingleLevelRoughnessIsNaN()
    ensures Roughness(0, 1) == NaN
  {
  }

  datatype EnvMap = SourceMap | LodMap(level: nat)

  /** The texture level `i` samples: the source for level 0, then the previous level, never past level 4. */
  function LevelSource(i: nat): (r: EnvMap)
    ensures r.SourceMap? <==> i == 0
    ensures r.LodMap? ==> r.level < i && r.level <= LastCascadeLevel
  {
    if i == 0 then SourceMap
    else LodMap(if i - 1 <= LastCascadeLevel then i - 1 else LastCascadeLevel)
  }

  /** Only level 0 reads the source; every other level reads an earlier, already rendered level. */
  lemma CascadeReadsEarlierLevels(i: nat)
    ensures LevelSource(i) == SourceMap <==> i == 0
    ensures LevelSource(i).LodMap? ==> LevelSource(i).level < i && LevelSource(i).level <= LastCascadeLevel
    ensures 1 <= i <= LastCascadeLevel + 1 ==> LevelSource(i) == LodMap(i - 1)
  {
  }

  // ---------------------------------------------------------------- rendering

  datatype ToneMapping = NoToneMapping | LinearToneMapping | OtherToneMapping

  datatype RendererSettings = RendererSettings(
    toneMapping: ToneMapping, exposure: real, gammaInput: bool, gammaOutput: bool)

  /** The settings every level is rendered with. */
  const PrefilterSettings := RendererSettings(LinearToneMapping, 1.0, false, false)

  /** One `renderer.render` call: its target, the face and uniforms, the renderer's settings. */
  datatype Draw = Draw(
    target: nat, activeCubeFace: int, faceIndex: int,
    roughness: JsNumber, queryScaleX: real, mapSize: real, envMap: EnvMap,
    settings: RendererSettings)

  /** The WebGL renderer. Drawing is recorded, not performed. */
  class Renderer {
    var toneMapping: ToneMapping
    var toneMappingExposure: real
    var gammaInput: bool
    var gammaOutput: bool
    var draws: seq<Draw>

    constructor (s: RendererSettings)
      ensures Settings() == s && draws == []
    {
      toneMapping := s.toneMapping;
      toneMappingExposure := s.exposure;
      gammaInput := s.gammaInput;
      gammaOutput := s.gammaOutput;
      draws := [];
    }

    function Settings(): RendererSettings
      reads this
    {
      RendererSettings(toneMapping, toneMappingExposure, gammaInput, gammaOutput)
    }

    method Render(d: Draw)
      modifies this`draws
      ensures draws == old(draws) + [d]
    {
      draws := draws + [d];
    }
  }

  /** A `WebGLRenderTargetCube` for level `level`. */
  class RenderTarget {
    const level: nat
    const width: real
    const height: real
    const params: SamplingParams
    var activeCubeFace: int

    constructor (level: nat, width: real, height: real, params: SamplingParams)
      ensures this.level == level && this.width == width && this.height == height
      ensures this.params == params && activeCubeFace == 0
    {
      this.level := level;
      this.width := width;
      this.height := height;
      this.params := params;
      activeCubeFace := 0;
    }
  }

  /** The six draws of one cube target, faces 0..5, under fixed uniforms and settings. */
  function FaceDraws(level: nat, roughness: JsNumber, queryScaleX: real, mapSize: real,
                     envMap: EnvMap, settings: RendererSettings): (ds: seq<Draw>)
    ensures |ds| == 6
    ensures forall f :: 0 <= f < 6 ==> ds[f].activeCubeFace == f && ds[f].faceIndex == f
  {
    seq(6, f => Draw(level, f, f, roughness, queryScaleX, mapSize, envMap, settings))
  }

  /** What level `i` is drawn with. */
  function LevelDraws(resolution: nat, numLods: int, i: nat): (ds: seq<Draw>)
    ensures |ds| == 6
  {
    FaceDraws(i, Roughness(i, numLods), if i == 0 then -1.0 else 1.0,
              LodSize(resolution as real, i), LevelSource(i), PrefilterSettings)
  }

  /** Face `f` of level `i`. */
  function PlannedDraw(resolution: nat, numLods: int, i: nat, f: nat): Draw
  {
    Draw(i, f, f, Roughness(i, numLods), if i == 0 then -1.0 else 1.0,
         LodSize(resolution as real, i), LevelSource(i), PrefilterSettings)
  }

  /** The draws of levels `0..levels-1`, six faces each. */
  function Schedule(resolution: nat, numLods: int, levels: nat): (ds: seq<Draw>)
    ensures |ds| == 6 * levels
  {
    if levels == 0 then [] else Schedule(resolution, numLods, levels - 1) + LevelDraws(resolution, numLods, levels - 1)
  }

  /** Draw `k` of the schedule renders face `k % 6` of level `k / 6`: levels in order, faces 0..5 within each. */
  lemma {:induction false} ScheduleOrder(resolution: nat, numLods: int, levels: nat)
    ensures |Schedule(resolution, numLods, levels)| == 6 * levels
    ensures forall k :: 0 <= k < 6 * levels ==>
      Schedule(resolution, numLods, levels)[k] == PlannedDraw(resolution, numLods, k / 6, k % 6)
  {
    if levels > 0 {
      ScheduleOrder(resolution, numLods, levels - 1);
      var s := Schedule(resolution, numLods, levels);
      forall k | 0 <= k < 6 * levels
        ensures s[k] == PlannedDraw(resolution, numLods, k / 6, k % 6)
      {
        if k >= 6 * (levels - 1) {
          assert k / 6 == levels - 1 && k % 6 == k - 6 * (levels - 1);
        }
      }
    }
  }

  // ---------------------------------------------------------------- the generator

  class Generator {
    const sourceTexture: Texture
    const resolution: nat
    const samplesPerLevel: int
    const numLods: int
    const cubeLods: seq<RenderTarget>
    /** The shader's `SAMPLES_PER_LEVEL` define. */
    var samplesDefine: int
    // The shader uniforms.
    var faceIndex: int
    var roughness: JsNumber
    var mapSize: real
    var envMap: EnvMap
    var queryScaleX: real

    /** How many levels there are (`numLods` is negative below a resolution of 4). */
    function Levels(): nat
    {
      if numLods > 0 then numLods as nat else 0
    }

    ghost predicate Valid()
      reads this
    {
      && IsPowerOfTwo(resolution) && numLods == NumLods(resolution)
      && |cubeLods| == Levels()
      && forall i :: 0 <= i < |cubeLods| ==>
           cubeLods[i].level == i && cubeLods[i].width == LodSize(resolution as real, i)
           && cubeLods[i].height == cubeLods[i].width
    }

    /**
     * `new PMREMGenerator(sourceTexture, samplesPerLevel, resolution)`:
     * absent arguments take their defaults; the source's filters follow its
     * encoding and its mipmaps can only be switched off; one target per
     * level is created with the source's resulting settings.
     */
    constructor (source: Texture, samples: Option<int>, res: Option<nat>)
      requires res.None? || IsPowerOfTwo(res.value)
      modifies source`minFilter, source`magFilter, source`generateMipmaps
      ensures Valid()
      ensures sourceTexture == source
      ensures resolution == res.GetOr(DefaultResolution) && samplesPerLevel == samples.GetOr(DefaultSamplesPerLevel)
      ensures source.minFilter == PrefilterFilter(source.encoding) && source.magFilter == PrefilterFilter(source.encoding)
      ensures source.generateMipmaps == (old(source.generateMipmaps) && Monotonic(source.encoding))
      ensures source.encoding == old(source.encoding) && source.format == old(source.format)
      ensures source.texType == old(source.texType) && source.anisotropy == old(source.anisotropy)
      ensures source.needsUpdate == old(source.needsUpdate) && source.images == old(source.images)
      ensures forall i :: 0 <= i < |cubeLods| ==> cubeLods[i].params == source.Params()
      ensures samplesDefine == samplesPerLevel
      ensures envMap == SourceMap
    {
      sourceTexture := source;
      var r := res.GetOr(DefaultResolution);
      if res.None? {
        DefaultNumLods();
      }
      resolution := r;
      samplesPerLevel := samples.GetOr(DefaultSamplesPerLevel);
      var monotonic := Monotonic(source.encoding);
      source.minFilter := if monotonic then LinearFilter else NearestFilter;
      source.magFilter := if monotonic then LinearFilter else NearestFilter;
      source.generateMipmaps := source.generateMipmaps && monotonic;
      var params := source.Params();
      assert params.minFilter == PrefilterFilter(params.encoding);
      var n := NumLods(r);
      var lods := CreateLods(r, params);
      numLods := n;
      cubeLods := lods;
      samplesDefine := ShaderSamplesPerLevel;
      faceIndex := 0;
      roughness := Finite(0.5);
      mapSize := 0.5;
      envMap := SourceMap;
      queryScaleX := 1.0;
      new;
      samplesDefine := samplesPerLevel;
    }

    /** One render target per level, halving down to the minimum LOD size. */
    static method CreateLods(r: nat, params: SamplingParams) returns (lods: seq<RenderTarget>)
      requires IsPowerOfTwo(r)
      ensures |lods| == if NumLods(r) > 0 then NumLods(r) else 0
      ensures forall j :: 0 <= j < |lods| ==>
        lods[j].level == j && lods[j].width == LodSize(r as real, j)
        && lods[j].height == lods[j].width && lods[j].params == params
    {
      var n := NumLods(r);
      lods := [];
      var size := r as real;
      var i := 0;
      while i < n
        invariant 0 <= i && (n > 0 ==> i <= n) && (n <= 0 ==> i == 0)
        invariant |lods| == i && size == LodSize(r as real, i)
        invariant forall j :: 0 <= j < i ==>
          lods[j].level == j && lods[j].width == LodSize(r as real, j)
          && lods[j].height == lods[j].width && lods[j].params == params
      {
        var target := new RenderTarget(i, size, size, params);
        lods := lods + [target];
        size := Max(MinLodSize, size / 2.0);
        i := i + 1;
      }
    }

    /** `renderToCubeMapTargetFace`: select the face, then draw. */
    method RenderFace(renderer: Renderer, target: RenderTarget, face: int)
      modifies target`activeCubeFace, this`faceIndex, renderer`draws
      ensures target.activeCubeFace == face && faceIndex == face
      ensures renderer.draws == old(renderer.draws) +
        [Draw(target.level, face, face, roughness, queryScaleX, mapSize, envMap, renderer.Settings())]
    {
      target.activeCubeFace := face;
      faceIndex := face;
      renderer.Render(Draw(target.level, target.activeCubeFace, faceIndex, roughness, queryScaleX,
                           mapSize, envMap, renderer.Settings()));
    }

    /** `renderToCubeMapTarget`: faces 0 to 5 in order. */
    method RenderCube(renderer: Renderer, target: RenderTarget)
      modifies target`activeCubeFace, this`faceIndex, renderer`draws
      ensures renderer.draws == old(renderer.draws) +
        FaceDraws(target.level, roughness, queryScaleX, mapSize, envMap, renderer.Settings())
      ensures faceIndex == 5 && target.activeCubeFace == 5
    {
      ghost var planned := FaceDraws(target.level, roughness, queryScaleX, mapSize, envMap, renderer.Settings());
      ghost var d0 := renderer.draws;
      var f := 0;
      while f < 6
        invariant 0 <= f <= 6
        invariant renderer.draws == d0 + planned[..f]
        invariant f > 0 ==> faceIndex == f - 1 && target.activeCubeFace == f - 1
      {
        RenderFace(renderer, target, f);
        assert planned[..f + 1] == planned[..f] + [planned[f]];
        AppendAssoc(d0, planned[..f], [planned[f]]);
        f := f + 1;
      }
      assert planned[..6] == planned;
    }

    /**
     * `update(renderer)`: render every level from the cascade of source
     * textures under linear, ungamma'd settings, then put the renderer's
     * settings back.
     */
    method Update(renderer: Renderer)
      requires Valid()
      modifies this`faceIndex, this`roughness, this`mapSize, this`envMap, this`queryScaleX
      modifies renderer, set t | t in cubeLods
      ensures Valid()
      ensures renderer.Settings() == old(renderer.Settings())
      ensures renderer.draws == old(renderer.draws) + Schedule(resolution, numLods, Levels())
      ensures envMap == LevelSource(Levels())
    {
      envMap := SourceMap;
      var toneMapping := renderer.toneMapping;
      var toneMappingExposure := renderer.toneMappingExposure;
      var gammaInput := renderer.gammaInput;
      var gammaOutput := renderer.gammaOutput;
      renderer.toneMapping := LinearToneMapping;
      renderer.toneMappingExposure := 1.0;
      renderer.gammaInput := false;
      renderer.gammaOutput := false;
      ghost var d0 := renderer.draws;
      var i := 0;
      while i < |cubeLods|
        invariant 0 <= i <= |cubeLods|
        invariant renderer.Settings() == PrefilterSettings
        invariant renderer.draws == d0 + Schedule(resolution, numLods, i)
        invariant envMap == LevelSource(i)
      {
        roughness := Roughness(i, numLods);
        queryScaleX := if i == 0 then -1.0 else 1.0;
        var size := cubeLods[i].width;
        mapSize := size;
        ghost var level := LevelDraws(resolution, numLods, i);
        assert FaceDraws(cubeLods[i].level, roughness, queryScaleX, mapSize, envMap, renderer.Settings()) == level;
        ghost var before := renderer.draws;
        RenderCube(renderer, cubeLods[i]);
        assert renderer.draws == before + level;
        AppendAssoc(d0, Schedule(resolution, numLods, i), level);
        if i < 5 {
          envMap := LodMap(i);
        }
        assert envMap == LevelSource(i + 1);
        i := i + 1;
      }
      renderer.toneMapping := toneMapping;
      renderer.toneMappingExposure := toneMappingExposure;
      renderer.gammaInput := gammaInput;
      renderer.gammaOutput := gammaOutput;
    }
  }

  // ---------------------------------------------------------------- shader geometry

  datatype Vec3 = Vec3(x: real, y: real, z: real)

  /**
   * The seam remap of the fragment shader on one coordinate in [-1, 1]:
   * stretch the face so that texel `mapSize` lands one texel past the edge.
   */
  function SeamRemap(u: real, mapSize: real): (r: real)
    requires mapSize != 0.0
    ensures r == u * (1.0 + 1.0 / mapSize)
  {
    var offset := -1.0 / mapSize;
    var a := -1.0;
    var b := 1.0;
    var c := -1.0 + offset;
    var d := 1.0 - offset;
    var bminusa := b - a;
    (u - a) / bminusa * d - (u - b) / bminusa * c
  }

  lemma SeamRemapEdges(mapSize: real)
    requires mapSize != 0.0
    ensures SeamRemap(-1.0, mapSize) == -1.0 - 1.0 / mapSize
    ensures SeamRemap(1.0, mapSize) == 1.0 + 1.0 / mapSize
    ensures SeamRemap(0.0, mapSize) == 0.0
  {
  }

  /** The shader's face table: the direction through point (u, v) of face `face` (anything past 4 is -Z). */
  function FaceDirection(face: int, u: real, v: real): (d: Vec3)
    ensures 0 <= face <= 1 ==> Abs(d.x) == 1.0 && Abs(d.y) == Abs(v) && Abs(d.z) == Abs(u)
    ensures 2 <= face <= 3 ==> Abs(d.y) == 1.0 && Abs(d.x) == Abs(u) && Abs(d.z) == Abs(v)
    ensures face < 0 || face >= 4 ==> Abs(d.z) == 1.0 && Abs(d.x) == Abs(u) && Abs(d.y) == Abs(v)
  {
    if face == 0 then Vec3(1.0, -v, -u)
    else if face == 1 then Vec3(-1.0, -v, u)
    else if face == 2 then Vec3(u, 1.0, v)
    else if face == 3 then Vec3(u, -1.0, -v)
    else if face == 4 then Vec3(u, -v, 1.0)
    else Vec3(-u, -v, -1.0)
  }

  /** A face of a cube map and the (sc/|ma|, tc/|ma|) coordinates in it. */
  datatype FaceHit = FaceHit(face: nat, s: real, t: real)

  /**
   * Cube map face selection of OpenGL ES 2.0, section 3.7.5, table 3.21:
   * the axis of largest magnitude picks the face (+X, -X, +Y, -Y, +Z, -Z
   * are faces 0..5); the other two components, signed per the table and
   * divided by that magnitude, are the coordinates.
   */
  function SelectFace(d: Vec3): Option<FaceHit>
  {
    var ax, ay, az := Abs(d.x), Abs(d.y), Abs(d.z);
    if ax >= ay && ax >= az && ax > 0.0 then
      if d.x > 0.0 then Some(FaceHit(0, -d.z / ax, -d.y / ax)) else Some(FaceHit(1, d.z / ax, -d.y / ax))
    else if ay >= az && ay > 0.0 then
      if d.y > 0.0 then Some(FaceHit(2, d.x / ay, d.z / ay)) else Some(FaceHit(3, d.x / ay, -d.z / ay))
    else if az > 0.0 then
      if d.z > 0.0 then Some(FaceHit(4, d.x / az, -d.y / az)) else Some(FaceHit(5, -d.x / az, -d.y / az))
    else None
  }

  /** The face table is the inverse of cube map face selection inside each face. */
  lemma FaceTableSelectsItsFace(face: nat, u: real, v: real)
    requires face < 6 && -1.0 < u < 1.0 && -1.0 < v < 1.0
    ensures SelectFace(FaceDirection(face, u, v)) == Some(FaceHit(face, u, v))
  {
    var d := FaceDirection(face, u, v);
    if face < 2 {
      SelectsX(d);
    } else if face < 4 {
      SelectsY(d);
    } else {
      SelectsZ(d);
    }
  }

  lemma SelectsX(d: Vec3)
    requires (d.x == 1.0 || d.x == -1.0) && -1.0 < d.y < 1.0 && -1.0 < d.z < 1.0
    ensures SelectFace(d) == if d.x > 0.0 then Some(FaceHit(0, -d.z, -d.y)) else Some(FaceHit(1, d.z, -d.y))
  {
    assert Abs(d.x) == 1.0 && Abs(d.y) < 1.0 && Abs(d.z) < 1.0;
  }

  lemma SelectsY(d: Vec3)
    requires (d.y == 1.0 || d.y == -1.0) && -1.0 < d.x < 1.0 && -1.0 < d.z < 1.0
    ensures SelectFace(d) == if d.y > 0.0 then Some(FaceHit(2, d.x, d.z)) else Some(FaceHit(3, d.x, -d.z))
  {
    assert Abs(d.y) == 1.0 && Abs(d.x) < 1.0 && Abs(d.z) < 1.0;
  }

  lemma SelectsZ(d: Vec3)
    requires (d.z == 1.0 || d.z == -1.0) && -1.0 < d.x < 1.0 && -1.0 < d.y < 1.0
    ensures SelectFace(d) == if d.z > 0.0 then Some(FaceHit(4, d.x, -d.y)) else Some(FaceHit(5, -d.x, -d.y))
  {
    assert Abs(d.z) == 1.0 && Abs(d.x) < 1.0 && Abs(d.y) < 1.0;
  }

  /** Every direction of face `face` has major-axis component +1 or -1 on that face's axis. */
  lemma FaceMajorAxis(face: nat, u: real, v: real)
    requires face < 6
    ensures var d := FaceDirection(face, u, v);
      (face == 0 ==> d.x == 1.0) && (face == 1 ==> d.x == -1.0)
      && (face == 2 ==> d.y == 1.0) && (face == 3 ==> d.y == -1.0)
      && (face == 4 ==> d.z == 1.0) && (face == 5 ==> d.z == -1.0)
  {
  }
}
