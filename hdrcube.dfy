/**
 * src/Loaders/HDRCubeTextureLoader.js: the float32 to binary16 conversion
 * `toHalf` (IEEE 754-2008, section 3.6), the sampling settings chosen from
 * the requested component type, and the per-file callback that counts
 * loaded faces and completes the cube on the sixth.
 */
module HdrCube {
  import opened Textures

  // ---------------------------------------------------------------- toHalf

  /** The sign as bit 15 of a half: `(x >> 16) & 0x8000`. */
  function SignBit(x: bv32): (s: bv32)
    ensures s == 0 || s == 0x8000
    ensures s == 0x8000 <==> x & 0x8000_0000 != 0
  {
    (x >> 16) & 0x8000
  }

  /** The biased float32 exponent: `(x >> 23) & 0xff`. */
  function Exponent(x: bv32): (e: bv32)
    ensures e <= 0xff
  {
    (x >> 23) & 0xff
  }

  /** The top 11 mantissa bits, one more than a half keeps: `(x >> 12) & 0x7ff`. */
  function WideMantissa(x: bv32): (m: bv32)
    ensures m <= 0x7ff
  {
    (x >> 12) & 0x7ff
  }

  /** JavaScript's `a && b` on numbers: `a` when it is falsy (0), else `b`. */
  function JsAnd(a: bv32, b: bv32): (r: bv32)
    ensures a == 0 ==> r == 0
    ensures a != 0 ==> r == b
  {
    if a == 0 then a else b
  }

  /** The rounded denormal half for exponents 103..112 (sign not included). */
  function DenormalHalf(x: bv32): (f: bv32)
    requires 103 <= Exponent(x) < 113
    ensures f <= 0x400
  {
    var m := WideMantissa(x) | 0x800;
    var e := Exponent(x);
    (m >> (114 - e)) + ((m >> (113 - e)) & 1)
  }

  /**
   * The rounded normal half for exponents 113..142 (sign not included);
   * rounding up from the largest value gives exactly Inf, 0x7c00.
   */
  function NormalHalf(x: bv32): (f: bv32)
    requires 113 <= Exponent(x) <= 142
    ensures 0x400 <= f <= 0x7c00
  {
    var m := WideMantissa(x);
    var e := Exponent(x);
    (((e - 112) << 10) | (m >> 1)) + (m & 1)
  }

  /**
   * The branches of `toHalf` for exponents up to 142: signed zero below
   * 103, a rounded denormal below 113, otherwise a rounded normal half.
   * The sign bit never collides with the magnitude bits.
   */
  function HalfInRange(x: bv32): (h: bv32)
    requires Exponent(x) <= 142
    ensures Exponent(x) < 103 ==> h == SignBit(x)
    ensures h < 0x1_0000 && h & 0x8000 == SignBit(x)
    ensures h & 0x7fff <= 0x7c00
  {
    var bits := SignBit(x);
    var e := Exponent(x);
    if e < 103 then bits
    else if e < 113 then bits | DenormalHalf(x)
    else bits | NormalHalf(x)
  }

  /**
   * Every normal half comes back from the float32 of the same value: sign
   * `s`, half exponent `e` (rebiased by 112) and the ten mantissa bits `m`
   * shifted up by 13.
   */
  lemma NormalRoundTrip(s: bv32, e: bv32, m: bv32)
    requires s <= 1 && 1 <= e <= 30 && m < 0x400
    ensures ToHalf((s << 31) | ((e + 112) << 23) | (m << 13)) == (s << 15) | (e << 10) | m
  {
    var x := (s << 31) | ((e + 112) << 23) | (m << 13);
    NormalFields(s, e, m);
    NormalHalfOf(x, e, m);
    NormalCase(x);
  }

  /** For exponents 113..142 `toHalf` is the sign ORed with the rounded normal. */
  lemma NormalCase(x: bv32)
    requires 113 <= Exponent(x) <= 142
    ensures ToHalf(x) == SignBit(x) | NormalHalf(x)
  {
  }

  /** An exactly representable normal needs no rounding. */
  lemma NormalHalfOf(x: bv32, e: bv32, m: bv32)
    requires 1 <= e <= 30 && m < 0x400
    requires Exponent(x) == e + 112 && WideMantissa(x) == m << 1
    ensures NormalHalf(x) == (e << 10) | m
  {
    NormalBits(e, m);
  }

  /** The bit arithmetic of `NormalHalfOf` on its own. */
  lemma NormalBits(e: bv32, m: bv32)
    requires 1 <= e <= 30 && m < 0x400
    ensures ((((e + 112) - 112) << 10) | ((m << 1) >> 1)) + ((m << 1) & 1) == (e << 10) | m
  {
  }

  /** The sign, exponent and wide-mantissa fields of an exact normal. */
  lemma NormalFields(s: bv32, e: bv32, m: bv32)
    requires s <= 1 && 1 <= e <= 30 && m < 0x400
    ensures var x := (s << 31) | ((e + 112) << 23) | (m << 13);
      Exponent(x) == e + 112 && WideMantissa(x) == m << 1 && SignBit(x) == s << 15
  {
  }

  /**
   * Every denormal half `2^k + r` (times 2^-24) comes back from its float32:
   * the leading bit `k` sets the float exponent to `103 + k` and the bits
   * `r` below it fill the top of the float mantissa, with nothing to round.
   */
  lemma DenormalRoundTrip(s: bv32, k: bv32, r: bv32)
    requires s <= 1 && k < 10 && r < (1 << k)
    ensures ToHalf((s << 31) | ((k + 103) << 23) | (r << (23 - k))) == (s << 15) | (1 << k) | r
  {
    var x := (s << 31) | ((k + 103) << 23) | (r << (23 - k));
    DenormalFields(s, k, r);
    DenormalHalfOf(x, k, r);
    DenormalCase(x);
  }

  /** The sign, exponent and wide-mantissa fields of an exact denormal. */
  lemma DenormalFields(s: bv32, k: bv32, r: bv32)
    requires s <= 1 && k < 10 && r < (1 << k)
    ensures var x := (s << 31) | ((k + 103) << 23) | (r << (23 - k));
      Exponent(x) == k + 103 && WideMantissa(x) == r << (11 - k) && SignBit(x) == s << 15
  {
  }

  /** For exponents 103..112 `toHalf` is the sign ORed with the rounded denormal. */
  lemma DenormalCase(x: bv32)
    requires 103 <= Exponent(x) < 113
    ensures ToHalf(x) == SignBit(x) | DenormalHalf(x)
  {
  }

  /** An exactly representable denormal needs no rounding. */
  lemma DenormalHalfOf(x: bv32, k: bv32, r: bv32)
    requires k < 10 && r < (1 << k)
    requires Exponent(x) == k + 103 && WideMantissa(x) == r << (11 - k)
    ensures DenormalHalf(x) == (1 << k) | r
  {
    DenormalBits(k, r);
  }

  /** The bit arithmetic of `DenormalHalfOf` on its own. */
  lemma DenormalBits(k: bv32, r: bv32)
    requires k < 10 && r < (1 << k)
    ensures var m := (r << (11 - k)) | 0x800;
      (m >> (114 - (k + 103))) + ((m >> (113 - (k + 103))) & 1) == (1 << k) | r
  {
  }

  /**
   * The overflow branch of `toHalf` as written: it ORs in
   * `((e == 255) ? 0 : 1) && (x & 0x7fffff)`, which is 0 for Inf and NaN
   * alike and the whole 23-bit mantissa for a finite overflow.
   */
  function OverflowHalf(x: bv32): (h: bv32)
    requires Exponent(x) > 142
    ensures Exponent(x) == 255 ==> h == SignBit(x) | 0x7c00
    ensures Exponent(x) < 255 ==> h == SignBit(x) | 0x7c00 | (x & 0x7f_ffff)
  {
    var bits := SignBit(x) | 0x7c00;
    bits | JsAnd(if Exponent(x) == 255 then 0 else 1, x & 0x7f_ffff)
  }

  /** `toHalf` as written, on the 32-bit pattern of its argument. */
  function ToHalf(x: bv32): (h: bv32)
    ensures Exponent(x) < 103 ==> h == SignBit(x)
    ensures Exponent(x) <= 142 ==> h < 0x1_0000 && h & 0x8000 == SignBit(x)
    ensures Exponent(x) == 255 ==> h == SignBit(x) | 0x7c00
    ensures 142 < Exponent(x) < 255 ==> h == SignBit(x) | 0x7c00 | (x & 0x7f_ffff)
  {
    if Exponent(x) > 142 then OverflowHalf(x) else HalfInRange(x)
  }

  /** A float32 NaN: all exponent bits set and a non-zero mantissa. */
  predicate IsNaN32(x: bv32)
  {
    Exponent(x) == 0xff && x & 0x7f_ffff != 0
  }

  /** A binary16 NaN. */
  predicate IsNaN16(h: bv32)
  {
    h < 0x1_0000 && h & 0x7c00 == 0x7c00 && h & 0x3ff != 0
  }

  /** The quiet NaN 0x7fc00000 comes out as +Inf: NaN is not preserved. */
  lemma ToHalfLosesNaN()
    ensures IsNaN32(0x7fc0_0000) && ToHalf(0x7fc0_0000) == 0x7c00 && !IsNaN16(ToHalf(0x7fc0_0000))
  {
  }

  /** The largest finite float32 overflows into a value wider than 16 bits. */
  lemma ToHalfOverflowsSixteenBits()
    ensures ToHalf(0x7f7f_ffff) == 0x7f_ffff && ToHalf(0x7f7f_ffff) >= 0x1_0000
  {
  }

  /** What a `Uint16Array` element keeps of a stored value: its low 16 bits. */
  function StoreUint16(h: bv32): (r: bv32)
    ensures r < 0x1_0000 && (h < 0x1_0000 ==> r == h)
  {
    h & 0xffff
  }

  /**
   * Stored into the `Uint16Array` of `RGBEByteToRGBHalf`, the overflowed
   * 0x7fffff of the largest finite float keeps its low bits 0xffff, a half NaN.
   */
  lemma ToHalfStoredOverflowIsNaN()
    ensures StoreUint16(ToHalf(0x7f7f_ffff)) == 0xffff && IsNaN16(0xffff)
  {
    ToHalfOverflowsSixteenBits();
  }

  /**
   * `toHalf` as its comments describe it: overflow gives signed Inf, and
   * NaN keeps one mantissa bit so that it stays NaN.
   */
  function ToHalfIntended(x: bv32): (h: bv32)
    ensures h < 0x1_0000 && h & 0x8000 == SignBit(x)
    ensures Exponent(x) <= 142 ==> h == ToHalf(x)
    ensures IsNaN32(x) <==> IsNaN16(h)
    ensures Exponent(x) > 142 && !IsNaN32(x) ==> h == SignBit(x) | 0x7c00
  {
    var e := Exponent(x);
    if e > 142 then
      SignBit(x) | 0x7c00 | (if e == 255 && x & 0x7f_ffff != 0 then 1 else 0)
    else
      HalfInRange(x)
  }

  // ---------------------------------------------------------------- settings

  /** The settings `load` gives the cube texture for a component type. */
  function CubeParams(t: TextureType): (p: SamplingParams)
    ensures p.texType == t && p.anisotropy == 0
    ensures t == UnsignedByteType <==> p.encoding == RGBEEncoding
    ensures t == UnsignedByteType ==>
      p.format == RGBAFormat && p.minFilter == NearestFilter && p.magFilter == NearestFilter && !p.generateMipmaps
    ensures t != UnsignedByteType ==>
      p.encoding == LinearEncoding && p.format == RGBFormat
      && p.minFilter == LinearFilter && p.magFilter == LinearFilter && p.generateMipmaps
  {
    var encoding := if t == UnsignedByteType then RGBEEncoding else LinearEncoding;
    var format := if t == UnsignedByteType then RGBAFormat else RGBFormat;
    var filter := if encoding == RGBEEncoding then NearestFilter else LinearFilter;
    SamplingParams(format, t, encoding, filter, filter, encoding != RGBEEncoding, 0)
  }

  // ---------------------------------------------------------------- callbacks

  /** What the RGBE parser hands back for one file. */
  datatype Parsed =
    | Unparsed
      /** A result carrying `image`: the branch that assigns to `texture[i].images` and throws. */
    | ImageResult
    | DataResult(width: nat, height: nat)

  /** Whether the callback that finds `loadedBefore` earlier ones completes the cube. */
  function Completes(loadedBefore: int, r: Parsed): (b: bool)
    ensures b ==> loadedBefore == 5
    ensures r.Unparsed? || r.ImageResult? ==> !b
    ensures loadedBefore == 5 && r.DataResult? ==> b
  {
    loadedBefore + 1 == 6 && r.DataResult?
  }

  /** How many of the callbacks `rs`, after `loadedBefore` earlier ones, complete the cube. */
  function CompletionCount(loadedBefore: int, rs: seq<Parsed>): nat
    decreases |rs|
  {
    if rs == [] then 0
    else (if Completes(loadedBefore, rs[0]) then 1 else 0) + CompletionCount(loadedBefore + 1, rs[1..])
  }

  /**
   * Over any run of callbacks from a fresh load the cube completes at most
   * once, and it completes exactly when there is a sixth callback and that
   * one parsed to pixel data.
   */
  lemma {:induction false} CompletesAtMostOnce(loadedBefore: nat, rs: seq<Parsed>)
    requires loadedBefore <= 6
    ensures CompletionCount(loadedBefore, rs) <= 1
    ensures CompletionCount(loadedBefore, rs) == 1 <==>
      loadedBefore < 6 && 6 - loadedBefore <= |rs| && rs[5 - loadedBefore].DataResult?
    decreases |rs|
  {
    if rs != [] {
      if loadedBefore < 6 {
        CompletesAtMostOnce(loadedBefore + 1, rs[1..]);
      } else {
        AfterSixNeverCompletes(loadedBefore + 1, rs[1..]);
      }
    }
  }

  lemma {:induction false} AfterSixNeverCompletes(loadedBefore: int, rs: seq<Parsed>)
    requires loadedBefore >= 6
    ensures CompletionCount(loadedBefore, rs) == 0
    decreases |rs|
  {
    if rs != [] {
      AfterSixNeverCompletes(loadedBefore + 1, rs[1..]);
    }
  }

  /** One call of `load`: the cube texture it returns and its `loaded` counter. */
  class CubeLoad {
    const texture: Texture
    const hasOnLoad: bool
    var loaded: int

    /** `load(type, urls, onLoad)` up to issuing the requests (src/Loaders/HDRCubeTextureLoader.js:102-116). */
    constructor (t: TextureType, hasOnLoad: bool)
      ensures fresh(texture) && texture.Params() == CubeParams(t)
      ensures texture.images == map[] && !texture.needsUpdate
      ensures this.hasOnLoad == hasOnLoad && loaded == 0
    {
      texture := new Texture(CubeParams(t));
      this.hasOnLoad := hasOnLoad;
      loaded := 0;
    }

    /**
     * The file callback for face `i`: count it, stop if parsing failed,
     * store the face (or throw on an `image` result), and complete the cube
     * when this is the sixth callback. `onLoadCalled` reports the user
     * callback running.
     */
    method OnFile(i: nat, r: Parsed) returns (completed: bool, onLoadCalled: bool, threw: bool)
      modifies this`loaded, texture`images, texture`needsUpdate
      ensures loaded == old(loaded) + 1
      ensures threw <==> r.ImageResult?
      ensures completed <==> Completes(old(loaded), r)
      ensures onLoadCalled <==> completed && hasOnLoad
      ensures r.DataResult? ==> texture.images == old(texture.images)[i := FaceImage(r.width, r.height,
        texture.format, texture.texType, texture.encoding, texture.minFilter, texture.magFilter)]
      ensures !r.DataResult? ==> texture.images == old(texture.images)
      ensures texture.needsUpdate == (old(texture.needsUpdate) || completed)
    {
      loaded := loaded + 1;
      completed, onLoadCalled, threw := false, false, false;
      match r {
        case Unparsed =>
          return;
        case ImageResult =>
          threw := true;
          return;
        case DataResult(w, h) =>
          var face := FaceImage(w, h, texture.format, texture.texType, texture.encoding,
                                texture.minFilter, texture.magFilter);
          texture.images := texture.images[i := face];
      }
      if loaded == 6 {
        texture.needsUpdate := true;
        completed := true;
        onLoadCalled := hasOnLoad;
      }
    }
  }
}
