/**
 * The part of three.js's texture vocabulary the two loaders read and
 * write: encodings, formats, filters, component types, and a texture's
 * mutable sampling settings.
 */
module Textures {

  datatype TextureType = UnsignedByteType | FloatType | HalfFloatType | OtherType

  datatype Encoding =
    | LinearEncoding | SRGBEncoding | GammaEncoding | RGBEEncoding
    | LogLuvEncoding | RGBM7Encoding | RGBM16Encoding | RGBDEncoding

  datatype Format = RGBAFormat | RGBFormat | OtherFormat

  datatype Filter = NearestFilter | LinearFilter | OtherFilter

  /** The settings a texture or render target is sampled with. */
  datatype SamplingParams = SamplingParams(
    format: Format, texType: TextureType, encoding: Encoding,
    minFilter: Filter, magFilter: Filter, generateMipmaps: bool, anisotropy: int)

  /** One face of a cube texture built from decoded pixel data (a `DataTexture`). */
  datatype FaceImage = FaceImage(
    width: nat, height: nat, format: Format, texType: TextureType, encoding: Encoding,
    minFilter: Filter, magFilter: Filter)

  /** A (cube) texture whose settings the loaders and the prefilter update in place. */
  class Texture {
    var format: Format
    var texType: TextureType
    var encoding: Encoding
    var minFilter: Filter
    var magFilter: Filter
    var generateMipmaps: bool
    var anisotropy: int
    var needsUpdate: bool
    var images: map<nat, FaceImage>

    constructor (p: SamplingParams)
      ensures Params() == p && !needsUpdate && images == map[]
    {
      format := p.format;
      texType := p.texType;
      encoding := p.encoding;
      minFilter := p.minFilter;
      magFilter := p.magFilter;
      generateMipmaps := p.generateMipmaps;
      anisotropy := p.anisotropy;
      needsUpdate := false;
      images := map[];
    }

    /** The current settings, gathered as the `params` object of the prefilter constructor. */
    function Params(): SamplingParams
      reads this
    {
      SamplingParams(format, texType, encoding, minFilter, magFilter, generateMipmaps, anisotropy)
    }
  }
}
