/**
 * MonoGame textures as the UI sees them (Helpers/NoesisTextureHelper.cs): a texture
 * has a surface format, a size, pixel data and a disposed flag; wrapping one for the
 * UI checks it and maps its format onto the UI's texture formats.
 */
module TextureHelper {
  import opened Wrappers

  /** One colour channel. */
  type Byte = x: int | 0 <= x < 256

  /** A pixel of a `Color` surface. */
  datatype Color = Color(r: Byte, g: Byte, b: Byte, a: Byte)

  /** The MonoGame surface formats the mapping names; every other format is `OtherFormat`. */
  datatype SurfaceFormat = ColorFormat | Bgra32 | Dxt1 | Dxt3 | Dxt5 | Alpha8 | OtherFormat(name: string)

  /** The UI's texture formats. */
  datatype NoesisFormat = BGRA8 | BC1 | BC2 | BC3 | R8

  /** The exceptions wrapping can raise. */
  datatype TextureError =
      DisposedTexture
    | NativeTexturePointerNotImplemented
    | UnknownTextureFormat(format: SurfaceFormat)

  class Texture2D {
    const format: SurfaceFormat
    const width: nat
    const height: nat
    var data: seq<Color>
    var isDisposed: bool

    constructor (format: SurfaceFormat, width: nat, height: nat, data: seq<Color>)
      ensures this.format == format && this.width == width && this.height == height
      ensures this.data == data && !isDisposed
    {
      this.format := format;
      this.width := width;
      this.height := height;
      this.data := data;
      isDisposed := false;
    }
  }

  /** A texture wrapped for the UI. */
  datatype NoesisTexture = NoesisTexture(width: nat, height: nat, format: NoesisFormat)

  /** The format mapping: 32-bit colour formats to BGRA8, the three DXT formats to BC1..BC3, Alpha8 to R8, nothing else. */
  function GetTextureFormat(format: SurfaceFormat): (r: Result<NoesisFormat, TextureError>)
    ensures r.Failure? <==> format.OtherFormat?
    ensures r.Failure? ==> r.error == UnknownTextureFormat(format)
    ensures r == Success(BGRA8) <==> format == ColorFormat || format == Bgra32
    ensures r == Success(R8) <==> format == Alpha8
    ensures r == Success(BC1) <==> format == Dxt1
    ensures r == Success(BC2) <==> format == Dxt3
    ensures r == Success(BC3) <==> format == Dxt5
  {
    match format
    case ColorFormat => Success(BGRA8)
    case Bgra32 => Success(BGRA8)
    case Dxt1 => Success(BC1)
    case Dxt3 => Success(BC2)
    case Dxt5 => Success(BC3)
    case Alpha8 => Success(R8)
    case OtherFormat(_) => Failure(UnknownTextureFormat(format))
  }

  /** Each block-compressed format keeps its own compression level, and no two known formats collide except the two 32-bit colour ones. */
  lemma TextureFormatIsInjectiveOnKnownFormats(f: SurfaceFormat, g: SurfaceFormat)
    requires !f.OtherFormat? && !g.OtherFormat?
    requires GetTextureFormat(f) == GetTextureFormat(g)
    ensures f == g || ({f, g} == {ColorFormat, Bgra32})
  {
  }

  /** The native pointer lookup, which the wrapper leaves unimplemented: it always throws. */
  function GetNativeTexturePtr(texture: Texture2D): Result<int, TextureError>
  {
    Failure(NativeTexturePointerNotImplemented)
  }

  /**
   * Wrapping a texture: none stays none; a disposed texture is refused; a live one
   * fails at the native-pointer lookup, which is not implemented, before its format
   * is looked up.
   */
  function CreateNoesisTexture(texture: Texture2D?): (r: Result<Option<NoesisTexture>, TextureError>)
    reads texture
    ensures texture == null ==> r == Success(Option.None)
    ensures texture != null && texture.isDisposed ==> r == Failure(DisposedTexture)
    ensures texture != null && !texture.isDisposed ==> r == Failure(NativeTexturePointerNotImplemented)
  {
    if texture == null then Success(Option.None)
    else if texture.isDisposed then Failure(DisposedTexture)
    else WrapD3D11Texture(texture)
  }

  /** The wrap call of a live texture: its arguments are evaluated in order, the native pointer first. */
  function WrapD3D11Texture(texture: Texture2D): Result<Option<NoesisTexture>, TextureError>
    reads texture
  {
    var width, height, format := texture.width, texture.height, GetTextureFormat(texture.format);
    match GetNativeTexturePtr(texture)
    case Failure(e) => Failure(e)
    case Success(_) =>
      match format
      case Failure(e) => Failure(e)
      case Success(f) => Success(Some(NoesisTexture(width, height, f)))
  }

  /** No texture is ever wrapped: only a missing one succeeds (with nothing), a disposed one and a live one fail with their own errors. */
  lemma WrappingNeverYieldsTexture(texture: Texture2D?)
    ensures var r := CreateNoesisTexture(texture);
      && (r.Success? <==> texture == null)
      && (r.Success? ==> r.value.None?)
      && (texture != null && texture.isDisposed ==> r == Failure(DisposedTexture))
      && (texture != null && !texture.isDisposed ==> r == Failure(NativeTexturePointerNotImplemented))
  {
  }

  /** MonoGame's conversion of a straight-alpha colour: each colour channel scaled by alpha / 255, alpha kept. */
  function FromNonPremultiplied(c: Color): (r: Color)
    ensures r.a == c.a && r.r <= c.r && r.g <= c.g && r.b <= c.b
    ensures r.r <= c.a && r.g <= c.a && r.b <= c.a
  {
    ScaledBelow(c.r, c.a);
    ScaledBelow(c.g, c.a);
    ScaledBelow(c.b, c.a);
    Color(c.r * c.a / 255, c.g * c.a / 255, c.b * c.a / 255, c.a)
  }

  /** `x * a / 255` is at most `x` and at most `a`. */
  lemma ScaledBelow(x: Byte, a: Byte)
    ensures 0 <= x * a / 255 <= x && x * a / 255 <= a
  {
    assert x * a <= x * 255;
    assert x * a <= 255 * a;
  }

  /** Opaque pixels are unchanged; fully transparent ones become transparent black. */
  lemma PremultiplyEnds(c: Color)
    ensures c.a == 255 ==> FromNonPremultiplied(c) == c
    ensures c.a == 0 ==> FromNonPremultiplied(c) == Color(0, 0, 0, 0)
  {
  }

  /** Every pixel premultiplied. */
  function Premultiplied(pixels: seq<Color>): (r: seq<Color>)
    ensures |r| == |pixels|
    ensures forall i :: 0 <= i < |pixels| ==> r[i] == FromNonPremultiplied(pixels[i])
  {
    seq(|pixels|, i requires 0 <= i < |pixels| => FromNonPremultiplied(pixels[i]))
  }

  /** Premultiplies a pixel buffer in place. */
  method PremultiplyAlpha(buffer: array<Color>)
    modifies buffer
    ensures buffer[..] == Premultiplied(old(buffer[..]))
  {
    var i := 0;
    while i < buffer.Length
      invariant 0 <= i <= buffer.Length
      invariant forall j :: 0 <= j < i ==> buffer[j] == FromNonPremultiplied(old(buffer[j]))
      invariant forall j :: i <= j < buffer.Length ==> buffer[j] == old(buffer[j])
    {
      buffer[i] := FromNonPremultiplied(buffer[i]);
      i := i + 1;
    }
  }

  /**
   * The post-processing of a texture read from a file: a `Color` texture gets its
   * pixels premultiplied (MonoGame loads straight alpha), any other is returned as it is.
   */
  method PremultiplyLoadedTexture(texture: Texture2D) returns (r: Texture2D)
    modifies texture
    ensures r == texture
    ensures texture.data == if texture.format == ColorFormat then Premultiplied(old(texture.data)) else old(texture.data)
    ensures texture.isDisposed == old(texture.isDisposed)
  {
    if texture.format != ColorFormat {
      return texture;
    }
    var buffer := new Color[|texture.data|](i requires 0 <= i < |texture.data| reads texture => texture.data[i]);
    PremultiplyAlpha(buffer);
    texture.data := buffer[..];
    return texture;
  }
}
