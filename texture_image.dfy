/**
 * The mapping between image colour types and texture formats, the per-pixel
 * texture formats, texture descriptors built from images, and reading a
 * texture back into an image (src/wgpu/texture/image.rs).
 */
module TextureImage {
  import opened Prelude
  import opened ImageCrate
  import opened Wgpu

  predicate IsPowerOfTwo(n: nat)
  {
    n == 1 || n == 2 || n == 4 || n == 8 || n == 16
  }

  // ---------------------------------------------------------------------------
  // The conversion table

  /**
   * `format_from_image_color_type`: seven colour types have a texture format
   * of the same texel size; every other colour type has none.
   */
  function FormatFromColorType(c: ColorType): (r: Option<TextureFormat>)
    ensures r.Some? <==> (c.L8? || c.La8? || c.Rgba8? || c.L16? || c.La16? || c.Rgba16? || c.Bgra8?)
    ensures r.Some? ==> !IsSnorm(r.value) && TexelBytes(r.value) == BytesPerPixel(c)
  {
    match c
    case L8 => Some(R8Unorm)
    case La8 => Some(Rg8Unorm)
    case Rgba8 => Some(Rgba8UnormSrgb)
    case L16 => Some(R16Unorm)
    case La16 => Some(Rg16Unorm)
    case Rgba16 => Some(Rgba16Unorm)
    case Bgra8 => Some(Bgra8UnormSrgb)
    case _ => None
  }

  /**
   * `image_color_type_from_format`: seven formats have a colour type of the
   * same pixel size; every other format, each signed normalised one included,
   * has none.
   */
  function ColorTypeFromFormat(f: TextureFormat): (r: Option<ColorType>)
    ensures r.Some? <==>
      (f.R8Unorm? || f.Rg8Unorm? || f.Rgba8UnormSrgb? || f.R16Unorm? || f.Rg16Unorm? || f.Rgba16Unorm? || f.Bgra8UnormSrgb?)
    ensures IsSnorm(f) ==> r.None?
    ensures r.Some? ==> BytesPerPixel(r.value) == TexelBytes(f)
  {
    match f
    case R8Unorm => Some(L8)
    case Rg8Unorm => Some(La8)
    case Rgba8UnormSrgb => Some(Rgba8)
    case R16Unorm => Some(L16)
    case Rg16Unorm => Some(La16)
    case Rgba16Unorm => Some(Rgba16)
    case Bgra8UnormSrgb => Some(Bgra8)
    case _ => None
  }

  /** The two conversions are inverse to each other wherever either is defined. */
  lemma ConversionsInverse(c: ColorType, f: TextureFormat)
    ensures FormatFromColorType(c) == Some(f) <==> ColorTypeFromFormat(f) == Some(c)
  {
  }

  /** No two colour types share a texture format. */
  lemma FormatFromColorTypeInjective(c1: ColorType, c2: ColorType)
    requires FormatFromColorType(c1).Some? && FormatFromColorType(c1) == FormatFromColorType(c2)
    ensures c1 == c2
  {
  }

  /** No two texture formats share a colour type. */
  lemma ColorTypeFromFormatInjective(f1: TextureFormat, f2: TextureFormat)
    requires ColorTypeFromFormat(f1).Some? && ColorTypeFromFormat(f1) == ColorTypeFromFormat(f2)
    ensures f1 == f2
  {
  }

  /**
   * A colour type has a texture format exactly when its pixel size is a power
   * of two, the restriction wgpu places on texel sizes.
   */
  lemma FormatExistsIffPowerOfTwo(c: ColorType)
    ensures FormatFromColorType(c).Some? <==> IsPowerOfTwo(BytesPerPixel(c))
  {
  }

  // ---------------------------------------------------------------------------
  // The `Pixel` implementations

  /**
   * `Pixel::TEXTURE_FORMAT`: the texel has the pixel's size, and the format is
   * signed normalised exactly when the subpixel type is signed.
   */
  function TextureFormatOf(p: PixelType): (f: TextureFormat)
    ensures IsSnorm(f) <==> IsSigned(p)
    ensures TexelBytes(f) == ChannelCount(p) * SubpixelBytes(p)
    ensures IsPowerOfTwo(TexelBytes(f))
  {
    match p
    case BgraU8 => Bgra8UnormSrgb
    case LumaU8 => R8Unorm
    case LumaI8 => R8Snorm
    case LumaU16 => R16Unorm
    case LumaI16 => R16Snorm
    case LumaAU8 => Rg8Unorm
    case LumaAI8 => Rg8Snorm
    case LumaAU16 => Rg16Unorm
    case LumaAI16 => Rg16Snorm
    case RgbaU8 => Rgba8UnormSrgb
    case RgbaI8 => Rgba8Snorm
    case RgbaU16 => Rgba16Unorm
    case RgbaI16 => Rgba16Snorm
  }

  /**
   * The `Pixel` table agrees with the conversion table for the unsigned pixel
   * types; a signed pixel type's format has no colour type, and its colour
   * type converts to the unsigned format instead.
   */
  lemma PixelTableAgreesWithConversions(p: PixelType)
    ensures ColorTypeFromFormat(TextureFormatOf(p)) == if IsSigned(p) then None else Some(ColorTypeOf(p))
    ensures FormatFromColorType(ColorTypeOf(p)) == Some(TextureFormatOf(p)) <==> !IsSigned(p)
  {
  }

  // ---------------------------------------------------------------------------
  // Texture descriptors from images

  /**
   * `builder_from_image_view`: a fresh builder sized to the image, with the
   * pixel type's format; every other setting keeps its default.
   */
  function BuilderFromImageView(p: PixelType, image: ImageBuffer): (b: TextureBuilder)
    ensures b.size == Extent(image.width, image.height)
    ensures b.format == TextureFormatOf(p)
    ensures b.arrayLayerCount == NewBuilder.arrayLayerCount && b.usage == NewBuilder.usage
  {
    NewBuilder.(size := Extent(image.width, image.height)).(format := TextureFormatOf(p))
  }

  // ---------------------------------------------------------------------------
  // Reading textures back

  /** The readback buffer `Texture::to_buffer_bytes` fills with a copy of `source`. */
  datatype BufferBytes = BufferBytes(source: Texture)

  /** `BufferImage`: a readback buffer together with the image's colour type and size. */
  datatype BufferImage = BufferImage(colorType: ColorType, size: Extent, buffer: BufferBytes)

  /** `ImageAsyncMapping`: the mapped bytes of a `BufferImage`. */
  datatype ImageAsyncMapping = ImageAsyncMapping(colorType: ColorType, size: Extent, data: seq<int>)

  /**
   * `Texture::to_image`: no image when the texture's format has no colour
   * type; otherwise an image of that colour type and of the texture's size,
   * read from the texture.
   */
  function ToImage(t: Texture): (r: Option<BufferImage>)
    ensures r.None? <==> ColorTypeFromFormat(t.format).None?
    ensures r.Some? ==> FormatFromColorType(r.value.colorType) == Some(t.format)
    ensures r.Some? ==> r.value.size == t.size && r.value.buffer.source == t
  {
    match ColorTypeFromFormat(t.format)
    case None => None
    case Some(c) => Some(BufferImage(c, t.size, BufferBytes(t)))
  }

  /**
   * `Texture::to_image` on an encoder: when an image is produced, one copy of
   * the texture into the readback buffer is encoded; when none is, the
   * encoder is untouched, since the colour type is looked up first.
   */
  method EncodeToImage(t: Texture, encoder: CommandEncoder) returns (r: Option<BufferImage>)
    modifies encoder
    ensures r == ToImage(t)
    ensures encoder.commands == old(encoder.commands) + if r.Some? then [CopyTextureToBuffer(t)] else []
  {
    var colorType := ColorTypeFromFormat(t.format);
    if colorType.None? {
      return None;
    }
    var size := t.size;
    encoder.CopyTextureToBufferCmd(t);
    r := Some(BufferImage(colorType.value, size, BufferBytes(t)));
  }

  /**
   * The mapping callback of `BufferImage::read`: a successfully mapped buffer
   * becomes a mapping with the image's colour type and size; a failure is
   * passed on.
   */
  function MapReadResult(b: BufferImage, mapped: Result<seq<int>, ()>): (r: Result<ImageAsyncMapping, ()>)
    ensures r.Ok? <==> mapped.Ok?
    ensures r.Ok? ==> r.value.colorType == b.colorType && r.value.size == b.size && r.value.data == mapped.value
  {
    match mapped
    case Ok(data) => Ok(ImageAsyncMapping(b.colorType, b.size, data))
    case Err(e) => Err(e)
  }

  /**
   * An `ImageBuffer<P, &[P::Subpixel]>` borrowed from a mapping: its
   * dimensions and the number of subpixels in the borrowed slice.
   */
  datatype ImageView = ImageView(width: u32, height: u32, subpixelCount: nat)

  /** How a call to `as_image_buffer` that passed the colour-type gate ends. */
  datatype CastOutcome = Viewed(view: ImageView) | Panicked

  /**
   * `ImageAsyncMapping::as_image_buffer::<P>` as written: the slice handed to
   * `ImageBuffer::from_raw` holds `width * height` subpixels (a `u32`
   * product), and the `expect` panics when `from_raw` refuses it.
   */
  function AsImageBufferAsWritten(p: PixelType, m: ImageAsyncMapping): (r: Option<CastOutcome>)
    ensures r.None? <==> ColorTypeOf(p) != m.colorType
    ensures r.Some? && r.value.Viewed? ==> r.value.view.subpixelCount == AsU32(m.size.width as int * m.size.height as int) as int
  {
    if ColorTypeOf(p) != m.colorType then None
    else
      var lenPixels := AsU32(m.size.width as int * m.size.height as int) as nat;
      if FromRawAccepts(p, m.size.width, m.size.height, lenPixels)
      then Some(Viewed(ImageView(m.size.width, m.size.height, lenPixels)))
      else Some(Panicked)
  }

  /** As written, every non-empty image of a multi-channel pixel type makes the cast panic. */
  lemma AsImageBufferAsWrittenPanics(p: PixelType, m: ImageAsyncMapping)
    requires ColorTypeOf(p) == m.colorType && ChannelCount(p) > 1
    requires 0 < m.size.width as int * m.size.height as int < U32Modulus
    ensures AsImageBufferAsWritten(p, m) == Some(Panicked)
  {
  }

  /** A one-pixel RGBA image read back with pixel type `Rgba<u8>`. */
  lemma AsImageBufferAsWrittenPanicsOnOnePixel()
    ensures AsImageBufferAsWritten(RgbaU8, ImageAsyncMapping(Rgba8, Extent(1, 1), [255, 0, 0, 255])) == Some(Panicked)
  {
  }

  /**
   * `ImageAsyncMapping::as_image_buffer::<P>`, with the slice length the
   * image buffer needs (`width * height * channels` subpixels): no view when
   * `P::COLOR_TYPE` differs from the mapping's colour type; otherwise a view
   * of the mapping's size that `from_raw` always accepts.
   */
  function AsImageBuffer(p: PixelType, m: ImageAsyncMapping): (r: Option<ImageView>)
    ensures r.None? <==> ColorTypeOf(p) != m.colorType
    ensures r.Some? ==> r.value.width == m.size.width && r.value.height == m.size.height
    ensures r.Some? ==> r.value.subpixelCount == m.size.width as int * m.size.height as int * ChannelCount(p)
    ensures r.Some? ==> FromRawAccepts(p, r.value.width, r.value.height, r.value.subpixelCount)
  {
    if ColorTypeOf(p) != m.colorType then None
    else Some(ImageView(m.size.width, m.size.height, m.size.width as int * m.size.height as int * ChannelCount(p)))
  }

  /**
   * The gate compares colour types only, so a signed pixel type is let
   * through wherever its unsigned counterpart is.
   */
  lemma GateIgnoresSignedness(p: PixelType, q: PixelType, m: ImageAsyncMapping)
    requires ColorTypeOf(p) == ColorTypeOf(q)
    ensures AsImageBuffer(p, m).Some? <==> AsImageBuffer(q, m).Some?
  {
  }
}
