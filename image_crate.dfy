/** The parts of the `image` crate that the texture interop code relies on. */
module ImageCrate {
  import opened Prelude

  /** The image crate's `ColorType`: the layout of one pixel in memory. */
  datatype ColorType = L8 | La8 | Rgb8 | Rgba8 | L16 | La16 | Rgb16 | Rgba16 | Bgr8 | Bgra8

  /** Bytes occupied by one pixel of the given colour type. */
  function BytesPerPixel(c: ColorType): (n: nat)
    ensures 1 <= n <= 8
  {
    match c
    case L8 => 1
    case La8 => 2
    case Rgb8 => 3
    case Rgba8 => 4
    case L16 => 2
    case La16 => 4
    case Rgb16 => 6
    case Rgba16 => 8
    case Bgr8 => 3
    case Bgra8 => 4
  }

  /**
   * The image crate pixel types for which the interop layer implements its
   * `Pixel` trait: a channel layout (`Luma`, `LumaA`, `Rgba`, `Bgra`) over a
   * subpixel type (`u8`, `i8`, `u16`, `i16`).
   */
  datatype PixelType =
    | BgraU8
    | LumaU8 | LumaI8 | LumaU16 | LumaI16
    | LumaAU8 | LumaAI8 | LumaAU16 | LumaAI16
    | RgbaU8 | RgbaI8 | RgbaU16 | RgbaI16

  /** The subpixel type is a signed integer (`i8` or `i16`). */
  predicate IsSigned(p: PixelType)
  {
    p.LumaI8? || p.LumaI16? || p.LumaAI8? || p.LumaAI16? || p.RgbaI8? || p.RgbaI16?
  }

  /** `Pixel::CHANNEL_COUNT`. */
  function ChannelCount(p: PixelType): (n: nat)
    ensures 1 <= n <= 4
  {
    match p
    case LumaU8 | LumaI8 | LumaU16 | LumaI16 => 1
    case LumaAU8 | LumaAI8 | LumaAU16 | LumaAI16 => 2
    case RgbaU8 | RgbaI8 | RgbaU16 | RgbaI16 | BgraU8 => 4
  }

  /** Bytes in one subpixel (`size_of::<P::Subpixel>()`). */
  function SubpixelBytes(p: PixelType): (n: nat)
    ensures n == 1 || n == 2
  {
    match p
    case BgraU8 | LumaU8 | LumaI8 | LumaAU8 | LumaAI8 | RgbaU8 | RgbaI8 => 1
    case LumaU16 | LumaI16 | LumaAU16 | LumaAI16 | RgbaU16 | RgbaI16 => 2
  }

  /**
   * `Pixel::COLOR_TYPE`. The image crate chooses the 8-bit or the 16-bit colour
   * type of a channel layout by the byte width of the subpixel alone, so a
   * signed pixel type reports the colour type of its unsigned counterpart.
   */
  function ColorTypeOf(p: PixelType): (c: ColorType)
    ensures BytesPerPixel(c) == ChannelCount(p) * SubpixelBytes(p)
  {
    match p
    case BgraU8 => Bgra8
    case LumaU8 | LumaI8 => L8
    case LumaU16 | LumaI16 => L16
    case LumaAU8 | LumaAI8 => La8
    case LumaAU16 | LumaAI16 => La16
    case RgbaU8 | RgbaI8 => Rgba8
    case RgbaU16 | RgbaI16 => Rgba16
  }

  /**
   * An `ImageBuffer<P, Container>` held in RAM: its dimensions and its
   * subpixels in row-major order. The pixel type `P` is a type parameter in
   * the source and a separate argument here.
   */
  datatype ImageBuffer = ImageBuffer(width: u32, height: u32, subpixels: seq<int>)

  /**
   * The check `ImageBuffer::from_raw(width, height, container)` performs
   * before it accepts a container: it must hold at least one subpixel per
   * channel of every pixel.
   */
  predicate FromRawAccepts(p: PixelType, width: u32, height: u32, len: nat)
  {
    width as int * height as int * ChannelCount(p) <= len
  }
}
