/**
 * The parts of the wgpu GPU library (and of the toolkit's texture builder)
 * that the interop code calls. Device, queue and buffer objects are not
 * modelled; a texture is the description it was built from, and a command
 * encoder is the list of copy commands recorded in it.
 */
module Wgpu {
  import opened Prelude

  /** wgpu's `TextureFormat`, abridged to the formats this layer names plus representatives of the rest. */
  datatype TextureFormat =
    | R8Unorm | Rg8Unorm | Rgba8UnormSrgb | R16Unorm | Rg16Unorm | Rgba16Unorm | Bgra8UnormSrgb
    | R8Snorm | Rg8Snorm | Rgba8Snorm | R16Snorm | Rg16Snorm | Rgba16Snorm
    | R8Uint | R8Sint | Rgba8Unorm | Bgra8Unorm | R32Float | Rgba32Float | Depth32Float

  /** A signed normalised format. */
  predicate IsSnorm(f: TextureFormat)
  {
    f.R8Snorm? || f.Rg8Snorm? || f.Rgba8Snorm? || f.R16Snorm? || f.Rg16Snorm? || f.Rgba16Snorm?
  }

  /** Bytes occupied by one texel of the format. */
  function TexelBytes(f: TextureFormat): (n: nat)
    ensures n == 1 || n == 2 || n == 4 || n == 8 || n == 16
  {
    match f
    case R8Unorm | R8Snorm | R8Uint | R8Sint => 1
    case Rg8Unorm | Rg8Snorm | R16Unorm | R16Snorm => 2
    case Rgba8UnormSrgb | Rgba8Snorm | Rgba8Unorm | Bgra8UnormSrgb | Bgra8Unorm
      | Rg16Unorm | Rg16Snorm | R32Float | Depth32Float => 4
    case Rgba16Unorm | Rgba16Snorm => 8
    case Rgba32Float => 16
  }

  /** One flag of wgpu's `TextureUsage` bit set; the set itself is a `set<TextureUsage>`. */
  datatype TextureUsage = CopySrc | CopyDst | Sampled | Storage | OutputAttachment

  /** A texture's width and height in texels. */
  datatype Extent = Extent(width: u32, height: u32)

  /** The toolkit's `TextureBuilder`, reduced to the settings this layer touches. */
  datatype TextureBuilder = TextureBuilder(
    size: Extent,
    arrayLayerCount: u32,
    format: TextureFormat,
    usage: set<TextureUsage>)

  /** A texture on the GPU, described by the settings it was built with. */
  datatype Texture = Texture(
    size: Extent,
    arrayLayerCount: u32,
    format: TextureFormat,
    usage: set<TextureUsage>)

  /**
   * `TextureBuilder::new()`. Its defaults live outside this model; the values
   * here stand in for them and only the single-layer default matters below.
   */
  const NewBuilder: TextureBuilder :=
    TextureBuilder(Extent(128, 128), 1, Rgba8UnormSrgb, {CopySrc, CopyDst, Sampled, Storage, OutputAttachment})

  /** `TextureBuilder::build`: the texture has exactly the builder's settings. */
  function Build(b: TextureBuilder): (t: Texture)
    ensures t.size == b.size && t.arrayLayerCount == b.arrayLayerCount
    ensures t.format == b.format && t.usage == b.usage
  {
    Texture(b.size, b.arrayLayerCount, b.format, b.usage)
  }

  /**
   * A command recorded in a `CommandEncoder`: a copy from a staging buffer
   * holding `source` into one array layer of a texture, or a copy of a whole
   * texture into a readback buffer.
   */
  datatype Command =
    | CopyBufferToTexture(source: seq<int>, texture: Texture, arrayLayer: u32, extent: Extent)
    | CopyTextureToBuffer(texture: Texture)

  /** wgpu's `CommandEncoder`: commands are appended in the order they are encoded. */
  class CommandEncoder {
    var commands: seq<Command>

    constructor ()
      ensures commands == []
    {
      commands := [];
    }

    /** `encoder.copy_buffer_to_texture(buffer_view, texture_view, extent)`. */
    method CopyBufferToTextureCmd(source: seq<int>, texture: Texture, arrayLayer: u32, extent: Extent)
      modifies this
      ensures commands == old(commands) + [CopyBufferToTexture(source, texture, arrayLayer, extent)]
    {
      commands := commands + [CopyBufferToTexture(source, texture, arrayLayer, extent)];
    }

    /** The copy that `Texture::to_buffer_bytes` encodes. */
    method CopyTextureToBufferCmd(texture: Texture)
      modifies this
      ensures commands == old(commands) + [CopyTextureToBuffer(texture)]
    {
      commands := commands + [CopyTextureToBuffer(texture)];
    }
  }
}
