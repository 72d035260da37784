/**
 * Uploading image buffers into textures: a single image into a
 * single-layer texture, and a sequence of images into the layers of a texture
 * array (src/wgpu/texture/image.rs). Staging buffers are modelled as the
 * subpixels they are filled with; queue submission hands over the encoder's
 * commands.
 */
module TextureUpload {
  import opened Prelude
  import opened ImageCrate
  import opened Wgpu
  import opened TextureImage

  /** `wgpu::TextureUsage::COPY_DST | usage`: the caller's usage with copying-in added. */
  function UploadUsage(usage: set<TextureUsage>): (u: set<TextureUsage>)
    ensures CopyDst in u && usage <= u
    ensures forall flag :: flag in u && flag !in usage ==> flag == CopyDst
  {
    {CopyDst} + usage
  }

  /**
   * The texture `encode_load_texture_from_image_buffer` builds: sized to the
   * image, with the pixel type's format, the builder's single layer, and the
   * caller's usage plus `COPY_DST`.
   */
  function SingleUploadTexture(p: PixelType, image: ImageBuffer, usage: set<TextureUsage>): (t: Texture)
    ensures t.size == Extent(image.width, image.height) && t.format == TextureFormatOf(p)
    ensures t.arrayLayerCount == NewBuilder.arrayLayerCount
    ensures CopyDst in t.usage && usage <= t.usage && t.usage - usage <= {CopyDst}
  {
    Build(BuilderFromImageView(p, image).(usage := UploadUsage(usage)))
  }

  /**
   * The texture `encode_load_texture_array_from_image_buffers` builds: none
   * for no images; otherwise sized to the first image, with one layer per
   * image (the count cast to `u32`), the pixel type's format and the caller's
   * usage plus `COPY_DST`.
   */
  function ArrayUploadTexture(p: PixelType, images: seq<ImageBuffer>, usage: set<TextureUsage>): (r: Option<Texture>)
    ensures r.None? <==> images == []
    ensures r.Some? ==> r.value.size == Extent(images[0].width, images[0].height)
    ensures r.Some? ==> r.value.arrayLayerCount as int == |images| % U32Modulus
    ensures r.Some? && |images| < U32Modulus ==> r.value.arrayLayerCount as int == |images|
    ensures r.Some? ==> r.value.format == TextureFormatOf(p)
    ensures r.Some? ==> CopyDst in r.value.usage && usage <= r.value.usage && r.value.usage - usage <= {CopyDst}
  {
    if images == [] then None
    else
      var arrayLayers := AsU32(|images|);
      Some(Build(BuilderFromImageView(p, images[0]).(arrayLayerCount := arrayLayers).(usage := UploadUsage(usage))))
  }

  /** The copy of one image's staging buffer into layer `layer` of `t`, over the whole texture extent. */
  function CopyImageTo(t: Texture, image: ImageBuffer, layer: u32): Command
  {
    CopyBufferToTexture(image.subpixels, t, layer, t.size)
  }

  /**
   * The commands the array upload encodes: one copy per image, in order, the
   * k-th from the k-th image into layer `k as u32`.
   */
  function UploadPlan(t: Texture, images: seq<ImageBuffer>): (plan: seq<Command>)
    ensures |plan| == |images|
    ensures forall k :: 0 <= k < |images| ==> plan[k] == CopyImageTo(t, images[k], AsU32(k))
    decreases |images|
  {
    if images == [] then []
    else UploadPlan(t, images[..|images| - 1]) + [CopyImageTo(t, images[|images| - 1], AsU32(|images| - 1))]
  }

  /**
   * For fewer than 2^32 images, the plan of an array upload fills every layer
   * of the texture exactly once: command k targets layer k, below the layer
   * count, copies image k over the first image's extent, and no two commands
   * share a layer.
   */
  lemma ArrayUploadFillsEachLayerOnce(p: PixelType, images: seq<ImageBuffer>, usage: set<TextureUsage>)
    requires 0 < |images| < U32Modulus
    ensures ArrayUploadTexture(p, images, usage).Some?
    ensures var t := ArrayUploadTexture(p, images, usage).value;
      var plan := UploadPlan(t, images);
      && |plan| == t.arrayLayerCount as int == |images|
      && (forall k :: 0 <= k < |plan| ==>
            plan[k].CopyBufferToTexture? && plan[k].arrayLayer as int == k && plan[k].arrayLayer < t.arrayLayerCount
            && plan[k].source == images[k].subpixels && plan[k].texture == t
            && plan[k].extent == Extent(images[0].width, images[0].height))
      && (forall i, j :: 0 <= i < |plan| && 0 <= j < |plan| && plan[i].arrayLayer == plan[j].arrayLayer ==> i == j)
  {
  }

  /**
   * An image uploaded from a signed pixel type cannot be read back with
   * `to_image`; one from an unsigned pixel type reads back with that pixel
   * type's colour type and the image's size, and the cast back to that pixel
   * type passes the colour-type gate.
   */
  lemma UploadThenReadBack(p: PixelType, image: ImageBuffer, usage: set<TextureUsage>, data: seq<int>)
    ensures var t := SingleUploadTexture(p, image, usage);
      && (ToImage(t).None? <==> IsSigned(p))
      && (ToImage(t).Some? ==>
            && ToImage(t).value.colorType == ColorTypeOf(p)
            && ToImage(t).value.size == Extent(image.width, image.height)
            && AsImageBuffer(p, MapReadResult(ToImage(t).value, Ok(data)).value).Some?)
  {
  }

  /** The same holds of a texture array: signed layers cannot be read back. */
  lemma ArrayUploadReadBack(p: PixelType, images: seq<ImageBuffer>, usage: set<TextureUsage>)
    requires images != []
    ensures var t := ArrayUploadTexture(p, images, usage).value;
      && (ToImage(t).None? <==> IsSigned(p))
      && (ToImage(t).Some? ==> ToImage(t).value.colorType == ColorTypeOf(p))
  {
  }

  /**
   * `encode_load_texture_from_image_buffer`: builds the texture and encodes
   * one copy of the image's subpixels into its layer 0.
   */
  method EncodeLoadTextureFromImageBuffer(p: PixelType, encoder: CommandEncoder, usage: set<TextureUsage>, image: ImageBuffer)
    returns (t: Texture)
    modifies encoder
    ensures t == SingleUploadTexture(p, image, usage)
    ensures encoder.commands == old(encoder.commands) + [CopyImageTo(t, image, 0)]
  {
    t := Build(BuilderFromImageView(p, image).(usage := UploadUsage(usage)));
    var staging := image.subpixels;
    var extent := t.size;
    encoder.CopyBufferToTextureCmd(staging, t, 0, extent);
  }

  /**
   * `encode_load_texture_array_from_image_buffers`: nothing is encoded for
   * no images; otherwise the texture is built from the first image and the
   * whole sequence, first image included, is copied layer by layer.
   */
  method EncodeLoadTextureArrayFromImageBuffers(p: PixelType, encoder: CommandEncoder, usage: set<TextureUsage>, images: seq<ImageBuffer>)
    returns (r: Option<Texture>)
    modifies encoder
    ensures r == ArrayUploadTexture(p, images, usage)
    ensures r.None? ==> encoder.commands == old(encoder.commands)
    ensures r.Some? ==> encoder.commands == old(encoder.commands) + UploadPlan(r.value, images)
  {
    var arrayLayers := AsU32(|images|);
    if images == [] {
      return None;
    }
    var first := images[0];
    var texture := Build(BuilderFromImageView(p, first).(arrayLayerCount := arrayLayers).(usage := UploadUsage(usage)));
    var layer := 0;
    while layer < |images|
      invariant 0 <= layer <= |images|
      invariant encoder.commands == old(encoder.commands) + UploadPlan(texture, images[..layer])
    {
      var buffer := if layer == 0 then first else images[layer];
      var staging := buffer.subpixels;
      var extent := texture.size;
      encoder.CopyBufferToTextureCmd(staging, texture, AsU32(layer), extent);
      assert images[..layer + 1][..layer] == images[..layer];
      layer := layer + 1;
    }
    assert images[..layer] == images;
    r := Some(texture);
  }

  /**
   * `load_texture_from_image_buffer`: encodes the upload on a new encoder and
   * submits exactly that one copy.
   */
  method LoadTextureFromImageBuffer(p: PixelType, usage: set<TextureUsage>, image: ImageBuffer)
    returns (t: Texture, submitted: seq<Command>)
    ensures t == SingleUploadTexture(p, image, usage)
    ensures submitted == [CopyImageTo(t, image, 0)]
  {
    var encoder := new CommandEncoder();
    t := EncodeLoadTextureFromImageBuffer(p, encoder, usage, image);
    submitted := encoder.commands;
  }

  /**
   * `load_texture_array_from_image_buffers`: encodes the array upload on a
   * new encoder and submits its commands, none for no images.
   */
  method LoadTextureArrayFromImageBuffers(p: PixelType, usage: set<TextureUsage>, images: seq<ImageBuffer>)
    returns (r: Option<Texture>, submitted: seq<Command>)
    ensures r == ArrayUploadTexture(p, images, usage)
    ensures r.None? ==> submitted == []
    ensures r.Some? ==> submitted == UploadPlan(r.value, images)
  {
    var encoder := new CommandEncoder();
    r := EncodeLoadTextureArrayFromImageBuffers(p, encoder, usage, images);
    submitted := encoder.commands;
  }
}
