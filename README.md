# Texture / image interop of the nannou wgpu layer, in Dafny

This project models `src/wgpu/texture/image.rs`, the part of the toolkit that
connects CPU-side images of the `image` crate to GPU textures of wgpu:

- the partial, two-way table between image colour types and texture formats,
  and the per-pixel-type `Pixel::TEXTURE_FORMAT` table beside it, which also
  lists signed normalised (Snorm) formats;
- texture descriptors built from an image (`builder_from_image_view`);
- reading a texture back (`Texture::to_image`, the callback of
  `BufferImage::read`, the colour-type gate of
  `ImageAsyncMapping::as_image_buffer`);
- uploading one image, or a sequence of images into the layers of a texture
  array, by encoding buffer-to-texture copies on a command encoder.

Files and modules:

- `prelude.dfy` (`Prelude`): `Option`, `Result`, Rust's `u32` and the
  truncating `as u32` cast.
- `image_crate.dfy` (`ImageCrate`): the `image` crate's `ColorType`, the
  thirteen pixel types that implement `Pixel`, their channel counts and
  colour types, image buffers, and the size check of `ImageBuffer::from_raw`.
- `wgpu.dfy` (`Wgpu`): texture formats (abridged), usage flags, the texture
  builder, textures, and `CommandEncoder`, a class whose `commands` field is
  appended to in place.
- `texture_image.dfy` (`TextureImage`): the conversion table, the `Pixel`
  table, `builder_from_image_view`, `to_image`, `read` and `as_image_buffer`.
- `texture_upload.dfy` (`TextureUpload`): single and array uploads.

The conversion functions, the `Pixel` table, the builder and the read-back
gates are pure and are functions with lemmas. The two `encode_load_*`
functions change the encoder in place, so they are methods on a
`CommandEncoder` object. The array upload keeps the source's loop and is proved
against `UploadPlan`, a function giving the full command list. The thin
wrappers on `wgpu::TextureBuilder` and `wgpu::Texture` (image.rs:37-141) call
these functions directly and add nothing of their own.

Modelling notes:

- A pixel type's colour type (`Pixel::COLOR_TYPE`) comes from the `image`
  crate. That crate picks the 8-bit or 16-bit colour type of a channel layout
  from the subpixel's byte width alone. So `Luma<i8>` reports `L8`, the same
  colour type as `Luma<u8>`.
- Texel and pixel byte sizes are standard values for each format and colour
  type. They state the "no format or size conversion" promise: paired
  formats and colour types have the same texel size.
- `buffers.len() as u32` and `layer as u32` wrap modulo 2^32 (`AsU32`). The
  layer properties are proved for fewer than 2^32 images.
- Every copy in an array upload uses the texture's extent, which is the
  first image's size. The model keeps this: each copy's extent is the first
  image's size, whatever the size of its own image.

## Model

| member | source | states |
|---|---|---|
| `TextureImage.FormatFromColorType` | src/wgpu/texture/image.rs:323-335 | Some exactly for L8, La8, Rgba8, L16, La16, Rgba16, Bgra8; the format is never Snorm and has the colour type's pixel size |
| `TextureImage.ColorTypeFromFormat` | src/wgpu/texture/image.rs:342-355 | Some exactly for R8Unorm, Rg8Unorm, Rgba8UnormSrgb, R16Unorm, Rg16Unorm, Rgba16Unorm, Bgra8UnormSrgb; None for every Snorm format; the sizes agree |
| `TextureImage.ConversionsInverse` | src/wgpu/texture/image.rs:323-355 | format_from(c) == Some(f) if and only if color_type_from(f) == Some(c) |
| `TextureImage.FormatFromColorTypeInjective` | src/wgpu/texture/image.rs:323-335 | two colour types with the same format are equal |
| `TextureImage.ColorTypeFromFormatInjective` | src/wgpu/texture/image.rs:342-355 | two formats with the same colour type are equal |
| `TextureImage.FormatExistsIffPowerOfTwo` | src/wgpu/texture/image.rs:317-335 | a colour type has a format exactly when its bytes per pixel is a power of two, as the doc comment says |
| `TextureImage.TextureFormatOf` | src/wgpu/texture/image.rs:265-315 | the format is Snorm exactly for signed subpixels; its texel size is channels times subpixel bytes, a power of two |
| `TextureImage.PixelTableAgreesWithConversions` | src/wgpu/texture/image.rs:265-355 | an unsigned pixel type's format converts back to its colour type and the other way round; a signed pixel type's format has no colour type |
| `TextureImage.BuilderFromImageView` | src/wgpu/texture/image.rs:361-371 | size is the image's (width, height), format is the pixel type's; layer count and usage are the builder defaults |
| `TextureImage.ToImage` | src/wgpu/texture/image.rs:154-167 | None exactly when the texture's format has no colour type; otherwise that colour type, the texture's size, a buffer read from the texture |
| `TextureImage.EncodeToImage` | src/wgpu/texture/image.rs:143-167 | returns ToImage; encodes one texture-to-buffer copy when an image is produced and nothing otherwise |
| `TextureImage.MapReadResult` | src/wgpu/texture/image.rs:190-199 | a mapped buffer becomes a mapping with the same colour type and size; a mapping failure is passed on |
| `TextureImage.AsImageBufferAsWritten` | src/wgpu/texture/image.rs:247-261 | as written: None exactly when P::COLOR_TYPE differs; the from_raw slice holds width*height subpixels (u32 product) |
| `TextureImage.AsImageBufferAsWrittenPanics` | src/wgpu/texture/image.rs:254-260 | as written, any non-empty image of a multi-channel pixel type reaches the panicking expect |
| `TextureImage.AsImageBufferAsWrittenPanicsOnOnePixel` | src/wgpu/texture/image.rs:254-260 | a 1x1 Rgba8 mapping cast to Rgba<u8> panics as written |
| `TextureImage.AsImageBuffer` | src/wgpu/texture/image.rs:247-261 | None exactly when P::COLOR_TYPE differs from the stored colour type; otherwise a view of the mapping's size that from_raw accepts |
| `TextureImage.GateIgnoresSignedness` | src/wgpu/texture/image.rs:251-253 | pixel types with the same colour type pass or fail the gate together, so signed types pass where unsigned ones do |
| `TextureUpload.UploadUsage` | src/wgpu/texture/image.rs:417-417 | the usage contains COPY_DST and all of the caller's usage, and nothing else |
| `TextureUpload.SingleUploadTexture` | src/wgpu/texture/image.rs:416-418 | single upload texture: image size, pixel format, default layer count, usage = caller's plus COPY_DST |
| `TextureUpload.ArrayUploadTexture` | src/wgpu/texture/image.rs:487-495 | None exactly for no images; otherwise first image's size, layer count = number of images (mod 2^32), pixel format, usage = caller's plus COPY_DST |
| `TextureUpload.UploadPlan` | src/wgpu/texture/image.rs:498-511 | one command per image, in order; the k-th copies image k into layer k as u32 |
| `TextureUpload.ArrayUploadFillsEachLayerOnce` | src/wgpu/texture/image.rs:487-513 | for fewer than 2^32 images, command k copies image k (the first one included) into layer k below the layer count, and no layer is targeted twice |
| `TextureUpload.UploadThenReadBack` | src/wgpu/texture/image.rs:154-167 | an uploaded texture reads back exactly when the pixel type is unsigned, with that pixel type's colour type and the image's size, and passes the cast gate |
| `TextureUpload.ArrayUploadReadBack` | src/wgpu/texture/image.rs:487-495 | a texture array reads back exactly when the pixel type is unsigned |
| `TextureUpload.EncodeLoadTextureFromImageBuffer` | src/wgpu/texture/image.rs:405-433 | returns the single-upload texture and appends exactly one copy of the image into layer 0 |
| `TextureUpload.EncodeLoadTextureArrayFromImageBuffers` | src/wgpu/texture/image.rs:475-514 | returns ArrayUploadTexture; encoder unchanged for no images, otherwise UploadPlan is appended |
| `TextureUpload.LoadTextureFromImageBuffer` | src/wgpu/texture/image.rs:379-394 | submits exactly the one copy of the single upload |
| `TextureUpload.LoadTextureArrayFromImageBuffers` | src/wgpu/texture/image.rs:443-461 | submits nothing for no images, otherwise the upload plan |

## Left out

- Devices, queues, buffer creation and `queue.submit` are calls into wgpu.
  A staging buffer is modelled as the subpixels it is filled with. Submitting
  returns the encoder's command list.
- `Texture::to_buffer_bytes`, `default_copy_view`, `default_buffer_copy_view`
  and `extent` live in the texture module, which is not part of this model.
  Their results are opaque records: the readback buffer names its texture, the
  default copy view is layer 0, and the extent is the texture's size.
- `TextureBuilder::new()` defaults are not part of this model. `NewBuilder`
  uses stand-in values, and only its single array layer is used by a property.
- The asynchronous mapping and callback delivery of `BufferImage::read`
  depend on wgpu's polling. Only the closure that builds the mapping is
  modelled.
- Saving to files (`save`, `save_with_format`) is I/O in the image crate.
- The unsafe reinterpretation of the mapped bytes as subpixels is a memory
  layout cast. A view records only its dimensions and slice length, and the
  model does not check that the mapping holds that many subpixels.
- `TextureFormat` is abridged. Every wgpu format left out behaves like the
  included `R8Uint`, `R32Float` and similar, which map to no colour type.
- The example programs `textured_mesh.rs` and `textured_polygon.rs` are window,
  asset and geometry glue.
- Each image's pixel type is a separate argument, not a type parameter. All
  images of one array upload therefore share it, as the generic `P` forces.

## Findings

| source | as written | input that shows it | evidently intended | confidence | as-written member | corrected member |
|---|---|---|---|---|---|---|
| src/wgpu/texture/image.rs:255-260 | the slice passed to `ImageBuffer::from_raw` holds `width * height` subpixels, one per pixel, but `from_raw` needs one per channel | a 1x1 `Rgba8` mapping cast with `as_image_buffer::<Rgba<u8>>` (any non-empty image with a multi-channel pixel type) | a slice of `width * height * CHANNEL_COUNT` subpixels, so the `expect` never fires | medium, not executed | `TextureImage.AsImageBufferAsWrittenPanics` | `TextureImage.AsImageBuffer` |
