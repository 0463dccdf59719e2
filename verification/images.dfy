/**
 * The image helpers of MetalTensors/MPSImageExtensions.cs that carry logic
 * of their own: how a tensor shape becomes the height, width and feature
 * channels of an image; which pixel formats Fill can write and how many
 * values it writes; and the bitmap layout ToCGImage chooses per pixel format.
 * An MPSImage is modelled by its dimensions, its pixel format and the floats
 * last written into it.
 */
module Images {
  import opened Common
  import opened Shapes
  import Text

  /** MTLPixelFormat: the formats the helpers distinguish, and any other code. */
  datatype PixelFormat =
    | R32Float
    | RG32Float
    | RGBA32Float
    | BGRA8UnormSrgb
    | RGBA8Unorm
    | OtherFormat(code: int)

  /** The height, width and feature channels of an MPSImageTensor. */
  datatype ImageSize = ImageSize(height: int, width: int, featureChannels: int)

  function ElementCount(s: ImageSize): int
  {
    s.height * s.width * s.featureChannels
  }

  /**
   * MetalHelpers.CreateUninitializedImage: the image dimensions for a shape
   * of rank 0 to 3, the trailing dimension always being the channels; a
   * shape of higher rank is refused.
   */
  function ImageSizeOf(shape: seq<int>): (r: Outcome<ImageSize>)
    ensures r.Ok? <==> |shape| <= 3
    ensures |shape| == 0 ==> r == Ok(ImageSize(1, 1, 1))
    ensures |shape| == 1 ==> r == Ok(ImageSize(1, 1, shape[0]))
    ensures |shape| == 2 ==> r == Ok(ImageSize(1, shape[0], shape[1]))
    ensures |shape| == 3 ==> r == Ok(ImageSize(shape[0], shape[1], shape[2]))
    ensures |shape| >= 4 ==> r == Fail(InvalidOperation(
      "Cannot get image for constant data with " + Text.IntToString(|shape|) + " element shape"))
  {
    match |shape|
    case 0 => Ok(ImageSize(1, 1, 1))
    case 1 => Ok(ImageSize(1, 1, shape[0]))
    case 2 => Ok(ImageSize(1, shape[0], shape[1]))
    case 3 => Ok(ImageSize(shape[0], shape[1], shape[2]))
    case l => Fail(InvalidOperation("Cannot get image for constant data with " + Text.IntToString(l) + " element shape"))
  }

  /** An image made for a shape of rank at most 3 holds exactly as many values as the shape. */
  lemma ImageSizeKeepsLength(shape: seq<int>)
    requires |shape| <= 3
    ensures ImageSizeOf(shape).Ok? && ElementCount(ImageSizeOf(shape).value) == Product(shape)
  {
  }

  /** The pixel formats Fill can write: one, two or four 32-bit float channels. */
  predicate FillSupported(format: PixelFormat)
  {
    format == R32Float || format == RG32Float || format == RGBA32Float
  }

  /** The loop of Fill: a span of len floats, each set to the constant. */
  method FillSpan(len: nat, constant: Float) returns (span: seq<Float>)
    ensures |span| == len
    ensures forall i :: 0 <= i < len ==> span[i] == constant
  {
    var a := new Float[len];
    for i := 0 to len
      invariant forall j :: 0 <= j < i ==> a[j] == constant
    {
      a[i] := constant;
    }
    span := a[..];
  }

  /** An MPSImage: its dimensions and pixel format, and the values last written into it. */
  class Image {
    const height: nat
    const width: nat
    const featureChannels: nat
    const format: PixelFormat
    var data: seq<Float>

    constructor (height: nat, width: nat, featureChannels: nat, format: PixelFormat)
      ensures this.height == height && this.width == width && this.featureChannels == featureChannels
      ensures this.format == format && data == []
    {
      this.height := height;
      this.width := width;
      this.featureChannels := featureChannels;
      this.format := format;
      data := [];
    }

    /**
     * Fill: for a 32-bit float format, writes height·width·channels copies of
     * the constant into the image; any other format is refused and the image
     * keeps its contents.
     */
    method Fill(constant: Float) returns (r: Outcome<()>)
      modifies this
      ensures r.Ok? <==> FillSupported(format)
      ensures r.Fail? ==> r.error == NotSupported && data == old(data)
      ensures r.Ok? ==> data == seq(height * width * featureChannels, _ => constant)
    {
      if !FillSupported(format) {
        return Fail(NotSupported);
      }
      var span := FillSpan(height * width * featureChannels, constant);
      data := span;
      return Ok(());
    }

    /**
     * Fill as the iOS tree has it: the same loop, but only a one-channel
     * R32Float image is accepted; any other format is refused and the image
     * keeps its contents.
     */
    method IosFill(constant: Float) returns (r: Outcome<()>)
      modifies this
      ensures r.Ok? <==> format == R32Float
      ensures r.Fail? ==> r.error == NotSupported && data == old(data)
      ensures r.Ok? ==> data == seq(height * width * featureChannels, _ => constant)
    {
      if format != R32Float {
        return Fail(NotSupported);
      }
      var span := FillSpan(height * width * featureChannels, constant);
      data := span;
      return Ok(());
    }
  }

  /**
   * The pixel format Metal gives an image with Float32 feature channels: one
   * channel is R32Float, two RG32Float, and three or more RGBA32Float (more
   * than four are stored as an array of RGBA slices).  This is Metal's rule,
   * not the library's.
   */
  function Float32Format(featureChannels: int): PixelFormat
  {
    if featureChannels == 1 then R32Float else if featureChannels == 2 then RG32Float else RGBA32Float
  }

  /**
   * MetalHelpers.CreateConstantImage: an image of the dimensions the shape
   * selects, filled with the constant.  It holds exactly as many values as the
   * shape describes.  A negative dimension, cast to nuint for the image
   * descriptor, asks for an image no device can allocate; that failure is
   * modelled as Overflow.
   */
  method CreateConstantImage(shape: seq<int>, constant: Float) returns (r: Outcome<Image>)
    ensures r.Ok? <==> |shape| <= 3 && forall i :: 0 <= i < |shape| ==> shape[i] >= 0
    ensures |shape| > 3 ==> r == Fail(ImageSizeOf(shape).error)
    ensures |shape| <= 3 && r.Fail? ==> r == Fail(Overflow)
    ensures r.Ok? ==> (fresh(r.value)
      && ImageSize(r.value.height, r.value.width, r.value.featureChannels) == ImageSizeOf(shape).value
      && r.value.format == Float32Format(r.value.featureChannels)
      && |r.value.data| == Product(shape)
      && forall i :: 0 <= i < |r.value.data| ==> r.value.data[i] == constant)
  {
    var size := ImageSizeOf(shape);
    if size.Fail? {
      return Fail(size.error);
    }
    var s := size.value;
    if s.height < 0 || s.width < 0 || s.featureChannels < 0 {
      return Fail(Overflow);
    }
    ImageSizeKeepsLength(shape);
    var image := new Image(s.height, s.width, s.featureChannels, Float32Format(s.featureChannels));
    var filled := image.Fill(constant);
    return Ok(image);
  }

  /** CGImageAlphaInfo, as ToCGImage selects it. */
  datatype AlphaInfo = AlphaNone | AlphaFirst | NoneSkipFirst | AlphaLast | NoneSkipLast

  /** CGBitmapFlags.ByteOrder32Little / ByteOrder32Big. */
  datatype ByteOrder = Little32 | Big32

  /** The bitmap context ToCGImage creates: its per-component layout and row stride. */
  datatype BitmapLayout = BitmapLayout(
    bitsPerComponent: nat,
    components: nat,
    alpha: AlphaInfo,
    order: ByteOrder,
    floatComponents: bool,
    bytesPerRow: int,
    gray: bool)

  /** The pixel formats ToCGImage can read back. */
  predicate CGImageSupported(format: PixelFormat)
  {
    format == BGRA8UnormSrgb || format == RGBA8Unorm || format == RGBA32Float || format == R32Float
  }

  /**
   * ToCGImage, up to the creation of the bitmap context: a texture in private
   * storage is refused; otherwise the pixel format selects the component size,
   * the number of components, the alpha placement (with alpha when more than
   * three components are asked for) and the byte order; any other format is
   * refused.  The row stride is width·bits·components/8, and a one-component
   * image uses the gray colour space.
   */
  function CGImageLayout(format: PixelFormat, privateStorage: bool, width: nat, numComponents: int): (r: Outcome<BitmapLayout>)
    ensures r.Ok? <==> !privateStorage && CGImageSupported(format)
    ensures privateStorage ==> r == Fail(InvalidOperation("Cannot create images from private textures"))
    ensures !privateStorage && !CGImageSupported(format) ==> r == Fail(NotSupported)
    ensures r.Ok? && (format == BGRA8UnormSrgb || format == RGBA8Unorm) ==>
      r.value.bitsPerComponent == 8 && r.value.components == 4 && !r.value.floatComponents
    ensures r.Ok? && format == RGBA32Float ==>
      r.value.bitsPerComponent == 32 && r.value.components == 4 && r.value.floatComponents
    ensures r.Ok? && format == R32Float ==>
      r.value.bitsPerComponent == 32 && r.value.components == 1 && r.value.floatComponents
        && r.value.alpha == AlphaNone
    ensures r.Ok? && format == BGRA8UnormSrgb ==>
      r.value.order == Little32 && r.value.alpha == (if numComponents > 3 then AlphaFirst else NoneSkipFirst)
    ensures r.Ok? && format == RGBA8Unorm ==>
      r.value.order == Big32 && r.value.alpha == (if numComponents > 3 then AlphaLast else NoneSkipLast)
    ensures r.Ok? && format == RGBA32Float ==>
      r.value.order == Little32 && r.value.alpha == (if numComponents > 3 then AlphaLast else NoneSkipLast)
    ensures r.Ok? ==> (r.value.gray <==> r.value.components == 1)
    ensures r.Ok? ==> r.value.bytesPerRow * 8 == width * r.value.bitsPerComponent * r.value.components
  {
    if privateStorage then Fail(InvalidOperation("Cannot create images from private textures"))
    else if format == BGRA8UnormSrgb then
      Ok(Layout(width, 8, 4, if numComponents > 3 then AlphaFirst else NoneSkipFirst, Little32, false))
    else if format == RGBA8Unorm then
      Ok(Layout(width, 8, 4, if numComponents > 3 then AlphaLast else NoneSkipLast, Big32, false))
    else if format == RGBA32Float then
      Ok(Layout(width, 32, 4, if numComponents > 3 then AlphaLast else NoneSkipLast, Little32, true))
    else if format == R32Float then
      Ok(Layout(width, 32, 1, AlphaNone, Little32, true))
    else Fail(NotSupported)
  }

  /** The bitmap layout of a row of width pixels: the row stride in bytes, and gray for one component. */
  function Layout(width: nat, bits: nat, components: nat, alpha: AlphaInfo, order: ByteOrder, floatComponents: bool): (r: BitmapLayout)
    requires bits == 8 || bits == 32
    ensures r.bitsPerComponent == bits && r.components == components && r.alpha == alpha
    ensures r.order == order && r.floatComponents == floatComponents
    ensures r.bytesPerRow * 8 == width * bits * components
    ensures r.gray <==> components == 1
  {
    var bytesPerComponent := if bits == 8 then 1 else 4;
    BitmapLayout(bits, components, alpha, order, floatComponents, width * components * bytesPerComponent, components == 1)
  }

  /** The row stride is the width times the bytes of one pixel of the format. */
  lemma BytesPerRowPerPixel(format: PixelFormat, width: nat, numComponents: int)
    requires CGImageSupported(format)
    ensures var r := CGImageLayout(format, false, width, numComponents);
      r.Ok? && r.value.bytesPerRow == width * (if format == R32Float then 4 else if format == RGBA32Float then 16 else 4)
  {
  }
}
