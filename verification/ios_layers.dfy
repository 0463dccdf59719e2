/**
 * The layers of the MetalTensors.iOS tree whose shape logic differs from the
 * main tree's: the convolution layers with their constructor checks (Conv2Layer
 * takes its arguments Y first), max pooling with Valid padding, and upsampling
 * without a rank check. The iOS dense layer computes the same shape as the
 * main tree's, so LayerShapes.DenseShape stands for both.
 */
module IosLayers {
  import opened Common
  import Conv
  import LayerShapes

  /** The settings every iOS convolution layer stores. */
  datatype ConvSettings = ConvSettings(featureChannels: int, sizeX: int, sizeY: int,
                                       strideX: int, strideY: int, padding: ConvPadding)

  /** ConvLayer(featureChannels, sizeX, sizeY, strideX, strideY, padding). */
  function NewConvLayer(featureChannels: int, sizeX: int, sizeY: int, strideX: int, strideY: int,
                        padding: ConvPadding): (r: Outcome<ConvSettings>)
    ensures r.Ok? <==> featureChannels > 0
    ensures r.Fail? ==> r.error == ArgumentOutOfRange("featureChannels")
    ensures r.Ok? ==> r.value == ConvSettings(featureChannels, sizeX, sizeY, strideX, strideY, padding)
  {
    if featureChannels <= 0 then Fail(ArgumentOutOfRange("featureChannels"))
    else Ok(ConvSettings(featureChannels, sizeX, sizeY, strideX, strideY, padding))
  }

  /** ConvLayer(featureChannels, size, stride = 1, padding = Same): the same size and stride on both axes. */
  function NewSquareConvLayer(featureChannels: int, size: int, stride: int, padding: ConvPadding): (r: Outcome<ConvSettings>)
    ensures r == NewConvLayer(featureChannels, size, size, stride, stride, padding)
  {
    NewConvLayer(featureChannels, size, size, stride, stride, padding)
  }

  /** Conv2Layer(featureChannels, sizeY, sizeX, strideY, strideX, padding): Y-first argument order. */
  function NewConv2Layer(featureChannels: int, sizeY: int, sizeX: int, strideY: int, strideX: int,
                         padding: ConvPadding): (r: Outcome<ConvSettings>)
    ensures r.Ok? <==> featureChannels > 0
    ensures r.Fail? ==> r.error == ArgumentOutOfRange("featureChannels")
    ensures r.Ok? ==> r.value.sizeX == sizeX && r.value.sizeY == sizeY && r.value.strideX == strideX && r.value.strideY == strideY
  {
    if featureChannels <= 0 then Fail(ArgumentOutOfRange("featureChannels"))
    else Ok(ConvSettings(featureChannels, sizeX, sizeY, strideX, strideY, padding))
  }

  /** Conv2Layer's full constructor is ConvLayer's with each axis pair given in the other order. */
  lemma Conv2SwapsArguments(fc: int, a: int, b: int, c: int, d: int, padding: ConvPadding)
    ensures NewConv2Layer(fc, a, b, c, d, padding) == NewConvLayer(fc, b, a, d, c, padding)
  {
  }

  /** Both square constructors agree: the argument order does not matter when the axes are equal. */
  lemma SquareConstructorsAgree(fc: int, size: int, stride: int, padding: ConvPadding)
    ensures NewConv2Layer(fc, size, size, stride, stride, padding) == NewSquareConvLayer(fc, size, stride, padding)
  {
  }

  /**
   * ConvLayer.GetOutputShape and Conv2Layer.GetOutputShape (iOS): the same rule
   * as the main tree's ConvLayer, with the layer's own ConvOutputLength copy.
   */
  function ConvLayerShape(settings: ConvSettings, inputs: seq<seq<int>>): (r: Outcome<seq<int>>)
    ensures r.Ok? <==> |inputs| > 0 && |inputs[0]| >= 2 && inputs[0][0] >= 0 && inputs[0][1] >= 0
                       && settings.strideX != 0 && settings.strideY != 0
    ensures r.Ok? ==> |r.value| == 3 && r.value[2] == settings.featureChannels
    ensures r.Ok? ==> (Ok(r.value[0]) == Conv.ConvOutputLength(inputs[0][0], settings.sizeY, settings.strideY, settings.padding, 1)
                       && Ok(r.value[1]) == Conv.ConvOutputLength(inputs[0][1], settings.sizeX, settings.strideX, settings.padding, 1))
  {
    LayerShapes.ConvShape(inputs, settings.sizeX, settings.sizeY, settings.strideX, settings.strideY,
                          settings.padding, settings.featureChannels)
  }

  /** With the defaults (stride 1, Same padding) a convolution keeps the image's height and width. */
  lemma DefaultConvKeepsImageSize(fc: int, size: int, h: int, w: int, c: int)
    requires fc > 0 && h >= 0 && w >= 0
    ensures var layer := NewSquareConvLayer(fc, size, 1, Same);
      layer.Ok? && ConvLayerShape(layer.value, [[h, w, c]]) == Ok([h, w, fc])
  {
  }

  /**
   * MaxPoolLayer(size = 2, stride = 2): the same values on both axes, passed
   * to the iOS PoolLayer base constructor. That base class is not part of this
   * model; its checks are taken to be the main tree's LayerShapes.NewPool.
   */
  function NewDefaultMaxPool(): (r: Outcome<LayerShapes.PoolSettings>)
    ensures r == Ok(LayerShapes.PoolSettings(2, 2, 2, 2))
  {
    LayerShapes.NewPool(2, 2, 2, 2)
  }

  /**
   * MaxPoolLayer.GetOutputShape (iOS): height and width through
   * ConvOutputLength with Valid padding and dilation 1; the channel count is
   * the input's last dimension.
   */
  function MaxPoolShape(pool: LayerShapes.PoolSettings, inputs: seq<seq<int>>): (r: Outcome<seq<int>>)
    ensures r.Ok? <==> |inputs| > 0 && |inputs[0]| >= 2 && inputs[0][0] >= 0 && inputs[0][1] >= 0
                       && pool.strideY != 0 && pool.strideX != 0
    ensures r.Ok? ==> (|r.value| == 3 && r.value[2] == inputs[0][|inputs[0]| - 1]
                       && Ok(r.value[0]) == Conv.ConvOutputLength(inputs[0][0], pool.sizeY, pool.strideY, Valid, 1)
                       && Ok(r.value[1]) == Conv.ConvOutputLength(inputs[0][1], pool.sizeX, pool.strideX, Valid, 1))
  {
    var inputShape :- LayerShapes.FirstShape(inputs);
    var h :- LayerShapes.Dim(inputShape, 0);
    var w :- LayerShapes.Dim(inputShape, 1);
    var fc := inputShape[|inputShape| - 1];
    var kh :- Conv.ConvOutputLength(h, pool.sizeY, pool.strideY, Valid, 1);
    var kw :- Conv.ConvOutputLength(w, pool.sizeX, pool.strideX, Valid, 1);
    Ok([kh, kw, fc])
  }

  /** Max pooling with the defaults halves an even-sized image and keeps its channels. */
  lemma DefaultMaxPoolHalves(n: int, c: int)
    requires n >= 1
    ensures var pool := NewDefaultMaxPool();
      pool.Ok? && MaxPoolShape(pool.value, [[2 * n, 2 * n, c]]) == Ok([n, n, c])
  {
    Conv.MulAddDiv(n, 2, 1);
  }

  /** Tests.iOS/MaxPoolLayerTests.cs: a 512 x 512 x 3 image max-pooled with the defaults is 256 x 256 x 3. */
  lemma MaxPoolExample()
    ensures MaxPoolShape(LayerShapes.PoolSettings(2, 2, 2, 2), [[512, 512, 3]]) == Ok([256, 256, 3])
  {
    DefaultMaxPoolHalves(256, 3);
  }

  /** The iOS UpsampleLayer constructor: the same checks as the main tree's. */
  function NewIosUpsample(scaleX: int, scaleY: int): (r: Outcome<LayerShapes.UpsampleSettings>)
    ensures r == LayerShapes.NewUpsample(scaleX, scaleY)
    ensures r.Ok? <==> scaleX >= 1 && scaleY >= 1
  {
    if scaleX < 1 then Fail(Argument("scaleX"))
    else if scaleY < 1 then Fail(Argument("scaleY"))
    else Ok(LayerShapes.UpsampleSettings(scaleX, scaleY))
  }

  /** UpsampleLayer.GetOutputShape (iOS): no rank check, so a short shape fails on inShape[2]. */
  function IosUpsampleShape(inputs: seq<seq<int>>, settings: LayerShapes.UpsampleSettings): (r: Outcome<seq<int>>)
    ensures r.Ok? <==> |inputs| > 0 && |inputs[0]| >= 3
    ensures r.Fail? ==> r.error == IndexOutOfRange
  {
    var s :- LayerShapes.FirstShape(inputs);
    var h :- LayerShapes.Dim(s, 0);
    var w :- LayerShapes.Dim(s, 1);
    var c :- LayerShapes.Dim(s, 2);
    Ok([h * settings.scaleY, w * settings.scaleX, c])
  }

  /**
   * Both trees compute the same upsampled shape; they differ only in the
   * exception for a short input (IndexOutOfRange here, Argument in the main tree's validation).
   */
  lemma UpsampleTreesAgree(inputs: seq<seq<int>>, settings: LayerShapes.UpsampleSettings)
    ensures IosUpsampleShape(inputs, settings) == LayerShapes.UpsampleShape(inputs, settings)
    ensures LayerShapes.UpsampleValidation(inputs).Fail? <==> IosUpsampleShape(inputs, settings).Fail?
  {
  }

  /** UpsampleLayer.InputCount (iOS). */
  const UpsampleInputCount: int := 1
}
