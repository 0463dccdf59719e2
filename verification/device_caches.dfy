/**
 * The per-device caches of trainable weights and images, and the objects
 * that own them: ConvWeights and its ConvDataSource
 * (MetalTensors/Layers/ConvWeights.cs), BatchNormWeights
 * (MetalTensors/Layers/BatchNormWeights.cs), the two trees' ConvWeightsLayer,
 * and the iOS PlaceholderTensor's image cache.  A device is known by its
 * handle, an int; every cache maps handles to the object built for that
 * device, building it on the first request.
 */
module DeviceCaches {
  import opened Common
  import opened Metal
  import opened Parameters
  import opened Graph
  import Shapes
  import TensorFactories
  import Images

  /** WeightsInit: the weight initialiser, only stored and handed on. */
  datatype WeightsInit = WeightsInit(name: string)

  // ---------------------------------------------------------------- ConvWeights (main tree)

  /**
   * ConvDataSource: the convolution descriptor, the weight and bias vectors,
   * and the momentum and velocity vectors handed to the optimizer.  The random
   * initial weights are not modelled.
   */
  class ConvDataSource {
    const labelText: string
    const inChannels: int
    const outChannels: int
    const kernelSizeX: int
    const kernelSizeY: int
    const strideX: int
    const strideY: int
    const weightVectors: OptimizableVector
    const biasVectors: Option<OptimizableVector>
    const momentumVectors: seq<DeviceVector>
    const velocityVectors: seq<DeviceVector>

    /** Keeps the settings and the vectors NewConvDataSource allocated. */
    constructor (inChannels: int, outChannels: int, kernelSizeX: int, kernelSizeY: int,
                 strideX: int, strideY: int, labelText: string,
                 weightVectors: OptimizableVector, biasVectors: Option<OptimizableVector>)
      ensures this.labelText == labelText && this.inChannels == inChannels && this.outChannels == outChannels
      ensures this.kernelSizeX == kernelSizeX && this.kernelSizeY == kernelSizeY
      ensures this.strideX == strideX && this.strideY == strideY
      ensures this.weightVectors == weightVectors && this.biasVectors == biasVectors
      ensures momentumVectors == [weightVectors.momentum] + (if biasVectors.Some? then [biasVectors.value.momentum] else [])
      ensures velocityVectors == [weightVectors.velocity] + (if biasVectors.Some? then [biasVectors.value.velocity] else [])
    {
      this.labelText := labelText;
      this.inChannels := inChannels;
      this.outChannels := outChannels;
      this.kernelSizeX := kernelSizeX;
      this.kernelSizeY := kernelSizeY;
      this.strideX := strideX;
      this.strideY := strideY;
      this.weightVectors := weightVectors;
      this.biasVectors := biasVectors;
      momentumVectors := [weightVectors.momentum] + (if biasVectors.Some? then [biasVectors.value.momentum] else []);
      velocityVectors := [weightVectors.velocity] + (if biasVectors.Some? then [biasVectors.value.velocity] else []);
    }
  }

  /** The number of weights a convolution of these settings holds. */
  function WeightCount(inChannels: int, outChannels: int, kernelSizeX: int, kernelSizeY: int): int
  {
    inChannels * kernelSizeX * kernelSizeY * outChannels
  }

  /** The exception new ConvDataSource(...) throws for these settings, if any. */
  function ConvDataSourceError(inChannels: int, outChannels: int, kernelSizeX: int, kernelSizeY: int): (r: Option<Exception>)
    ensures r.None? <==> inChannels > 0 && outChannels > 0 && WeightCount(inChannels, outChannels, kernelSizeX, kernelSizeY) > 0
  {
    if inChannels <= 0 || outChannels <= 0 then Some(ArgumentOutOfRange("inChannels"))
    else if WeightCount(inChannels, outChannels, kernelSizeX, kernelSizeY) <= 0 then Some(ArgumentOutOfRange("descriptor"))
    else None
  }

  /** With positive channel counts and kernel sizes that are not negative, only a zero kernel size fails. */
  lemma ZeroKernelFails(inChannels: int, outChannels: int, kernelSizeX: int, kernelSizeY: int)
    requires inChannels > 0 && outChannels > 0 && kernelSizeX >= 0 && kernelSizeY >= 0
    ensures ConvDataSourceError(inChannels, outChannels, kernelSizeX, kernelSizeY).None? <==> kernelSizeX > 0 && kernelSizeY > 0
    ensures ConvDataSourceError(inChannels, outChannels, kernelSizeX, kernelSizeY).Some? ==>
      ConvDataSourceError(inChannels, outChannels, kernelSizeX, kernelSizeY) == Some(ArgumentOutOfRange("descriptor"))
  {
    if kernelSizeX > 0 && kernelSizeY > 0 {
      assert inChannels * kernelSizeX > 0;
      assert inChannels * kernelSizeX * kernelSizeY > 0;
    }
  }

  /**
   * new ConvDataSource(...): input channels, then output channels, must be
   * positive (both errors name inChannels, as written); the weight vector of
   * in·kx·ky·out values is allocated first and fails with
   * ArgumentOutOfRange "descriptor" unless that count is positive.  A blank
   * label is replaced by a fresh GUID's text (given here); a bias vector
   * exists iff bias is set, holds outChannels values, each biasInit; the
   * optimizer sees the weight vectors' momentum and velocity, followed by
   * the bias vector's when there is one.
   */
  method NewConvDataSource(inChannels: int, outChannels: int, kernelSizeX: int, kernelSizeY: int,
                           strideX: int, strideY: int, bias: bool, biasInit: Float, labelText: string, guid: string)
    returns (r: Outcome<ConvDataSource>)
    ensures r.Ok? <==> ConvDataSourceError(inChannels, outChannels, kernelSizeX, kernelSizeY).None?
    ensures r.Fail? ==> r.error == ConvDataSourceError(inChannels, outChannels, kernelSizeX, kernelSizeY).value
    ensures r.Ok? ==> var d := r.value;
      && fresh(d) && d.labelText == (if labelText == "" then guid else labelText)
      && d.inChannels == inChannels && d.outChannels == outChannels
      && d.kernelSizeX == kernelSizeX && d.kernelSizeY == kernelSizeY
      && d.strideX == strideX && d.strideY == strideY
      && fresh(d.weightVectors) && d.weightVectors.Valid() && !d.weightVectors.disposed
      && |d.weightVectors.value.data| == WeightCount(inChannels, outChannels, kernelSizeX, kernelSizeY)
      && (d.biasVectors.Some? <==> bias)
      && (bias ==> (fresh(d.biasVectors.value) && d.biasVectors.value.Valid() && !d.biasVectors.value.disposed
        && d.biasVectors.value.value.data == seq(outChannels, _ => biasInit)))
      && d.momentumVectors == [d.weightVectors.momentum] + (if bias then [d.biasVectors.value.momentum] else [])
      && d.velocityVectors == [d.weightVectors.velocity] + (if bias then [d.biasVectors.value.velocity] else [])
  {
    if inChannels <= 0 {
      return Fail(ArgumentOutOfRange("inChannels"));
    }
    if outChannels <= 0 {
      return Fail(ArgumentOutOfRange("inChannels"));
    }
    var lenWeights := inChannels * kernelSizeX * kernelSizeY * outChannels;
    var w :- NewOptimizableVector(VectorDescriptor(lenWeights, Float32));
    var b: Option<OptimizableVector> := None;
    if bias {
      // outChannels is positive here, so this allocation succeeds
      var v := NewOptimizableVector(VectorDescriptor(outChannels, Float32));
      if v.Ok? {
        v.value.value.Fill(biasInit);
        b := Some(v.value);
      }
    }
    var d := new ConvDataSource(inChannels, outChannels, kernelSizeX, kernelSizeY, strideX, strideY,
                                if labelText == "" then guid else labelText, w, b);
    return Ok(d);
  }

  /** ConvWeights: the convolution's settings, stored as given, and its data source per device. */
  class ConvWeights {
    const labelText: string
    const inChannels: int
    const outChannels: int
    const sizeX: int
    const sizeY: int
    const strideX: int
    const strideY: int
    const bias: bool
    const weightsInit: WeightsInit
    const biasInit: Float
    var deviceWeights: map<int, ConvDataSource>

    constructor (labelText: string, inChannels: int, outChannels: int, kernelSizeX: int, kernelSizeY: int,
                 strideX: int, strideY: int, bias: bool, weightsInit: WeightsInit, biasInit: Float)
      ensures this.labelText == labelText && this.inChannels == inChannels && this.outChannels == outChannels
      ensures this.sizeX == kernelSizeX && this.sizeY == kernelSizeY
      ensures this.strideX == strideX && this.strideY == strideY
      ensures this.bias == bias && this.weightsInit == weightsInit && this.biasInit == biasInit
      ensures deviceWeights == map[]
    {
      this.labelText := labelText;
      this.inChannels := inChannels;
      this.outChannels := outChannels;
      sizeX := kernelSizeX;
      sizeY := kernelSizeY;
      this.strideX := strideX;
      this.strideY := strideY;
      this.bias := bias;
      this.weightsInit := weightsInit;
      this.biasInit := biasInit;
      deviceWeights := map[];
    }

    /**
     * GetDataSource(device): the source built for this device before, or a
     * new one built from the stored settings and remembered for the device.
     */
    method GetDataSource(device: int, guid: string) returns (r: Outcome<ConvDataSource>)
      modifies this
      ensures device in old(deviceWeights) ==> r == Ok(old(deviceWeights)[device]) && deviceWeights == old(deviceWeights)
      ensures device !in old(deviceWeights) ==>
        (r.Ok? <==> ConvDataSourceError(inChannels, outChannels, sizeX, sizeY).None?)
      ensures device !in old(deviceWeights) && r.Fail? ==>
        r.error == ConvDataSourceError(inChannels, outChannels, sizeX, sizeY).value && deviceWeights == old(deviceWeights)
      ensures device !in old(deviceWeights) && r.Ok? ==> (fresh(r.value) && deviceWeights == old(deviceWeights)[device := r.value]
        && r.value.inChannels == inChannels && r.value.outChannels == outChannels
        && r.value.kernelSizeX == sizeX && r.value.kernelSizeY == sizeY && r.value.strideX == strideX && r.value.strideY == strideY
        && r.value.labelText == (if labelText == "" then guid else labelText)
        && |r.value.weightVectors.value.data| == WeightCount(inChannels, outChannels, sizeX, sizeY)
        && (r.value.biasVectors.Some? <==> bias))
    {
      if device in deviceWeights {
        return Ok(deviceWeights[device]);
      }
      var w :- NewConvDataSource(inChannels, outChannels, sizeX, sizeY, strideX, strideY, bias, biasInit, labelText, guid);
      deviceWeights := deviceWeights[device := w];
      return Ok(w);
    }
  }

  /**
   * new ConvWeights(...): input channels, then output channels, must be
   * positive; both errors name the parameter inChannels, as written.  All
   * arguments are stored as given.
   */
  method NewConvWeights(labelText: string, inChannels: int, outChannels: int, kernelSizeX: int, kernelSizeY: int,
                        strideX: int, strideY: int, bias: bool, weightsInit: WeightsInit, biasInit: Float)
    returns (r: Outcome<ConvWeights>)
    ensures r.Ok? <==> inChannels > 0 && outChannels > 0
    ensures r.Fail? ==> r.error == ArgumentOutOfRange("inChannels")
    ensures r.Ok? ==> (fresh(r.value) && r.value.labelText == labelText
      && r.value.inChannels == inChannels && r.value.outChannels == outChannels
      && r.value.sizeX == kernelSizeX && r.value.sizeY == kernelSizeY
      && r.value.strideX == strideX && r.value.strideY == strideY
      && r.value.bias == bias && r.value.weightsInit == weightsInit && r.value.biasInit == biasInit
      && r.value.deviceWeights == map[])
  {
    if inChannels <= 0 {
      return Fail(ArgumentOutOfRange("inChannels"));
    }
    if outChannels <= 0 {
      return Fail(ArgumentOutOfRange("inChannels"));
    }
    var w := new ConvWeights(labelText, inChannels, outChannels, kernelSizeX, kernelSizeY, strideX, strideY,
                             bias, weightsInit, biasInit);
    return Ok(w);
  }

  /**
   * A second request for the same device returns the source of the first, or
   * fails again with the same exception when the first failed.
   */
  method GetDataSourceTwice(weights: ConvWeights, device: int, guid1: string, guid2: string)
    returns (first: Outcome<ConvDataSource>, second: Outcome<ConvDataSource>)
    modifies weights
    ensures first == second
  {
    first := weights.GetDataSource(device, guid1);
    second := weights.GetDataSource(device, guid2);
  }

  /**
   * ConvWeightsLayer (main tree): a layer whose convolution settings are
   * those of its ConvWeights, read through on every access, and whose data
   * source for a device is the weights' source.
   */
  class ConvWeightsLayer {
    const weights: ConvWeights
    const padding: ConvPadding

    constructor (weights: ConvWeights, padding: ConvPadding)
      ensures this.weights == weights && this.padding == padding
    {
      this.weights := weights;
      this.padding := padding;
    }

    function InFeatureChannels(): int reads this { weights.inChannels }
    function OutFeatureChannels(): int reads this { weights.outChannels }
    function SizeX(): int reads this { weights.sizeX }
    function SizeY(): int reads this { weights.sizeY }
    function StrideX(): int reads this { weights.strideX }
    function StrideY(): int reads this { weights.strideY }
    function Bias(): bool reads this { weights.bias }
    function WeightsInitOf(): WeightsInit reads this { weights.weightsInit }
    function BiasInit(): Float reads this { weights.biasInit }

    /** GetMetalConvDataSource(device): the weights' source for the device. */
    method GetMetalConvDataSource(device: int, guid: string) returns (r: Outcome<ConvDataSource>)
      modifies weights
      ensures r.Ok? ==> device in weights.deviceWeights && r.value == weights.deviceWeights[device]
      ensures device in old(weights.deviceWeights) ==> (r == Ok(old(weights.deviceWeights)[device])
        && weights.deviceWeights == old(weights.deviceWeights))
      ensures device !in old(weights.deviceWeights) ==>
        (r.Ok? <==> ConvDataSourceError(InFeatureChannels(), OutFeatureChannels(), SizeX(), SizeY()).None?)
      ensures r.Fail? ==> (r.error == ConvDataSourceError(InFeatureChannels(), OutFeatureChannels(), SizeX(), SizeY()).value
        && weights.deviceWeights == old(weights.deviceWeights))
    {
      r := weights.GetDataSource(device, guid);
    }
  }

  /**
   * The ConvWeightsLayer constructor: builds the ConvWeights from its
   * arguments and the layer's label, so each accessor answers the argument it
   * was given; the channel checks of ConvWeights apply.
   */
  method NewConvWeightsLayer(labelText: string, inFeatureChannels: int, outFeatureChannels: int,
                             sizeX: int, sizeY: int, strideX: int, strideY: int, padding: ConvPadding,
                             bias: bool, weightsInit: WeightsInit, biasInit: Float)
    returns (r: Outcome<ConvWeightsLayer>)
    ensures r.Ok? <==> inFeatureChannels > 0 && outFeatureChannels > 0
    ensures r.Fail? ==> r.error == ArgumentOutOfRange("inChannels")
    ensures r.Ok? ==> (fresh(r.value) && fresh(r.value.weights) && r.value.padding == padding
      && r.value.InFeatureChannels() == inFeatureChannels && r.value.OutFeatureChannels() == outFeatureChannels
      && r.value.SizeX() == sizeX && r.value.SizeY() == sizeY
      && r.value.StrideX() == strideX && r.value.StrideY() == strideY
      && r.value.Bias() == bias && r.value.WeightsInitOf() == weightsInit && r.value.BiasInit() == biasInit
      && r.value.weights.labelText == labelText && r.value.weights.deviceWeights == map[])
  {
    var w := NewConvWeights(labelText, inFeatureChannels, outFeatureChannels, sizeX, sizeY, strideX, strideY,
                            bias, weightsInit, biasInit);
    if w.Fail? {
      return Fail(w.error);
    }
    var layer := new ConvWeightsLayer(w.value, padding);
    return Ok(layer);
  }

  // ---------------------------------------------------------------- BatchNormWeights

  /** BatchNormDataSource: the label and channel count it reports; its vectors are not modelled. */
  class BatchNormDataSource {
    const labelText: string
    const featureChannels: int

    constructor (labelText: string, featureChannels: int)
      ensures this.labelText == labelText && this.featureChannels == featureChannels
    {
      this.labelText := labelText;
      this.featureChannels := featureChannels;
    }
  }

  /** BatchNormWeights: the label, the channel count, the four statistics tensors and the source per device. */
  class BatchNormWeights {
    const labelText: string
    const featureChannels: int
    const beta: Tensor
    const gamma: Tensor
    const movingMean: Tensor
    const movingVariance: Tensor
    var deviceWeights: map<int, BatchNormDataSource>

    constructor (labelText: string, featureChannels: int, beta: Tensor, gamma: Tensor, movingMean: Tensor, movingVariance: Tensor)
      ensures this.labelText == labelText && this.featureChannels == featureChannels
      ensures this.beta == beta && this.gamma == gamma
      ensures this.movingMean == movingMean && this.movingVariance == movingVariance
      ensures deviceWeights == map[]
    {
      this.labelText := labelText;
      this.featureChannels := featureChannels;
      this.beta := beta;
      this.gamma := gamma;
      this.movingMean := movingMean;
      this.movingVariance := movingVariance;
      deviceWeights := map[];
    }

    /** GetDataSource(device): the source built for this device before, or a new one, remembered. */
    method GetDataSource(device: int) returns (w: BatchNormDataSource)
      modifies this
      ensures device in deviceWeights && w == deviceWeights[device]
      ensures device in old(deviceWeights) ==> deviceWeights == old(deviceWeights)
      ensures device !in old(deviceWeights) ==> (fresh(w) && deviceWeights == old(deviceWeights)[device := w]
        && w.labelText == labelText && w.featureChannels == featureChannels)
    {
      if device in deviceWeights {
        return deviceWeights[device];
      }
      w := new BatchNormDataSource(labelText, featureChannels);
      deviceWeights := deviceWeights[device := w];
    }
  }

  /**
   * new BatchNormWeights(label, channels): a positive channel count is
   * required; beta and the moving mean are constant-0 tensors, gamma and the
   * moving variance constant-1 tensors, all of shape [channels], drawn in the
   * order beta, gamma, mean, variance.
   */
  method NewBatchNormWeights(counters: Counters, labelText: string, channels: int) returns (r: Outcome<BatchNormWeights>)
    modifies counters
    ensures r.Ok? <==> channels > 0
    ensures r.Fail? ==> r.error == ArgumentOutOfRange("channels") && counters.lastConfigurableId == old(counters.lastConfigurableId)
    ensures counters.lastLayerId == old(counters.lastLayerId)
    ensures r.Ok? ==> (var w := r.value; var id := old(counters.lastConfigurableId);
      fresh(w) && w.labelText == labelText && w.featureChannels == channels && w.deviceWeights == map[]
      && w.beta == Tensor(id + 1, None, ConstantKind([channels], 0.0))
      && w.gamma == Tensor(id + 2, None, ConstantKind([channels], 1.0))
      && w.movingMean == Tensor(id + 3, None, ConstantKind([channels], 0.0))
      && w.movingVariance == Tensor(id + 4, None, ConstantKind([channels], 1.0))
      && counters.lastConfigurableId == id + 4)
  {
    if channels <= 0 {
      return Fail(ArgumentOutOfRange("channels"));
    }
    Shapes.NormalizedKeepsPositive([channels]);
    var beta := TensorFactories.Zeros(counters, [channels]);
    var gamma := TensorFactories.Ones(counters, [channels]);
    var mean := TensorFactories.Zeros(counters, [channels]);
    var variance := TensorFactories.Ones(counters, [channels]);
    var w := new BatchNormWeights(labelText, channels, beta, gamma, mean, variance);
    return Ok(w);
  }

  // ---------------------------------------------------------------- iOS ConvWeightsLayer

  /**
   * The iOS tree's ConvWeights, as the layer constructs it: the input channels
   * found on the input, the layer's settings, its label and the device.  The
   * class itself is not part of this model beyond these arguments.
   */
  class IosConvWeights {
    const inChannels: int
    const outChannels: int
    const sizeX: int
    const sizeY: int
    const strideX: int
    const strideY: int
    const bias: bool
    const labelText: string
    const device: int

    constructor (inChannels: int, outChannels: int, sizeX: int, sizeY: int, strideX: int, strideY: int,
                 bias: bool, labelText: string, device: int)
      ensures this.inChannels == inChannels && this.outChannels == outChannels
      ensures this.sizeX == sizeX && this.sizeY == sizeY && this.strideX == strideX && this.strideY == strideY
      ensures this.bias == bias && this.labelText == labelText && this.device == device
    {
      this.inChannels := inChannels;
      this.outChannels := outChannels;
      this.sizeX := sizeX;
      this.sizeY := sizeY;
      this.strideX := strideX;
      this.strideY := strideY;
      this.bias := bias;
      this.labelText := labelText;
      this.device := device;
    }
  }

  /** ConvWeightsLayer (iOS): its settings and the weights built per device. */
  class IosConvWeightsLayer {
    const labelText: string
    const featureChannels: int
    const sizeX: int
    const sizeY: int
    const strideX: int
    const strideY: int
    const bias: bool
    const padding: ConvPadding
    var deviceWeights: map<int, IosConvWeights>

    constructor (labelText: string, featureChannels: int, sizeX: int, sizeY: int, strideX: int, strideY: int,
                 bias: bool, padding: ConvPadding)
      ensures this.labelText == labelText && this.featureChannels == featureChannels
      ensures this.sizeX == sizeX && this.sizeY == sizeY && this.strideX == strideX && this.strideY == strideY
      ensures this.bias == bias && this.padding == padding && deviceWeights == map[]
    {
      this.labelText := labelText;
      this.featureChannels := featureChannels;
      this.sizeX := sizeX;
      this.sizeY := sizeY;
      this.strideX := strideX;
      this.strideY := strideY;
      this.bias := bias;
      this.padding := padding;
      deviceWeights := map[];
    }

    /** GetMetalConvDataSource(device): the weights built for the device, or null before GetWeights ran for it. */
    function GetMetalConvDataSource(device: int): (r: Option<IosConvWeights>)
      reads this
      ensures r.None? <==> device !in deviceWeights
      ensures r.Some? ==> r.value == deviceWeights[device]
    {
      if device in deviceWeights then Some(deviceWeights[device]) else None
    }

    /**
     * GetWeights(inChannels, device): the weights built for this device
     * before, or new ones from the input channels and the layer's settings,
     * remembered for the device.
     */
    method GetWeights(inChannels: int, device: int) returns (w: IosConvWeights)
      modifies this
      ensures device in deviceWeights && w == deviceWeights[device]
      ensures device in old(deviceWeights) ==> deviceWeights == old(deviceWeights)
      ensures device !in old(deviceWeights) ==> (fresh(w) && deviceWeights == old(deviceWeights)[device := w]
        && w.inChannels == inChannels && w.outChannels == featureChannels
        && w.sizeX == sizeX && w.sizeY == sizeY && w.strideX == strideX && w.strideY == strideY
        && w.bias == bias && w.labelText == labelText && w.device == device)
    {
      if device in deviceWeights {
        return deviceWeights[device];
      }
      w := new IosConvWeights(inChannels, featureChannels, sizeX, sizeY, strideX, strideY, bias, labelText, device);
      deviceWeights := deviceWeights[device := w];
    }
  }

  /** new ConvWeightsLayer(...) (iOS): a positive feature-channel count is required; the settings are stored as given. */
  method NewIosConvWeightsLayer(labelText: string, featureChannels: int, sizeX: int, sizeY: int,
                                strideX: int, strideY: int, bias: bool, padding: ConvPadding)
    returns (r: Outcome<IosConvWeightsLayer>)
    ensures r.Ok? <==> featureChannels > 0
    ensures r.Fail? ==> r.error == ArgumentOutOfRange("featureChannels")
    ensures r.Ok? ==> (fresh(r.value) && r.value.labelText == labelText && r.value.featureChannels == featureChannels
      && r.value.sizeX == sizeX && r.value.sizeY == sizeY && r.value.strideX == strideX && r.value.strideY == strideY
      && r.value.bias == bias && r.value.padding == padding && r.value.deviceWeights == map[])
  {
    if featureChannels <= 0 {
      return Fail(ArgumentOutOfRange("featureChannels"));
    }
    var layer := new IosConvWeightsLayer(labelText, featureChannels, sizeX, sizeY, strideX, strideY, bias, padding);
    return Ok(layer);
  }

  /**
   * The data source of a device is null until the weights have been built
   * for it, and afterwards it is those weights.
   */
  method DataSourceAfterGetWeights(layer: IosConvWeightsLayer, inChannels: int, device: int)
    returns (before: Option<IosConvWeights>, w: IosConvWeights, after: Option<IosConvWeights>)
    modifies layer
    ensures before.None? <==> device !in old(layer.deviceWeights)
    ensures after == Some(w)
  {
    before := layer.GetMetalConvDataSource(device);
    w := layer.GetWeights(inChannels, device);
    after := layer.GetMetalConvDataSource(device);
  }

  // ---------------------------------------------------------------- iOS PlaceholderTensor

  /** PlaceholderTensor (iOS): its shape, stored as given, and the image made for it per device. */
  class IosPlaceholder {
    const shape: seq<int>
    var deviceImages: map<int, Images.Image>

    constructor (shape: seq<int>)
      ensures this.shape == shape && deviceImages == map[]
    {
      this.shape := shape;
      deviceImages := map[];
    }

    /**
     * GetMetalImage(device): the image made for this device before, or a new
     * zero-filled image of the placeholder's shape, remembered for the device.
     */
    method GetMetalImage(device: int) returns (r: Outcome<Images.Image>)
      modifies this
      ensures device in old(deviceImages) ==> r == Ok(old(deviceImages)[device]) && deviceImages == old(deviceImages)
      ensures device !in old(deviceImages) ==> (r.Ok? <==> |shape| <= 3 && forall i :: 0 <= i < |shape| ==> shape[i] >= 0)
      ensures device !in old(deviceImages) && r.Fail? ==> r == Fail(if |shape| > 3 then Images.ImageSizeOf(shape).error else Overflow)
      ensures device !in old(deviceImages) && r.Fail? ==> deviceImages == old(deviceImages)
      ensures device !in old(deviceImages) && r.Ok? ==> (fresh(r.value)
        && deviceImages == old(deviceImages)[device := r.value]
        && |r.value.data| == Shapes.Product(shape)
        && forall i :: 0 <= i < |r.value.data| ==> r.value.data[i] == 0.0)
    {
      if device in deviceImages {
        return Ok(deviceImages[device]);
      }
      r := Images.CreateConstantImage(shape, 0.0);
      if r.Ok? {
        deviceImages := deviceImages[device := r.value];
      }
    }
  }
}
