# MetalTensors in Dafny

MetalTensors is a C# neural-network library built on Apple's Metal
Performance Shaders. A program builds a graph of tensors: constants,
arrays, input and label placeholders, and tensors made by applying layers
(convolution, pooling, dense, concat, upsample, mean, loss) to other
tensors. A `Model` collects that graph from its outputs, and a
`CompiledModel` adds the losses to train it. The library runs the graph on
the GPU. Around that it does a good deal of integer, shape and bookkeeping
work, and this project models that work and proves properties of it.

The model covers both source trees, `MetalTensors/` and
`MetalTensors.iOS/`. They are two revisions of the same library, and each
file is modelled as written.

- **Shape algebra** (`shapes.dfy`, `text.dfy`): the shape caches, normalisation, equality, length and rendering. Also the int-to-text and text-to-int conversions that shapes and configs use.
- **Convolution arithmetic** (`conv.dfy`): the output-length formulas, with C#'s truncating division written out.
- **Layers and their output shapes** (`graph.dfy`, `layer_shapes.dfy`, `ios_layers.dfy`): name defaulting from a layer counter, the loss list, the input-count guard, the filter-node cache, and the validation and output shape of every layer.
- **Tensors** (`graph.dfy`, `tensors.dfy`, `factories.dfy`, `mapping.dfy`): the tensor graph as a datatype whose ids are unique. The covered operations are:
  - element access and row-major indexing;
  - the in-place copies into a destination array;
  - the factories (Ones, Zeros, OneHot, Sum, Add, Concat);
  - the remapping of tensor arrays through a dictionary or a function.
- **Metal buffers and weights** (`metal.dfy`, `images.dfy`, `weights.dfy`, `device_caches.dfy`): MPSVector and MPSImage as classes that hold the floats last written into them. Also covered:
  - the byte-size tables;
  - the parameter registry of `Weights`;
  - idempotent dispose;
  - the per-device memo caches of the convolution and batch-norm weights and of the iOS placeholder.
- **Models** (`walk.dfy`, `models.dfy`, `ios_model.dfy`):
  - the breadth-first, de-duplicating walk both `Model` constructors make;
  - the parameter summary;
  - the rebuild with new inputs;
  - the loss collection of `CompiledModel`.
- **Configuration** (`config.dfy`): the `Config` dictionary, and writing configurables as XML attributes and child elements with shared-object back-references. Also reading them back, including the missing-argument error.

Exceptions are modelled as `Fail` results of the `Outcome` datatype in
`common.dfy`, and floats as `real`.

## Model

| member | source | states |
|---|---|---|
| Common.TruncDiv | MetalTensors/Layers/ConvWeightsLayer.cs:56 | C# integer division: the quotient's magnitude is the floor of the magnitudes' quotient, and its sign follows the operands' signs (truncation toward zero) |
| Text.NatToString | MetalTensors/Config.cs:243 | the decimal text of a natural is non-empty, all digits, with no leading zero |
| Text.IntToString | MetalTensors/Config.cs:243 | int.ToString: non-empty, begins with '-' exactly for negatives, digits after the first character |
| Text.ParseInt | MetalTensors/Config.cs:339-340 | int.Parse: only FormatException is raised, and a non-empty digit string is read as its decimal value |
| Text.TrimNumberWhite | MetalTensors/Config.cs:339-340 | the white space int.Parse skips: never lengthens, and a string with no surrounding white space is unchanged |
| Text.Join | MetalTensors/Shapes.cs:57-60 | string.Join: one part is itself, no parts is "" |
| Text.IntStrings | MetalTensors/Config.cs:190 | one invariant-culture text per int, in order |
| Text.TokenLength | MetalTensors/Config.cs:333-346 | the first token ends at the first space or comma, and contains none |
| Text.Tokens | MetalTensors/Config.cs:333-346 | Split with RemoveEmptyEntries: every token is non-empty and free of spaces and commas |
| Text.ParseAll | MetalTensors/Config.cs:346 | parsing every token gives one int per token |
| Text.ParseIntToString | MetalTensors/Config.cs:339-340 | int.Parse reads back every int.ToString, negatives included |
| Text.ParseNegative | MetalTensors/Config.cs:339-340 | a minus sign before the digits of n is read as -n |
| Text.TokensOfJoin | MetalTensors/Config.cs:346 | splitting a ", "-joined list of non-empty, separator-free parts gives back exactly those parts |
| Text.ParseAllOfIntStrings | MetalTensors/Config.cs:346 | parsing the printed ints gives back the ints |
| Text.IntsRoundTrip | MetalTensors/Config.cs:345-346 | an int[] written as string.Join(", ", ints) (line 190) is read back unchanged |
| Shapes.ProductAppend | MetalTensors/Shapes.cs:62-69 | the element count of a concatenated shape is the product of the parts' counts |
| Shapes.ProductPositive | MetalTensors/Shapes.cs:62-69 | a shape with only positive dimensions has a positive element count |
| Shapes.ShapeLengthPositive | MetalTensors/Shapes.cs:62-69 | GetShapeLength of an all-positive shape is at least 1 |
| Shapes.GetShapeLength | MetalTensors/Shapes.cs:62-69 | the loop's result is the product of the dimensions, 1 for the empty shape |
| Shapes.ToShapeString | MetalTensors/Shapes.cs:57-60 | the text is parenthesised, "()" for the empty shape |
| Shapes.ShapeStringRoundTrip | MetalTensors/Shapes.cs:57-60 | the dimensions are read back from the text between the parentheses |
| Shapes.NormalizedPositive | MetalTensors/Shapes.cs:73-95 | NormalizeShape yields only positive dimensions and keeps the rank (rank 1 for null or empty) |
| Shapes.NormalizedKeepsPositive | MetalTensors/Shapes.cs:85-94 | an all-positive shape is returned as it is |
| Shapes.NormalizedIdempotent | MetalTensors/Shapes.cs:73-95 | normalising twice is normalising once |
| Shapes.ShapeCache.constructor | MetalTensors/Shapes.cs:8-10 | both caches start empty |
| Shapes.ShapeCache.GetShape | MetalTensors/Shapes.cs:12-25 | the result holds [dim0]; below 1024 it is memoised (the cached array is returned again, other slots unchanged); above, a fresh array; a negative index raises IndexOutOfRange |
| Shapes.ShapeCache.GetShape3 | MetalTensors/Shapes.cs:29-52 | as written: the result is Shape3AsWritten (memoised in range, [dim0] off the cache), the cache grows by exactly this triple |
| Shapes.ShapeCache.GetShape3Corrected | MetalTensors/Shapes.cs:29-52 | as intended: always [dim0, dim1, dim2], memoised in range |
| Shapes.ShapeCache.LookUp3 | MetalTensors/Shapes.cs:31-47 | the cached branch: a negative index raises IndexOutOfRange with the cache unchanged; otherwise [dim0, dim1, dim2], the cached array if present, and the cache records it |
| Shapes.ShapeCache.NormalizeShape | MetalTensors/Shapes.cs:73-95 | the result's contents are Normalized(shape); null/empty gives the shared { 1 }, rank 1 goes through GetShape, an all-positive shape is returned itself, otherwise a fresh array |
| Shapes.ClampedCopy | MetalTensors/Shapes.cs:86-91 | a fresh array of the same length with each dimension raised to at least 1 |
| Shapes.Shape3AsWritten | MetalTensors/Shapes.cs:29-52 | fails exactly for a negative index inside the cache bounds |
| Shapes.Shape3Intended | MetalTensors/Shapes.cs:29-52 | a successful result always has three dimensions |
| Shapes.Shape3DropsDimensions | MetalTensors/Shapes.cs:49-51 | for 1024 x 1024 x 3 the code returns [1024], the intended result is [1024, 1024, 3] |
| Shapes.Shape3AgreesInRange | MetalTensors/Shapes.cs:29-52 | the written and intended versions agree exactly when all three dimensions are below 1024 |
| Shapes.ShapeEquals | MetalTensors/Shapes.cs:97-106 | true exactly when both shapes have the same rank and the same dimensions |
| Conv.ConvOutputLength | MetalTensors/Layers/ConvWeightsLayer.cs:43-58 | fails exactly for a negative input (ArgumentOutOfRange "inputLength") or a zero stride (division by zero); Same padding with stride 1 keeps the length |
| Conv.SameIsCeiling | MetalTensors/Layers/ConvWeightsLayer.cs:50-57 | with Same padding the output is ceil(inputLength / stride): the fewest strides that cover the input |
| Conv.ValidCountsPlacements | MetalTensors/Layers/ConvWeightsLayer.cs:50-57 | with Valid padding and a long enough input, the output is the number of whole filter placements, at least one |
| Conv.ValidTooShort | MetalTensors/Layers/ConvWeightsLayer.cs:50-57 | an input shorter than the dilated filter gives no positive output length |
| Conv.ConvTransposeOutputLength | MetalTensors/Layers/ConvWeightsLayer.cs:60-97 | fails exactly for a negative input, with ArgumentOutOfRange "inputLength" |
| Conv.TransposeInvertsConv | MetalTensors/Layers/ConvWeightsLayer.cs:43-97 | without output padding, the transposed length fed back through ConvOutputLength gives the original length, for both paddings |
| Conv.OutputPaddingInvertsConv | MetalTensors/Layers/ConvWeightsLayer.cs:82-94 | with an output padding p below the stride, the transposed length (which adds p) fed back through ConvOutputLength still gives the original length, under Valid padding and under Same padding with an odd dilated filter |
| Conv.ConvTransposeExamples | MetalTensors/Layers/ConvWeightsLayer.cs:60-97 | the test figures: 5 x 7 stays 5 x 7 at stride 1 and becomes 10 x 14 with a 4-tap filter at stride 2 |
| Conv.ConvExamples | MetalTensors/Layers/ConvWeightsLayer.cs:43-58 | 512 with a 2-tap filter at stride 2 under Valid padding gives 256; Same at stride 1 keeps 512, 29 and 67 |
| Conv.TruncationOnShortInput | MetalTensors/Layers/ConvWeightsLayer.cs:56 | the division truncates: an empty input under a 3-tap, stride-2 Valid filter gives 0, where floor division gives -1 |
| LayerShapes.FirstShape | MetalTensors/Layers/LossLayer.cs:36-39 | inputs[0]: the first shape when there is one, IndexOutOfRange otherwise |
| LayerShapes.ConvShape | MetalTensors/Layers/ConvLayer.cs:12-24 | succeeds exactly for a first input of rank at least 2 with non-negative height and width and non-zero strides; the result is [height, width] through ConvOutputLength with dilation 1, then the feature channels |
| LayerShapes.ConvShapeExample | MetalTensors/Layers/ConvLayer.cs:12-24 | a 512 x 512 x 3 image under a 3 x 3, stride-1 Same convolution with 32 channels is 512 x 512 x 32 |
| LayerShapes.ConvTransposeValidation | MetalTensors/Layers/ConvTransposeLayer.cs:39-50 | accepts exactly when every input is H x W x C with C the layer's input channels; otherwise ArgumentException naming "inputs" |
| LayerShapes.ConvTransposeShape | MetalTensors/Layers/ConvTransposeLayer.cs:51-59 | [height, width] through ConvTransposeOutputLength without output padding, then the output channels |
| LayerShapes.ConvTransposeUndoesConv | MetalTensors/Layers/ConvTransposeLayer.cs:51-59 | a transposed convolution's output shape, convolved with the same filter and stride, is the original H x W x C |
| LayerShapes.ConvTransposeShapeExamples | MetalTensors/Layers/ConvTransposeLayer.cs:39-59 | the test figures: 5 x 7 x 3 passes validation and becomes 5 x 7 x 32 at stride 1, 10 x 14 x 32 with a 4-tap filter at stride 2 |
| LayerShapes.PaddingPolicyFor | MetalTensors/Layers/ConvTransposeLayer.cs:61-77 | Same padding takes the custom policy for StrideX 1 to 4 and throws for any other stride; other paddings take the full-size policy |
| LayerShapes.ImageDescriptor.constructor | MetalTensors/Layers/ConvTransposeLayer.cs:95 | the descriptor holds the given width, height and channels |
| LayerShapes.SamePaddingDescriptor | MetalTensors/Layers/ConvTransposeLayer.cs:94-100 | the suggested descriptor itself is returned, resized to the first source image times the stride; channels untouched; no source image fails |
| LayerShapes.DenseShape | MetalTensors/Layers/DenseLayer.cs:14-21 | the first input's shape with its last dimension replaced by the feature count; fails for no input or rank 0 |
| LayerShapes.DenseOutputShape | MetalTensors/Layers/DenseLayer.cs:14-21 | the copy-and-overwrite method returns a fresh array holding DenseShape, or IndexOutOfRange where it fails |
| LayerShapes.DenseScalesElementCount | MetalTensors/Layers/DenseLayer.cs:14-21 | a dense layer scales the element count by featureChannels / inputChannels |
| LayerShapes.RoundUp4Bounds | MetalTensors/Layers/ConcatLayer.cs:46 | each input's channels are rounded up to the next multiple of 4, adding fewer than 4 |
| LayerShapes.ConcatShape | MetalTensors/Layers/ConcatLayer.cs:39-54 | the first input's shape with its last dimension replaced by the sum of every input's channels rounded up to 4; fails if any input has rank 0 |
| LayerShapes.SumChannels | MetalTensors/Layers/ConcatLayer.cs:44-47 | the loop sums the rounded channels, or fails with IndexOutOfRange on a rank-0 input |
| LayerShapes.WithLast | MetalTensors/Layers/ConcatLayer.cs:43-52 | a fresh copy of the shape with only its last dimension replaced |
| LayerShapes.ConcatOutputShape | MetalTensors/Layers/ConcatLayer.cs:39-54 | the method's result is ConcatShape of the input shapes, in a fresh array |
| LayerShapes.ConcatCheckAccepts | MetalTensors/Layers/ConcatLayer.cs:26-36 | the check passes exactly when every further input has the first's rank and agrees on all but the last dimension; otherwise ArgumentException naming "inputs" |
| LayerShapes.ConcatValidationAccepts | MetalTensors/Layers/ConcatLayer.cs:17-37 | for a first input of rank other than 1, validation passes iff every other input is concatenable with it |
| LayerShapes.ValidateConcatInputs | MetalTensors/Layers/ConcatLayer.cs:17-37 | the nested loops return exactly ConcatValidation of the shapes |
| LayerShapes.ConcatExamples | MetalTensors/Layers/ConcatLayer.cs:17-54 | the test figures: [1] and [1] give [8]; 3 x 5 x 7 and 3 x 5 x 11 are accepted and give 3 x 5 x 20 |
| LayerShapes.NewUpsample | MetalTensors/Layers/UpsampleLayer.cs:14-23 | both scales must be at least 1; the first violated one is named in the ArgumentException |
| LayerShapes.UpsampleValidation | MetalTensors/Layers/UpsampleLayer.cs:30-37 | accepts exactly a first input of rank at least 3 |
| LayerShapes.UpsampleShape | MetalTensors/Layers/UpsampleLayer.cs:39-47 | succeeds exactly where validation does; the result is H x W x C with C kept |
| LayerShapes.UpsampleScalesElementCount | MetalTensors/Layers/UpsampleLayer.cs:39-47 | upsampling multiplies the element count by scaleX * scaleY |
| LayerShapes.UpsampleExample | MetalTensors/Layers/UpsampleLayer.cs:14-47 | 2 x 3 x 3 upsampled by 2 x 2 is 4 x 6 x 3 |
| LayerShapes.MeanShape | MetalTensors/Layers/MeanLayer.cs:8-18 | MeanLayer: the same rank, every dimension kept but the last, which becomes 1 |
| LayerShapes.SpatialMeanShape | MetalTensors/Layers/MeanLayer.cs:28-38 | SpatialMeanLayer: the same rank, every dimension 1 but the last, which is kept |
| LayerShapes.MeanOutputShape | MetalTensors/Layers/MeanLayer.cs:8-18 | the loop's fresh array holds MeanShape |
| LayerShapes.SpatialMeanOutputShape | MetalTensors/Layers/MeanLayer.cs:28-38 | the loop's fresh array holds SpatialMeanShape |
| LayerShapes.MeanShapesIdempotent | MetalTensors/Layers/MeanLayer.cs:8-38 | reducing an already-reduced shape again changes nothing, for both reductions |
| LayerShapes.MeanExample | MetalTensors/Layers/MeanLayer.cs:8-18 | 2 x 3 x 1 stays 2 x 3 x 1 |
| LayerShapes.LossValidation | MetalTensors/Layers/LossLayer.cs:23-34 | accepts exactly two inputs of equal shape; otherwise ArgumentException naming "inputs" |
| LayerShapes.LossShape | MetalTensors/Layers/LossLayer.cs:36-39 | the data input's shape, which equals the labels' shape once validated |
| LayerShapes.LossMismatchExample | MetalTensors/Layers/LossLayer.cs:29-33 | labels 1 x 1 x 1 against data 2 x 2 x 1 are refused |
| LayerShapes.NewPool | MetalTensors/Layers/PoolLayer.cs:16-31 | sizes and strides must all be at least 1; the stride errors name "sizeX" and "sizeY", as written |
| IosLayers.NewConvLayer | MetalTensors.iOS/Layers/ConvLayer.cs:20-31 | fails exactly for non-positive featureChannels, naming it; otherwise stores the arguments |
| IosLayers.NewSquareConvLayer | MetalTensors.iOS/Layers/ConvLayer.cs:33-36 | delegates with the same size and stride on both axes |
| IosLayers.NewConv2Layer | MetalTensors.iOS/Layers/Conv2Layer.cs:20-31 | the same check, with the arguments taken Y first |
| IosLayers.Conv2SwapsArguments | MetalTensors.iOS/Layers/Conv2Layer.cs:20-31 | Conv2Layer's full constructor is ConvLayer's with each axis pair swapped |
| IosLayers.SquareConstructorsAgree | MetalTensors.iOS/Layers/Conv2Layer.cs:33-36 | the two square constructors build the same layer |
| IosLayers.ConvLayerShape | MetalTensors.iOS/Layers/ConvLayer.cs:38-65 | the same rule and failures as the main tree's ConvLayer, through the layer's own ConvOutputLength copy (Conv2Layer.cs:38-65 is identical) |
| IosLayers.DefaultConvKeepsImageSize | MetalTensors.iOS/Layers/ConvLayer.cs:33-50 | with stride 1 and Same padding, height and width are kept |
| IosLayers.NewDefaultMaxPool | MetalTensors.iOS/Layers/MaxPoolLayer.cs:14-17 | the default pool is 2 x 2 with stride 2 |
| IosLayers.MaxPoolShape | MetalTensors.iOS/Layers/MaxPoolLayer.cs:19-32 | [height, width] through ConvOutputLength with Valid padding, then the input's last dimension |
| IosLayers.DefaultMaxPoolHalves | MetalTensors.iOS/Layers/MaxPoolLayer.cs:14-32 | the default pool halves an even-sized image and keeps its channels |
| IosLayers.MaxPoolExample | MetalTensors.iOS/Layers/MaxPoolLayer.cs:19-32 | 512 x 512 x 3 pools to 256 x 256 x 3 |
| IosLayers.NewIosUpsample | MetalTensors.iOS/Layers/UpsampleLayer.cs:14-22 | the same checks as the main tree's UpsampleLayer |
| IosLayers.IosUpsampleShape | MetalTensors.iOS/Layers/UpsampleLayer.cs:24-32 | there is no rank check, so a short shape fails with IndexOutOfRange at inShape[2] |
| IosLayers.UpsampleTreesAgree | MetalTensors.iOS/Layers/UpsampleLayer.cs:24-32 | both trees compute the same shape and fail on the same inputs |
| Graph.Counters.constructor | MetalTensors/Config.cs:19-28 | at start-up Configurable.Null has drawn id 1, and the layer counter (Layer.cs:17) stands at 1 |
| Graph.Counters.NextConfigurableId | MetalTensors/Config.cs:25-28 | Interlocked.Increment: the id drawn is one more than the last, and the layer counter is untouched |
| Graph.Counters.NextLayerId | MetalTensors/Layer.cs:35-39 | Interlocked.Increment: the id drawn is one more than the last, and the Configurable counter is untouched |
| Graph.DrawTwoLayerIds | MetalTensors/Layer.cs:35-39 | two layers built in a row get strictly increasing ids |
| Graph.DefaultedName | MetalTensors/Layer.cs:35-39 | the given name unless null or white space in the sense of char.IsWhiteSpace (the Latin-1 white space and every Unicode space, line and paragraph separator), else type name + id; the result is never blank (the same rule as TensorHandle.cs:17) |
| Graph.DefaultNamesDiffer | MetalTensors/Layer.cs:35-39 | default names of two objects of one type with different ids differ |
| Graph.RuleReadsFirstShape | MetalTensors/Tensors/LayerTensor.cs:10 | every layer rule but concatenation depends on the first input's shape only |
| Graph.FilterNode.constructor | MetalTensors/Layer.cs:127-135 | the node records the key it was created for |
| Graph.Layer.constructor | MetalTensors/Layer.cs:35-39 | draws exactly one layer id and names the layer by DefaultedName with it; starts trainable as given, with no losses and an empty node cache |
| Graph.Layer.AddLoss | MetalTensors/Layer.cs:33 | appends the loss at the end; nothing else changes |
| Graph.Layer.Losses | MetalTensors/Layer.cs:29-31 | a snapshot of the loss list, in insertion order |
| Graph.Layer.ExecuteAsync | MetalTensors/Layer.cs:62-65 | fails exactly when fewer inputs than MinInputCount are given, with ArgumentException "inputs" |
| Graph.Layer.GetFilterNode | MetalTensors/Layer.cs:112-125 | a cached key returns its node with the cache unchanged; a new key gets a fresh node, cached under it, nothing else changes |
| Graph.GetFilterNodeTwice | MetalTensors/Layer.cs:112-125 | asking twice with the same key returns the same node |
| Graph.LabelOrUnknown | MetalTensors/Layer.cs:116 | an input's handle label, or "Unknown" for an input without one |
| Graph.LabelsOrUnknown | MetalTensors/Layer.cs:116 | one label per input, in order |
| Graph.FilterNodeKey | MetalTensors/Layer.cs:116 | the key starts with the context's cache key and ends with ")" |
| Graph.Inputs | MetalTensors/Tensors/LayerTensor.cs:13-15 | a layer tensor's inputs are its LayerInputs, a model tensor's its model inputs, everything else has none (Tensor.cs:30) |
| Graph.ShapesOf | MetalTensors/Tensors/LayerTensor.cs:10 | one shape per tensor |
| Graph.ShapesOfElements | MetalTensors/Tensors/LayerTensor.cs:10 | the shapes are listed exactly when every tensor has one, each at its own position |
| Graph.LayerShapeIsRule | MetalTensors/Tensors/LayerTensor.cs:10 | a layer tensor's Shape is its layer's GetOutputShape of the input shapes |
| Graph.ConvTransposeCheckAgrees | MetalTensors/Layers/ConvTransposeLayer.cs:39-50 | the tensor-level check agrees with the shape-level validation |
| Graph.ConcatCheckAgrees | MetalTensors/Layers/ConcatLayer.cs:26-36 | the tensor-level loop agrees with the shape-level check |
| Graph.ValidationIsRuleValidation | MetalTensors/Tensors/LayerTensor.cs:17-23 | once every input has a shape, validating the tensors is the layer's validation of their shapes |
| Graph.NewLayerTensor | MetalTensors/Tensors/LayerTensor.cs:17-23 | draws one Configurable id, then validates; on success the tensor carries the layer's name, the layer and exactly the given inputs, otherwise the layer's error |
| Graph.LayerTensorProperties | MetalTensors/Tensors/LayerTensor.cs:10-15 | a layer tensor lists exactly its layer inputs and has the rule's shape |
| Graph.HandleLabel | MetalTensors/TensorHandle.cs:14-18 | a given label that is not null or all char.IsWhiteSpace (Unicode spaces and separators included) is kept; the handle label is never blank |
| Graph.UnlabelledHandlesDiffer | MetalTensors/TensorHandle.cs:14-18 | two unlabelled tensors of one type with different ids get different labels |
| Graph.InputHandleString | MetalTensors/TensorHandle.cs:47 | the label followed by " (Input)" |
| Graph.LabelsHandleString | MetalTensors/TensorHandle.cs:60 | the label followed by " (Labels for " + the output tensor's label + ")" |
| Graph.ReachOfInputs | MetalTensors/Tensor.cs:30 | the tensors reachable from t are t and those reachable from its inputs |
| Graph.ReachAllMembers | MetalTensors/Tensor.cs:30 | a tensor is reachable from a list exactly when it is reachable from one of its members |
| Graph.ClosedSetHoldsReach | MetalTensors/Tensor.cs:30 | a set closed under Inputs that holds t holds everything reachable from t |
| Graph.InputsReachable | MetalTensors/Tensor.cs:30 | what an input reaches, its consumer reaches |
| Tensors.ElementShape | MetalTensors/Tensors/Vector4Tensor.cs:15-28 | the shape every tensor of such a kind reports: the stored shape, or [4] for a Vector4 tensor |
| Tensors.ValidateCopyDestination | MetalTensors/Tensor.cs:103-110 | succeeds with the shape's element count exactly when the destination is long enough; otherwise ArgumentOutOfRange "destination" |
| Tensors.CopyResult | MetalTensors/Tensors/ArrayTensor.cs:29-34 | a successful copy keeps the destination's length |
| Tensors.CopyWritesElements | MetalTensors/Tensors/ArrayTensor.cs:29-34 | Copy succeeds exactly when the destination holds both the element count and the elements; it then starts with the elements and the rest is untouched; a short destination is ArgumentOutOfRange, data longer than the destination (array tensors only) is ArgumentException (ConstantTensor.cs:31-38, PlaceholderTensor.cs:22-28 and Vector4Tensor.cs:39-47 too) |
| Tensors.CopyIntoExactBuffer | MetalTensors/Tensor.cs:68-73 | a copy into a zeroed buffer of exactly Length floats succeeds and yields the elements padded with zeros |
| Tensors.Copy | MetalTensors/Tensor.cs:66 | the destination changes in place exactly as CopyResult says, and is left alone when the copy throws |
| Tensors.ArrayCopy | MetalTensors/Tensors/ArrayTensor.cs:29-34 | the size check, then the data over the destination's prefix, as CopyResult says |
| Tensors.FillCopy | MetalTensors/Tensors/ConstantTensor.cs:31-38 | a short destination is refused and untouched; otherwise the first element-count slots hold the constant and the rest are untouched (PlaceholderTensor.cs:22-28 with 0) |
| Tensors.Vector4CopyTo | MetalTensors/Tensors/Vector4Tensor.cs:39-47 | X, Y, Z, W into slots 0 to 3 after the size check, as CopyResult says |
| Tensors.Length | MetalTensors/Tensor.cs:28 | defined exactly when the shape is; 1 for the empty shape; at least 1 for positive dimensions |
| Tensors.Contents | MetalTensors/Tensor.cs:68-73 | the array ToArray returns holds exactly Length elements |
| Tensors.ContentsAreElements | MetalTensors/Tensor.cs:68-73 | ToArray succeeds exactly when the length is not negative and the elements fit, and then holds the elements padded with zeros |
| Tensors.ToArray | MetalTensors/Tensor.cs:68-73 | a fresh array holding Contents, or Contents' error |
| Tensors.Lookup | MetalTensors/Tensors/ArrayTensor.cs:48 | data[i], or IndexOutOfRange outside the data |
| Tensors.FlatOffset | MetalTensors/Tensors/ArrayTensor.cs:36-50 | the two loops compute exactly the row-major offset Offset (Tensor.cs:87-96 is the same loop), failing on a zero dimension |
| Tensors.ArrayTensorIndexer | MetalTensors/Tensors/ArrayTensor.cs:36-50 | the indexer reads data at the flat offset, as ArrayIndex says |
| Tensors.DefaultIndexer | MetalTensors/Tensor.cs:75-99 | the default indexer copies the tensor, then reads at the flat offset, as DefaultIndex says |
| Tensors.SingleIndexIsFlat | MetalTensors/Tensors/ArrayTensor.cs:36-50 | a single index is itself the flat offset |
| Tensors.RowMajorInRange | MetalTensors/Tensors/ArrayTensor.cs:36-50 | with positive dimensions, in-range indexes give an offset inside the element count |
| Tensors.ArrayIndexMatchesDefault | MetalTensors/Tensors/ArrayTensor.cs:36-50 | when the data has the shape's element count, the array indexer reads what the default indexer (Tensor.cs:75-99) reads |
| Tensors.ConstantIndexIsValue | MetalTensors/Tensor.cs:75-99 | every in-range element of a constant tensor is the constant |
| Tensors.PlaceholderIndexIsZero | MetalTensors/Tensor.cs:75-99 | every in-range element of a placeholder tensor is 0 |
| Tensors.Offset3 | MetalTensors/Tensors/ArrayTensor.cs:36-50 | the offset of (x, y, z) in an a x b x c tensor is (x * b + y) * c + z |
| Tensors.IndexingExample | MetalTensors/Tensors/ArrayTensor.cs:36-50 | the one-hot 2 x 2 x 3 array of the tests reads 1 at channel 0 of each pixel |
| Tensors.IosIndexAgrees | MetalTensors.iOS/Tensors/ArrayTensor.cs:25-32 | the iOS indexer (first index only) reads what the main tree's does for the data's one-dimensional shape, except for an empty array asked with an index |
| Tensors.ItemIsFirstElement | MetalTensors.iOS/Tensor.cs:9-15 | Item succeeds exactly when at most one element is copied, and is that element, or 0 for none |
| Tensors.IosItem | MetalTensors.iOS/Tensor.cs:9-15 | the method's result is Item |
| Tensors.ValidateShape | MetalTensors.iOS/Tensor.cs:19-25 | succeeds exactly when every dimension is positive; otherwise ArgumentOutOfRange "shape" |
| Tensors.IosGetShapeLength | MetalTensors.iOS/Tensor.cs:27-34 | the product of the dimensions, at least 1 when all are positive |
| TensorFactories.NewArrayTensor | MetalTensors/Tensors/ArrayTensor.cs:23-27 | an array tensor of shape [data length] holding the data, under a freshly drawn id |
| TensorFactories.NewShapedArrayTensor | MetalTensors/Tensors/ArrayTensor.cs:17-21 | an array tensor holding shape and data exactly as given, unchecked |
| TensorFactories.NewConstantTensor | MetalTensors/Tensors/ConstantTensor.cs:19-29 | a constant tensor with the name and value verbatim and the shape normalised |
| TensorFactories.NewPlaceholderTensor | MetalTensors/Tensors/PlaceholderTensor.cs:16-20 | an input or labels tensor with the given label and the normalised shape |
| TensorFactories.NewVector4Tensor | MetalTensors/Tensors/Vector4Tensor.cs:23-28 | a Vector4 tensor holding the value under the given name |
| TensorFactories.Ones | MetalTensors/Tensor.cs:232-235 | a constant 1 of the normalised shape |
| TensorFactories.Zeros | MetalTensors/Tensor.cs:277-280 | a constant 0 of the normalised shape |
| TensorFactories.InputImage | MetalTensors/Tensor.cs:227-230 | an input tensor named as given, of the normalised shape [height, width, featureChannels] |
| TensorFactories.NewIosConstantTensor | MetalTensors.iOS/Tensors/ConstantTensor.cs:19-24 | succeeds exactly when every dimension is positive, storing the shape verbatim; otherwise ArgumentOutOfRange "shape" |
| TensorFactories.NewIosInputTensor | MetalTensors.iOS/Tensors/InputTensor.cs:7-10 | an input tensor holding label and shape verbatim |
| TensorFactories.ArrayTensorRoundTrip | MetalTensors/Tensors/ArrayTensor.cs:23-27 | an array tensor built from data gives the data back from ToArray, and both trees' indexers read data[i] at [i] |
| TensorFactories.ConstantTensorShape | MetalTensors/Tensors/ConstantTensor.cs:19-24 | a constant's shape has rank at least 1 and only positive dimensions, keeps an already valid shape, and every element is the constant |
| TensorFactories.PlaceholderTensorShape | MetalTensors/Tensors/PlaceholderTensor.cs:16-28 | a placeholder's shape has only positive dimensions, keeps an already valid shape, and it reads as zeros |
| TensorFactories.Vector4TensorReads | MetalTensors/Tensors/Vector4Tensor.cs:23-47 | a Vector4 tensor holds X, Y, Z, W and reads them at [0] to [3] |
| TensorFactories.ConstantExamples | Tests.iOS/ConstantTensorTests.cs:11-35 | Ones() has shape [1] and reads 1; Zeros(1) has shape [1] and reads 0; Zeros(3) has shape [3] and reads 0 at [0] |
| TensorFactories.PlaceholderExamples | Tests.iOS/PlaceholderTensorTests.cs:11-41 | Input("foo") has shape [1]; Input("foo", 1) reads 0; InputImage("foo", 7, 5) has shape [7, 5, 3] and reads 0 at [0] |
| TensorFactories.ZeroTensorItem | Tests.iOS/ZeroTensorTests.cs:11-17 | a zero tensor of shape [1] has Item 0 |
| TensorFactories.OneHot | MetalTensors/Tensor.cs:237-242 | a negative count is an overflow, an index outside [0, count) is IndexOutOfRange, otherwise an array tensor of shape [count] holding the one-hot vector; an id is drawn only on success |
| TensorFactories.OneHotReads | MetalTensors/Tensor.cs:237-242 | the one-hot vector reads 1 at the index and 0 everywhere else |
| TensorFactories.OneHotImage | MetalTensors/Tensor.cs:244-264 | a negative size is an overflow; with a pixel and an index outside the channels the loop's write is IndexOutOfRange; otherwise an array tensor of shape [height, width, count] holding OneHotImageData, and the "Bad one hot" check never throws |
| TensorFactories.OneHotImageReads | MetalTensors/Tensor.cs:244-264 | the one-hot image reads 1 at channel index of every pixel and 0 at every other channel |
| TensorFactories.OneHotImageExample | Tests.Mac/IndexingTests.cs:22-31 | OneHot(0, 2, 2, 3) holds 1 at channel 0 of each of the four pixels and 0 elsewhere |
| TensorFactories.Add | MetalTensors/Tensor.cs:287-297 | a new layer tensor under fresh ids: a LinearLayer with offset c over a for a constant c, an AddLayer over a and b otherwise |
| TensorFactories.Sum | MetalTensors/Tensor.cs:266-275 | no tensor is ArgumentException "tensors"; one tensor is returned itself; more are the left fold of Add, drawing one layer per addition |
| TensorFactories.SumHasFirstShape | MetalTensors/Tensor.cs:266-275 | a sum has the shape of its first summand |
| TensorFactories.SumReachesSummands | MetalTensors/Tensor.cs:266-275 | every summand except a constant added after the first is reachable from the sum |
| TensorFactories.Concat | MetalTensors/Tensor.cs:335-340 | with no others the tensor itself and no new ids; otherwise a ConcatLayer over this tensor then the others, which fails exactly when the concat rule's validation does |
| Mapping.Map | MetalTensors/TensorExtensions.cs:8-24 | an empty array maps to an empty array; otherwise a fresh array in which each element is replaced by its image in the dictionary or else by its MapInputs (MetalTensors.iOS/TensorExtensions.cs:8-24 is the same text); no layer id is drawn, which holds for graphs without model tensors (see Left out) |
| Mapping.MapSeq | MetalTensors/Tensors/LayerTensor.cs:37-40 | LayerInputs.Map(map): each input mapped as Map maps it; an empty list stays empty |
| Mapping.MapInputs | MetalTensors/Tensor.cs:419-422 | a layer tensor is rebuilt over the same layer with its inputs mapped (LayerTensor.cs:37-40), a model tensor keeps its base model, output index, stored shape and label and takes the mapped model inputs (the rebuilt base model of ModelTensor.cs:38 is listed under Left out), any other tensor is itself; no layer id is drawn |
| Mapping.MappedShape | MetalTensors/Model.cs:190-198 | replacing tensors by tensors of the same shape gives a mapped tensor of the original's shape |
| Mapping.InputsMappedShape | MetalTensors/Tensors/LayerTensor.cs:37-40 | a tensor whose inputs were mapped shape-preservingly keeps its shape |
| Mapping.AllMappedShapes | MetalTensors/TensorExtensions.cs:8-24 | a shape-preserving dictionary map keeps the shapes of a whole list |
| Mapping.MapWith | MetalTensors/TensorExtensions.cs:26-40 | each element becomes element.Map(f); the same array comes back exactly when every element came back as itself, a fresh array of the results otherwise; an empty array maps to an empty one |
| Mapping.MapTensor | MetalTensors/Tensor.cs:414-417 | the result is f applied to what MapInputs(f) rebuilt |
| Mapping.MapInputsWith | MetalTensors/Tensors/LayerTensor.cs:42-45 | a layer tensor is rebuilt over its inputs mapped with f; every other tensor is itself (Tensor.cs:424-427) |
| Mapping.MappedWithShape | MetalTensors/Tensor.cs:414-417 | a shape-preserving f keeps the shape of the tensor it maps and of every rebuilt tensor |
| Mapping.SameShapes | MetalTensors/TensorExtensions.cs:26-40 | two lists whose tensors agree pairwise in shape have the same shape list |
| Metal.ElementByteSize | MetalTensors.iOS/MetalExtensions.cs:128-134 | 1 for Unorm8, 4 for Float32, NotSupported for every other type |
| Metal.DescriptorByteSize | MetalTensors.iOS/MetalExtensions.cs:125-126 | the length times the element size, failing exactly when the element size does |
| Metal.ValidateNoError | MetalTensors.iOS/MetalExtensions.cs:39-44 | throws exactly when there is an error, carrying its text |
| Metal.DeviceVector.Fill | MetalTensors/MPSVectorExtensions.cs:74-88 | every element becomes the constant; the length is kept |
| Metal.DeviceVector.Zero | MetalTensors/MPSVectorExtensions.cs:69-72 | every element becomes 0; the length is kept |
| Metal.NewVector | MetalTensors.iOS/MetalExtensions.cs:82-99 | a length of 0 or less is ArgumentOutOfRange "descriptor", an unsized element type is NotSupported; otherwise a fresh vector of the length, holding the initial value in every element for Float32 |
| Parameters.OptimizableVector.constructor | MetalTensors/Weights.cs:101-110 | holds the three distinct vectors it is given and is not disposed |
| Parameters.NewOptimizableVector | MetalTensors/Weights.cs:101-110 | succeeds exactly when the element type has a size and the length is positive; an unsized type is NotSupported, a length of 0 or less ArgumentOutOfRange "descriptor" (MPSVectorExtensions.cs:19-22); otherwise three fresh vectors of the length, momentum and velocity at 0, none disposed |
| Parameters.OptimizableVector.Dispose | MetalTensors/Weights.cs:112-120 | the first call disposes each of the three vectors once; later calls change nothing; contents are untouched |
| Parameters.OptimizableVector.Zero | MetalTensors/Weights.cs:153-158 | value, momentum and velocity all become 0 at their lengths |
| Parameters.DisposeTwice | MetalTensors/Weights.cs:112-120 | disposing twice disposes each vector exactly once |
| Parameters.Weights.constructor | MetalTensors/Weights.cs:19-26 | no stored values, no registered vectors, no data source |
| Parameters.Weights.AddParameter | MetalTensors/Weights.cs:28-38 | a stored name initialises the vector from its stored values and changes nothing else; a new name fills the vector with the initial value, stores a copy of its contents and registers it |
| Parameters.Weights.AddOptimizableParameter | MetalTensors/Weights.cs:40-51 | the same registration for the value vector of an OptimizableVector |
| Parameters.Weights.WriteBuffers | MetalTensors/Weights.cs:72-81 | nothing at all when no vector is registered; otherwise one download when a data source is set and none without one, then one writer call per registered name, each name once, with the vector's current contents |
| Parameters.Weights.SetDataSource | MetalTensors/Weights.cs:22 | the DataSource property is set or cleared; values, vectors and downloads are unchanged |
| Parameters.Snapshot | MetalTensors/Weights.cs:74 | the registered names, each exactly once |
| Parameters.CollectWrites | MetalTensors/Weights.cs:78-80 | one writer call per registered name, each once, carrying that vector's contents |
| Parameters.AddParameterTwice | MetalTensors/Weights.cs:28-38 | adding a name twice keeps the first registration, and the second vector receives the first one's values |
| Images.ImageSizeOf | MetalTensors/MPSImageExtensions.cs:149-157 | rank 0 is 1x1x1, rank 1 is 1x1xc, rank 2 is 1xwxc, rank 3 is hxwxc; a higher rank is InvalidOperation naming the rank |
| Images.ImageSizeKeepsLength | MetalTensors/MPSImageExtensions.cs:149-157 | an image made for a shape of rank at most 3 holds exactly the shape's element count |
| Images.FillSpan | MetalTensors/MPSImageExtensions.cs:25-31 | a span of the length holding the constant in every slot |
| Images.Image.Fill | MetalTensors/MPSImageExtensions.cs:16-40 | R32Float, RG32Float and RGBA32Float images receive height·width·channels copies of the constant; any other format is NotSupported and untouched |
| Images.Image.IosFill | MetalTensors.iOS/MetalExtensions.cs:55-77 | only an R32Float image is filled, with height·width·channels copies; any other format is NotSupported and untouched |
| Images.CreateConstantImage | MetalTensors/MPSImageExtensions.cs:162-171 | succeeds exactly for a shape of rank at most 3 with no negative dimension; a higher rank fails as ImageSizeOf does, a negative dimension (cast to nuint, too large to allocate) is Overflow; otherwise a fresh image of those dimensions holding the shape's element count of copies of the constant |
| Images.CGImageLayout | MetalTensors/MPSImageExtensions.cs:65-129 | a private texture is InvalidOperation, an unknown format NotSupported; each of the four formats gets its component size, count, alpha placement and byte order; gray exactly for one component; row stride width·bits·components/8 |
| Images.Layout | MetalTensors/MPSImageExtensions.cs:127-128 | the row stride times 8 is width·bits·components, gray exactly for one component |
| Images.BytesPerRowPerPixel | MetalTensors/MPSImageExtensions.cs:127 | the row stride is the width times 4 bytes (one float or four bytes) or 16 bytes (four floats) |
| DeviceCaches.ConvDataSource.constructor | MetalTensors/Layers/ConvWeights.cs:103-147 | stores the settings, label and vectors it is given; the optimizer sees the weights' momentum and velocity, then the bias vector's |
| DeviceCaches.ConvDataSourceError | MetalTensors/Layers/ConvWeights.cs:103-125 | no error exactly when both channel counts and the weight count in·kx·ky·out are positive; a channel count of 0 or less is ArgumentOutOfRange "inChannels", a weight count of 0 or less ArgumentOutOfRange "descriptor" |
| DeviceCaches.ZeroKernelFails | MetalTensors/Layers/ConvWeights.cs:122-125 | with positive channels and non-negative kernel sizes, construction fails exactly when a kernel size is 0, with ArgumentOutOfRange "descriptor" |
| DeviceCaches.NewConvDataSource | MetalTensors/Layers/ConvWeights.cs:103-147 | fails exactly as ConvDataSourceError says; otherwise a blank label becomes the GUID's text, the weight vector is fresh and holds in·kx·ky·out values, a bias vector exists exactly when bias is set and holds outChannels copies of biasInit, and the optimizer sees the weights' momentum and velocity, then the bias vector's |
| DeviceCaches.ConvWeights.constructor | MetalTensors/Layers/ConvWeights.cs:37-46 | every setting stored as given, with no data source yet |
| DeviceCaches.ConvWeights.GetDataSource | MetalTensors/Layers/ConvWeights.cs:53-64 | the data source remembered for the device, or a new one built from the weights' settings and remembered; building fails exactly as ConvDataSourceError says and then remembers nothing; other devices' entries are untouched |
| DeviceCaches.NewConvWeights | MetalTensors/Layers/ConvWeights.cs:30-51 | succeeds exactly when both channel counts are positive; either failure is ArgumentOutOfRange naming "inChannels", as written |
| DeviceCaches.GetDataSourceTwice | MetalTensors/Layers/ConvWeights.cs:53-64 | asking twice for one device gives the same outcome: the same data source, or the same failure |
| DeviceCaches.ConvWeightsLayer.constructor | MetalTensors/Layers/ConvWeightsLayer.cs:25-29 | the layer holds the weights and the padding |
| DeviceCaches.ConvWeightsLayer.GetMetalConvDataSource | MetalTensors/Layers/ConvWeightsLayer.cs:36-39 | the weights' per-device data source, reused once made; a new one fails exactly as ConvDataSourceError says for the layer's channel counts and kernel sizes |
| DeviceCaches.NewConvWeightsLayer | MetalTensors/Layers/ConvWeightsLayer.cs:12-29 | fails exactly as the weights do; otherwise every accessor reads back the setting given |
| DeviceCaches.BatchNormDataSource.constructor | MetalTensors/Layers/BatchNormWeights.cs:87-94 | the data source carries the weights' label and channel count |
| DeviceCaches.BatchNormWeights.constructor | MetalTensors/Layers/BatchNormWeights.cs:31-36 | label, channels and the four tensors stored, with no data source yet |
| DeviceCaches.BatchNormWeights.GetDataSource | MetalTensors/Layers/BatchNormWeights.cs:39-50 | the data source remembered for the device, or a new one for these weights, remembered |
| DeviceCaches.NewBatchNormWeights | MetalTensors/Layers/BatchNormWeights.cs:26-37 | succeeds exactly when channels is positive (else ArgumentOutOfRange "channels"); beta and moving mean are zeros, gamma and moving variance ones, all of shape [channels], under four fresh ids |
| DeviceCaches.IosConvWeights.constructor | MetalTensors.iOS/Layers/ConvWeightsLayer.cs:60 | every setting stored as given |
| DeviceCaches.IosConvWeightsLayer.constructor | MetalTensors.iOS/Layers/ConvWeightsLayer.cs:25-31 | every setting stored, with no weights yet |
| DeviceCaches.IosConvWeightsLayer.GetMetalConvDataSource | MetalTensors.iOS/Layers/ConvWeightsLayer.cs:41-47 | the weights made for the device, or none when GetWeights has not run for it |
| DeviceCaches.IosConvWeightsLayer.GetWeights | MetalTensors.iOS/Layers/ConvWeightsLayer.cs:54-65 | the weights remembered for the device, or new weights from the input channels and the layer's settings, remembered |
| DeviceCaches.NewIosConvWeightsLayer | MetalTensors.iOS/Layers/ConvWeightsLayer.cs:20-32 | succeeds exactly when featureChannels is positive, else ArgumentOutOfRange "featureChannels" |
| DeviceCaches.DataSourceAfterGetWeights | MetalTensors.iOS/Layers/ConvWeightsLayer.cs:41-65 | before GetWeights a device has no data source; afterwards it has exactly the weights GetWeights returned |
| DeviceCaches.IosPlaceholder.constructor | MetalTensors.iOS/Tensors/PlaceholderTensor.cs:16-20 | the shape stored as given, with no image yet |
| DeviceCaches.IosPlaceholder.GetMetalImage | MetalTensors.iOS/Tensors/PlaceholderTensor.cs:30-39 | the image remembered for the device, or a new zero image holding the shape's element count, remembered; for a device without one it succeeds exactly for a shape of rank at most 3 with no negative dimension, fails as CreateConstantImage does otherwise, and remembers nothing on failure |
| Configs.Lookup | MetalTensors/Config.cs:97 | a value is found exactly when the key is among the entries' keys |
| Configs.PutLookup | MetalTensors/Config.cs:125-129 | after storing a value under a key, that key reads the value and every other key reads what it read before |
| Configs.PutKeys | MetalTensors/Config.cs:125-129 | storing under a present key keeps the key order; a new key is appended at the end |
| Configs.PutMeaning | MetalTensors/Config.cs:125-129 | storing keeps the keys unique, and the key reads the new value while all others are unchanged |
| Configs.PutAllUnique | MetalTensors/Config.cs:131-137 | merging another configuration keeps the keys unique |
| Configs.PutAllLookup | MetalTensors/Config.cs:131-137 | after a merge, a key of the other configuration reads the other's value and every other key reads what it read before |
| Configs.Config.constructor | MetalTensors/Config.cs:99-101 | a configuration starts with no entries |
| Configs.Config.Get | MetalTensors/Config.cs:97 | the indexer finds a value exactly for a stored key |
| Configs.Config.Add | MetalTensors/Config.cs:125-129 | returns this configuration; the parameter now reads the argument and no other parameter changes |
| Configs.Config.Update | MetalTensors/Config.cs:131-137 | returns this configuration; every key of the other reads the other's value, every other key is unchanged |
| Configs.IdOf | MetalTensors/Config.cs:80-83 | a configuration without an "id" has Id 0 |
| Configs.TypeName | MetalTensors/Config.cs:90-93 | a configuration without a "type" (or with null) has the empty ObjectType; a string type is itself, an integer its decimal text, an opaque value its display text |
| Configs.EntriesWrittenOnce | MetalTensors/Config.cs:244-254 | id and type are never written again; every other entry goes either into an attribute or into the remaining list, so the three parts together account for every entry exactly once |
| Configs.WriteConfig | MetalTensors/Config.cs:240-261 | a start element named by the type with the id attribute, then one attribute per attribute-valued entry, then one child element per remaining entry, in order, then the end element; the references only grow; the log and outcome are exactly ConfigXml's, so a failing child ends the write with its error |
| Configs.WriteAttributes | MetalTensors/Config.cs:244-254 | writes exactly the attribute events of the entries and returns the entries left for elements |
| Configs.WriteChildren | MetalTensors/Config.cs:255-259 | one element per remaining entry, named by its key, in order; the log and outcome are exactly ChildrenXml's, each child written with the references the ones before it left |
| Configs.WriteValueElement | MetalTensors/Config.cs:197-225 | null, strings and numbers become one element, an int array an Array element of Int32 items, a configurable already written a refid element; a value of no supported kind is NotSupported and nothing is written; in every case the log and outcome are exactly ValueXml's, including nested settings and object arrays |
| Configs.WriteIntArray | MetalTensors/Config.cs:215-221 | an Array element holding one Int32 element per integer, in order |
| Configs.WriteItems | MetalTensors/Config.cs:215-221 | the items are written in order inside the Array element; the references only grow; the log and outcome are exactly ItemsXml's, each item's element following the one before it |
| Configs.WriteConfigurable | MetalTensors/Config.cs:227-238 | a configurable already written becomes a refid element; a new one is recorded and written in full, starting with its type element and id attribute; the log and outcome are exactly ConfigurableXml's, that is ConfigXml of its settings with it added to the references |
| Configs.WriteSharedTwice | MetalTensors/Config.cs:227-238 | writing the same configurable twice writes it in full once and then only a refid element: the log grows by exactly ConfigXml of its settings followed by the refid element, or the write fails with ConfigXml's error |
| Configs.ReadValueString | MetalTensors/Config.cs:335-368 | a string is itself, an int or int array is parsed (FormatException on bad text), a configurable, array or other type is NotSupported |
| Configs.BmpStringInAttribute | MetalTensors/Config.cs:168-172 | a string within the Basic Multilingual Plane goes in an attribute exactly when it is shorter than 256 characters and holds no CR, LF or tab |
| Configs.AstralStringInAttribute | MetalTensors/Config.cs:168-172 | a string of characters above U+FFFF counts two UTF-16 units per character in `Length`, so it goes in an attribute exactly when it has fewer than 128 characters |
| Configs.AttributeRoundTrip | MetalTensors/Config.cs:183-195 | a string, integer or int array written into an attribute reads back as the same value |
| Configs.Owner | MetalTensors/Config.cs:420-422 | the index the parameter map holds for a name is the last parameter of that name, and there is none exactly when no parameter has it |
| Configs.MissingNamesComplete | MetalTensors/Config.cs:453-455 | every parameter without an argument is named in the message |
| Configs.MissingNamesSound | MetalTensors/Config.cs:453-455 | every name in the message is that of a parameter without an argument |
| Configs.MissingNamesMeaning | MetalTensors/Config.cs:453-455 | the missing list is empty exactly when every parameter has an argument, and names exactly the parameters without one |
| Configs.CountTrueAll | MetalTensors/Config.cs:453 | numArgs equals the parameter count exactly when every flag is set |
| Configs.CountTrueSet | MetalTensors/Config.cs:441-442 | setting one unset flag raises numArgs by one |
| Configs.GatheredAttribute | MetalTensors/Config.cs:439-442 | taking an attribute for an unfilled parameter it names keeps the gathered state: that parameter now holds the attribute's parsed value |
| Configs.GatheredAttributeSkipped | MetalTensors/Config.cs:436-439 | an id, refid, unknown or already filled attribute leaves the gathered state as it is |
| Configs.GatheredChild | MetalTensors/Config.cs:447-450 | taking a child element for an unfilled parameter it names keeps the gathered state |
| Configs.GatheredChildSkipped | MetalTensors/Config.cs:446-447 | a child for an unknown or already filled parameter leaves the gathered state as it is |
| Configs.ReadAttributes | MetalTensors/Config.cs:435-444 | the attribute loop fills, for each parameter, the first attribute that names it (id and refid skipped), counts the filled slots, and stops at the first value that does not parse |
| Configs.ConfigReader.constructor | MetalTensors/Config.cs:370-401 | the readers by type name are given; no reference is known yet |
| Configs.ConfigReader.ReadConfigurable | MetalTensors/Config.cs:293-314 | a refid returns the object defined earlier, fails to parse with FormatException, or is unknown with "Missing definition of T with refid=N"; without refid a missing id is a null reference; an unknown type fails; a read object is recorded under its id and has the element's type |
| Configs.ConfigReader.Read | MetalTensors/Config.cs:430-459 | reading succeeds exactly when every parameter is supplied by an attribute or a child element, and otherwise fails with "T config is missing parameters: " and the missing names; each argument taken from an attribute is that attribute's parsed value, and each taken from a child element is what that child's first element reads as (ReadsAs) |
| Configs.ConfigReader.Conclude | MetalTensors/Config.cs:453-458 | with everything gathered: success exactly when every parameter is supplied, else the missing-parameters message naming exactly the unsupplied ones |
| Configs.ConfigReader.ReadChildren | MetalTensors/Config.cs:445-452 | the child loop extends the gathered state over all children and keeps numArgs the number of filled slots |
| Configs.ConfigReader.ReadChild | MetalTensors/Config.cs:446-451 | one child: a child naming an unfilled parameter with no element is InvalidOperation "Sequence contains no elements"; on success that parameter alone is filled with what the first element reads as, and the count grows by one; any other child changes nothing and keeps the count |
| Configs.ConfigReader.ReadValueElement | MetalTensors/Config.cs:316-331 | a configurable type reads as ReadConfigurable does (a refid resolves to the recorded object, a missing one fails naming it, an element without refid or id is NullReference, otherwise the object recorded under its id, of the element's own type); an array type reads one item per child element, each read with the element type; every other type is NotSupported, so an int array reads only when it is empty |
| Models.MacWalk | MetalTensors/Model.cs:76-119 | the constructor's walk handles exactly the tensors reachable from the outputs, each once, starting with the first output, and its lists are exactly the reachable sources, layers and submodels, each once |
| Models.MacRound | MetalTensors/Model.cs:82-110 | one round handles every not yet handled tensor of the round and queues its inputs, keeping the walk invariant and the lists in step with the handled tensors |
| Models.MacHandle | MetalTensors/Model.cs:89-107 | handling a tensor extends each list exactly as the list of picks of the handled tensors extends |
| Models.WalkListsMeaning | MetalTensors/Model.cs:76-119 | over all reachable tensors the three lists hold exactly the reachable sources, layers and base models, without repetition |
| Models.SourcesMeaning | MetalTensors/Model.cs:89-96 | the sources are exactly the reachable tensors without inputs, each once |
| Models.LayersMeaning | MetalTensors/Model.cs:98-107 | the layers are exactly those of reachable layer tensors and the base models of reachable model tensors, each once |
| Models.SubmodelsMeaning | MetalTensors/Model.cs:102-107 | the submodels are exactly the base models of reachable model tensors, each once |
| Models.WalkStartsAtFirstOutput | MetalTensors/Model.cs:81-87 | the first tensor handled is the first output |
| Models.SumParametersBoundsAll | MetalTensors/Model.cs:47 | with no negative counts, the model's parameter count is at least every layer's and not negative |
| Models.Model.constructor | MetalTensors/Model.cs:60-120 | the Layer part is named by the name given or after the first output, answers the first output's shape and asks for as many inputs as the model has; losses, inputs and outputs are stored; the walk's lists are as MacWalk says |
| Models.NewModel | MetalTensors/Model.cs:60-64 | an empty output list is ArgumentException "outputs" (after the layer id is drawn); otherwise the constructed model |
| Models.Model.AddLoss | MetalTensors/Model.cs:45 | appends to the model's own loss list |
| Models.Model.ParameterCount | MetalTensors/Model.cs:47 | with no negative counts, at least every layer's count and not negative |
| Models.Model.PredictGuard | MetalTensors/Model.cs:310-315 | passes exactly for one input and one output; otherwise the two InvalidOperation messages, the input count checked first |
| Models.Model.Call | MetalTensors/Model.cs:231-239 | a model tensor over this model's first output and the given inputs, with the first output's shape |
| Models.Model.MapInputs | MetalTensors/Model.cs:190-198 | a new model named "name Mapped", keeping IsTrainable, whose inputs and outputs are each original's MapInputs |
| Models.Model.MapInputsWith | MetalTensors/Model.cs:200-208 | every input and every output is replaced, position by position, by the tensor a run of MapInputs(f) on it rebuilt (Mapping.MappedWith: each layer tensor over the same layer and label with its inputs mapped through f); inputs that are not layer tensors stay as they were; the new model is named "<name> Mapped", keeps isTrainable and has no losses |
| Models.Model.RebuildModelWithInputs | MetalTensors/Model.cs:210-221 | a count other than the input count is ArgumentOutOfRange; otherwise the model remapped through MapInputs with old input i mapped to new input i |
| Models.Model.RebuildModelWithInputsCorrected | MetalTensors/Model.cs:210-221 | the same check; with distinct inputs the new model's inputs are exactly the given ones and its outputs are the dictionary Map of the old ones |
| Models.InputMapLookup | MetalTensors/Model.cs:215-218 | with distinct old inputs, each maps to the new input at its position |
| Models.BuildInputMap | MetalTensors/Model.cs:215-218 | the loop builds that dictionary |
| Models.RebuildKeepsPlaceholderInputs | MetalTensors/Model.cs:190-198 | as written, placeholder inputs come back unchanged whatever the dictionary says |
| Models.RebuildIgnoresNewInput | MetalTensors/Model.cs:210-221 | rebuilding a one-input model on a new input z keeps the old input x |
| Models.Model.Summary | MetalTensors/Model.cs:130-185 | one row per tensor written, each id once, every input written before the tensor that uses it, every output written; succeeds exactly when every written tensor has a shape, and otherwise fails with the shape error of the first tensor in write order whose shape fails (Model.cs:153, LayerTensor.cs:10); the totals are the sum of the rows' counts, the trainable sum, and their difference |
| Models.FirstShapeFailure | MetalTensors/Model.cs:153 | none exactly when every row's shape succeeded; otherwise the first row whose shape failed |
| Models.WriteOutputs | MetalTensors/Model.cs:178-180 | WTensor over the outputs in turn gives rows with distinct ids covering every output |
| Models.WriteTensor | MetalTensors/Model.cs:145-174 | WTensor writes nothing for a written id; otherwise its inputs first and its own row last, adding its parameters to the totals |
| Models.WriteNew | MetalTensors/Model.cs:149-173 | for a tensor not yet written, its row comes last, after rows covering all its inputs |
| Models.WriteMore | MetalTensors/Model.cs:151-152 | one turn of the input loop keeps the rows, ids and totals consistent |
| Models.RemoveLayerWord | MetalTensors/Model.cs:157 | removing "Layer" never lengthens the type name |
| Models.TrainableAtMostTotal | MetalTensors/Model.cs:182-184 | with no negative counts the trainable total is between 0 and the total |
| Models.LabelLossesEmpty | MetalTensors/CompiledModel.cs:56-67 | there are no label losses exactly when no output has a loss |
| Models.AddedLossesDiffer | MetalTensors/CompiledModel.cs:68-70 | as written the added losses end with the Layer loss list of the model; the corrected collection ends with the model's own losses |
| Models.ModelLossIgnored | MetalTensors/CompiledModel.cs:68-73 | a model whose only loss was given to it directly has no added losses as written, and one when corrected |
| Models.Compile | MetalTensors/CompiledModel.cs:34-86 | the two count checks as ArgumentException; the compiled model stores the model and its settings; for training, a labels tensor and a loss per output with a loss, then the added losses as written, and no loss at all is "Model has no losses"; without training it always compiles, with no losses |
| Models.CompileCorrected | MetalTensors/CompiledModel.cs:34-86 | the same count checks, stored model, settings and labels pairing as Compile, and no losses without training; for training the losses are the label losses followed by the model's own losses, never empty, so a model with losses of its own compiles for training, and with no output losses it compiles exactly when it has added losses |
| Models.BuildCompiled | MetalTensors/CompiledModel.cs:34-86 | the constructor's body for a given list of added losses: fails for training exactly when no output has a loss and nothing is added |
| Models.MakeLabelLosses | MetalTensors/CompiledModel.cs:56-67 | each output with a loss is paired with a labels tensor made for it, and the result is the losses in output order; none when no output has a loss |
| Models.MakeLabelLoss | MetalTensors/CompiledModel.cs:58-64 | one output's labels tensor and, if it has a loss, that loss |
| Models.NewLabelsTensor | MetalTensors/CompiledModel.cs:62 | a labels placeholder with the label and the normalized shape under a fresh id |
| Models.MapEachInputs | MetalTensors/Model.cs:192-193 | each tensor of the list is replaced by its MapInputs through the dictionary, position by position |
| Models.MapEachWith | MetalTensors/Model.cs:202-203 | each tensor is replaced, position by position, by the tensor a run of MapInputs(f) on it rebuilt, as Mapping.MappedWith records it; tensors that are not layer tensors stay as they were |
| Walk.DedupMembers | MetalTensors.iOS/Model.cs:51-52 | adding an entry only when the list lacks it keeps exactly the entries met, without repetition |
| Walk.CollectExactly | MetalTensors.iOS/Model.cs:50-66 | when the handled tensors' picks are exactly a set, the collected list holds exactly that set, once each |
| Walk.ReachTransitive | MetalTensors.iOS/Model.cs:46-48 | every tensor reachable from a reachable tensor is reachable |
| Walk.RootsReachable | MetalTensors.iOS/Model.cs:38 | every output is among the tensors the walk must reach |
| Walk.WalkDone | MetalTensors.iOS/Model.cs:39-70 | when no tensor is left queued, the handled tensors are exactly those reachable from the outputs |
| IosModels.IosWalk | MetalTensors.iOS/Model.cs:32-79 | the tensors are exactly those reachable from the outputs, each once, starting with the distinct outputs in order; sources, inputs, labels and layers are the distinct picks of the tensors in the order they were handled |
| IosModels.IosRound | MetalTensors.iOS/Model.cs:40-69 | one round handles every not yet handled tensor of the round and queues its inputs, keeping the walk invariant and the lists in step |
| IosModels.IosHandle | MetalTensors.iOS/Model.cs:46-66 | handling a tensor extends each of the four lists exactly as the picks of the handled tensors extend |
| IosModels.IosModel.constructor | MetalTensors.iOS/Model.cs:19-80 | keeps the outputs; the training tensor is the single output or the sum of the outputs; the lists are the walk's |
| IosModels.NewIosModel | MetalTensors.iOS/Model.cs:21-22 | an empty output list is ArgumentException "outputs"; otherwise the constructed model |
| IosModels.IdentityModel | MetalTensors.iOS/Model.cs:39-79 | a model whose only output is an input placeholder has that tensor as its only tensor, one input, one source, no labels and no layers |
| IosModels.TwoInputModel | MetalTensors.iOS/Model.cs:39-79 | a layer over two distinct input placeholders gives three tensors, two inputs, two sources, one layer and no labels |

## Left out

- GPU execution: no kernel, command buffer, graph run, `Fit`, `Predict`'s evaluation or training step is modelled. Only the guards before them are modelled.
- Model loading and saving and other file and stream I/O are left out. `Weights.ReadBuffers` only throws NotImplementedException and is left out too.
- Floating point: floats are `real` values that are only stored, copied and compared.
- 32-bit integers: C# `int` is unbounded `int` here, so overflow of shape products, lengths and counters is not modelled. `nuint` casts in the Metal descriptors are taken as exact, except that a negative image dimension is a failure (below).
- Images.CreateConstantImage: a negative dimension becomes a huge `nuint` that no device can allocate; the model fails with Overflow, while the exception Metal raises there is not known to this model.
- DeviceCaches.IosPlaceholder.GetMetalImage: fails as Images.CreateConstantImage does, so the same Overflow stands for the allocation failure.
- Configs.TypeName: the `ToString` of a nested configuration, a configurable and an array other than `int[]` is not modelled and gives the empty text; a date is taken in its invariant-culture text.
- Mapping.MapInputs: a model tensor keeps its base model. The source (ModelTensor.cs:38) wraps `BaseModel.MapInputs(map)`, a new "<name> Mapped" model (Model.cs:190-198) that draws its own layer id. So the ensures that no layer id is drawn holds only for graphs without model tensors, and the rebuilt base model is not modelled.
- Mapping.Map: inherits the model-tensor case of Mapping.MapInputs, so its base models are not rebuilt and no layer id is drawn for them.
- Mapping.MapSeq: the same model-tensor gap as Mapping.Map.
- Models.Model.MapInputs: maps through Mapping.MapInputs, so a model tensor among the outputs keeps its old base model.
- Models.MapEachInputs: maps through Mapping.MapInputs, so a model tensor in the list keeps its old base model.
- Models.Model.RebuildModelWithInputs: maps through Models.Model.MapInputs, so a model tensor among the outputs keeps its old base model.
- Models.Model.RebuildModelWithInputsCorrected: maps its outputs through Mapping.Map, which is built on Mapping.MapInputs, so a model tensor among the outputs keeps its old base model and draws no layer id for a "<name> Mapped" copy.
- Concurrency: the `ConcurrentDictionary` caches are modelled as sequential maps. Races between two first calls for one key are not modelled.
- Random weight initialisation (`WeightsInit.InitWeightsAsync`) and the GUIDs used as default labels come from outside the model. The initialiser is only stored. A GUID is a parameter of the member that uses it.
- Reflection: `ConfigurableReader` finds constructors and their parameters by reflection. Here they are given as a parameter list per type name.
- Config value parsing other than `int` and `int[]` is left out: floats, booleans, enums, `DateTime` and nested text values are kept as text.
- `XmlWriter` and `XElement`: the writer is an event log and the reader works on an element tree. Escaping and formatting are not modelled.
- `MPSImage` and `CGBitmapContext` contents: an image holds the floats last written into it. `ToCGImage` is modelled up to the choice of the bitmap layout. The null-image check before it is left out.
- Images.Float32Format: the pixel format Metal picks for float images is Metal's rule. It is stated, not taken from the library.
- The iOS `CreateConstantImage` is not part of this model. The iOS placeholder's image cache uses the main tree's `CreateConstantImage`.
- `MPSVector.Init` is not part of this model. It is taken to copy the stored values into the vector.
- The DEBUG-only assertions are left out.
- `Model.Flatten` (Model.cs:348-400) is not modelled.
  - Models.Compile works on the model's own outputs and layers rather than on its flattened copy.
  - For a model without submodels, the two have the same shapes and losses, but the flattened copy's tensors are new objects.
- Models.CompileCorrected: like Models.Compile, it works on the model's own outputs and losses rather than on the copy `Model.Flatten` would make.
- Models.MakeLabelLoss: a loss's `Call` (CompiledModel.cs:63, Loss.cs:81) is a pure function parameter. The layer id and Configurable id that the real call draws for its loss layer are not counted in the model's counters, and no contract depends on them.
- Mac ConvLayer and DenseLayer:
  - Their constructors call base constructors that `ConvWeightsLayer.cs:25` does not declare, so those constructors are left out.
  - Their output shapes take `FeatureChannels` as a parameter, because the Mac `ConvWeightsLayer` does not declare it.
- `ConvWeights.cs:265-310` declares its own `OptimizableVector`. The model uses the one from `Weights.cs`, with the same three vectors, and fills the value with `biasInit` as that file's float constructor does.
- The vectors of `BatchNormDataSource` are left out. The model keeps the label and channel count it reports.
- The iOS `ConvWeights` is modelled only through the arguments the iOS `ConvWeightsLayer` passes it.
- DeviceCaches.NewConvDataSource: the weight count in·kx·ky·out is cast to `nuint` for the vector descriptor (ConvWeights.cs:122-125). A negative count becomes a huge length that Metal fails to allocate; the model reports it as the ArgumentOutOfRange "descriptor" of the length check, so Metal's allocation failure is not modelled. Negative kernel sizes whose product with the channels is positive are accepted and stored, as the C# code does.
- DeviceCaches.ConvWeights.GetDataSource: inherits the modelling of negative kernel sizes from DeviceCaches.NewConvDataSource.
- DeviceCaches.GetDataSourceTwice: inherits the modelling of negative kernel sizes from DeviceCaches.NewConvDataSource.
- DeviceCaches.ConvWeightsLayer.GetMetalConvDataSource: inherits the modelling of negative kernel sizes from DeviceCaches.NewConvDataSource.
- Parameters.NewOptimizableVector: the `nuint` descriptor length cannot be negative in C#; the model's integer length treats every length of 0 or less as the failing check, and Metal's allocation failure (MPSVectorExtensions.cs:24-25) is not modelled.
- IosModels.IosModel.constructor: the training tensor of several outputs is formed with the main tree's TensorFactories.Sum. The iOS `Tensor.Add(outputs)` called at MetalTensors.iOS/Model.cs:25-27 is not part of this model, so any check of its own is not modelled.
- Identical code in several files is modelled once:
  - `GetShapeLength` in `Shapes.cs`, `MetalTensors.iOS/Tensor.cs` and `MetalTensors.iOS/MetalExtensions.cs:46-53`;
  - the dictionary `Map` in both trees' `TensorExtensions.cs`;
  - the per-layer `ConvOutputLength` copies of the iOS tree.

## Findings

| source | as written | input that shows it | evidently intended | confidence | as-written member | corrected member |
|---|---|---|---|---|---|---|
| MetalTensors/Shapes.cs:49-51 | when any of the three dimensions is 1024 or more, `GetShape(d0, d1, d2)` returns the one-element array `[d0]` | `GetShape(1024, 1024, 3)` gives `[1024]` | `[d0, d1, d2]`, uncached | not executed | Shapes.ShapeCache.GetShape3, Shapes.Shape3DropsDimensions | Shapes.ShapeCache.GetShape3Corrected |
| MetalTensors/Model.cs:210-221 | `RebuildModelWithInputs` maps each old input to a new one in a dictionary, but `MapInputs` sends every input through `x.MapInputs(map)`, which returns a placeholder unchanged | a model over input x rebuilt on a new input z still has input x | the rebuilt model's inputs are the given ones | not executed | Models.Model.RebuildModelWithInputs, Models.RebuildKeepsPlaceholderInputs, Models.RebuildIgnoresNewInput | Models.Model.RebuildModelWithInputsCorrected |
| MetalTensors/CompiledModel.cs:68-70 | the added losses read `x.Losses` with `x` typed as `Layer`, so a model's own loss list (Model.cs:41-45 hides Layer's) is never read | a model with no layers and one loss added by `Model.AddLoss`, compiled for training with no output losses, fails with "Model has no losses" | the model's own losses are part of the training losses | not executed | Models.Compile, Models.AddedLossesDiffer, Models.ModelLossIgnored | Models.CompileCorrected |

Where the code and the documentation disagree, the model follows the code:
- Both `ConvWeights` argument errors name `inChannels`.
- The `PoolLayer` stride errors name `sizeX` and `sizeY`.
