/**
 * Output-shape inference and input validation of the layers in
 * MetalTensors/Layers.  Every rule takes the shapes of the layer's inputs
 * (`inputs[i].Shape` in the source) and yields the output shape or the
 * exception the source throws; indexing past the end of an input list or a
 * shape is IndexOutOfRange.
 */
module LayerShapes {
  import opened Common
  import Conv
  import Shapes
  import Text

  /** inputs[0].Shape */
  function FirstShape(inputs: seq<seq<int>>): (r: Outcome<seq<int>>)
    ensures r.Ok? <==> |inputs| > 0
    ensures r.Ok? ==> r.value == inputs[0]
    ensures r.Fail? ==> r.error == IndexOutOfRange
  {
    if |inputs| == 0 then Fail(IndexOutOfRange) else Ok(inputs[0])
  }

  /** shape[i] */
  function Dim(shape: seq<int>, i: int): (r: Outcome<int>)
    ensures r.Ok? <==> 0 <= i < |shape|
    ensures r.Ok? ==> r.value == shape[i]
    ensures r.Fail? ==> r.error == IndexOutOfRange
  {
    if 0 <= i < |shape| then Ok(shape[i]) else Fail(IndexOutOfRange)
  }

  /** The contents of a list of shape arrays. */
  ghost function Contents(shapes: seq<array<int>>): (r: seq<seq<int>>)
    reads set a | a in shapes
    ensures |r| == |shapes|
    ensures forall i :: 0 <= i < |shapes| ==> r[i] == shapes[i][..]
  {
    if shapes == [] then [] else [shapes[0][..]] + Contents(shapes[1..])
  }

  // ---------------------------------------------------------------- identity

  /**
   * The shape rule shared by the element-wise and normalisation layers (Binop,
   * Unop, BatchNorm, Dropout, Reduction): the first input's shape.
   */
  function IdentityShape(inputs: seq<seq<int>>): (r: Outcome<seq<int>>)
    ensures r.Ok? <==> |inputs| > 0
    ensures r.Ok? ==> r.value == inputs[0]
  {
    FirstShape(inputs)
  }

  // ---------------------------------------------------------------- convolution

  /**
   * ConvLayer.GetOutputShape: [height, width] through ConvOutputLength with
   * dilation 1, then the output feature channels.
   */
  function ConvShape(inputs: seq<seq<int>>, sizeX: int, sizeY: int, strideX: int, strideY: int,
                     padding: ConvPadding, featureChannels: int): (r: Outcome<seq<int>>)
    ensures r.Ok? <==> |inputs| > 0 && |inputs[0]| >= 2 && inputs[0][0] >= 0 && inputs[0][1] >= 0
                       && strideY != 0 && strideX != 0
    ensures r.Ok? ==> |r.value| == 3 && r.value[2] == featureChannels
    ensures r.Ok? ==> (Ok(r.value[0]) == Conv.ConvOutputLength(inputs[0][0], sizeY, strideY, padding, 1)
                       && Ok(r.value[1]) == Conv.ConvOutputLength(inputs[0][1], sizeX, strideX, padding, 1))
  {
    var inputShape :- FirstShape(inputs);
    var h :- Dim(inputShape, 0);
    var w :- Dim(inputShape, 1);
    var kh :- Conv.ConvOutputLength(h, sizeY, strideY, padding, 1);
    var kw :- Conv.ConvOutputLength(w, sizeX, strideX, padding, 1);
    Ok([kh, kw, featureChannels])
  }

  /** Tests.iOS/ConvLayerTests.cs: Conv(32, 3) keeps a 512 x 512 image at 512 x 512 with 32 channels. */
  lemma ConvShapeExample()
    ensures ConvShape([[512, 512, 3]], 3, 3, 1, 1, Same, 32) == Ok([512, 512, 32])
  {
  }

  /** ConvTransposeLayer.ValidateInputShapes: every input is H x W x C with C = InFeatureChannels. */
  function ConvTransposeValidation(inputs: seq<seq<int>>, inFeatureChannels: int): (r: Outcome<()>)
    ensures r.Ok? <==> forall i :: 0 <= i < |inputs| ==> |inputs[i]| == 3 && inputs[i][2] == inFeatureChannels
    ensures r.Fail? ==> r.error == Argument("inputs")
  {
    if inputs == [] then Ok(())
    else if |inputs[0]| != 3 then Fail(Argument("inputs"))
    else if inputs[0][2] != inFeatureChannels then Fail(Argument("inputs"))
    else ConvTransposeValidation(inputs[1..], inFeatureChannels)
  }

  /** ConvTransposeLayer.GetOutputShape: both spatial axes through ConvTransposeOutputLength without output padding. */
  function ConvTransposeShape(inputs: seq<seq<int>>, sizeX: int, sizeY: int, strideX: int, strideY: int,
                              padding: ConvPadding, outFeatureChannels: int): (r: Outcome<seq<int>>)
    ensures r.Ok? <==> |inputs| > 0 && |inputs[0]| >= 2 && inputs[0][0] >= 0 && inputs[0][1] >= 0
    ensures r.Ok? ==> |r.value| == 3 && r.value[2] == outFeatureChannels
    ensures r.Ok? ==> (Ok(r.value[0]) == Conv.ConvTransposeOutputLength(inputs[0][0], sizeY, strideY, padding, 1, None)
                       && Ok(r.value[1]) == Conv.ConvTransposeOutputLength(inputs[0][1], sizeX, strideX, padding, 1, None))
  {
    var inputShape :- FirstShape(inputs);
    var h :- Dim(inputShape, 0);
    var w :- Dim(inputShape, 1);
    var kh :- Conv.ConvTransposeOutputLength(h, sizeY, strideY, padding, 1, None);
    var kw :- Conv.ConvTransposeOutputLength(w, sizeX, strideX, padding, 1, None);
    Ok([kh, kw, outFeatureChannels])
  }

  /** Transposed convolution brings a convolution's output back to the original height and width. */
  lemma ConvTransposeUndoesConv(h: int, w: int, c: int, size: int, stride: int, padding: ConvPadding, channels: int)
    requires h >= 0 && w >= 0 && size >= 1 && stride >= 1
    ensures var up := ConvTransposeShape([[h, w, c]], size, size, stride, stride, padding, channels);
      up.Ok? && ConvShape([up.value], size, size, stride, stride, padding, c) == Ok([h, w, c])
  {
    Conv.TransposeInvertsConv(h, size, stride, padding, 1);
    Conv.TransposeInvertsConv(w, size, stride, padding, 1);
  }

  /** Tests.iOS/ConvTransposeLayerTests.cs: 5 x 7 x 3 gives 5 x 7 x 32 by default and 10 x 14 x 32 with size 4, stride 2. */
  lemma ConvTransposeShapeExamples()
    ensures ConvTransposeValidation([[5, 7, 3]], 3).Ok?
    ensures ConvTransposeShape([[5, 7, 3]], 3, 3, 1, 1, Same, 32) == Ok([5, 7, 32])
    ensures ConvTransposeShape([[5, 7, 3]], 4, 4, 2, 2, Same, 32) == Ok([10, 14, 32])
  {
    Conv.ConvTransposeExamples();
  }

  /** The MPS padding policy a transposed convolution node is given. */
  datatype PaddingPolicy = SizeFull | SamePadding(stride: int)

  /**
   * ConvTransposeLayer.CreateConvWeightsNode: Same padding picks the custom
   * policy for StrideX 1 to 4 and throws otherwise; every other padding uses
   * the full-size policy.
   */
  function PaddingPolicyFor(padding: ConvPadding, strideX: int): (r: Outcome<PaddingPolicy>)
    ensures r.Fail? <==> padding == Same && !(1 <= strideX <= 4)
    ensures r.Ok? && padding == Same ==> r.value == SamePadding(strideX)
    ensures padding != Same ==> r == Ok(SizeFull)
  {
    if padding != Same then Ok(SizeFull)
    else if 1 <= strideX <= 4 then Ok(SamePadding(strideX))
    else Fail(InvalidOperation("Cannot create convolution transpose with stride " + Text.IntToString(strideX)))
  }

  /** The image descriptor MPS passes to a padding policy. */
  class ImageDescriptor {
    var width: int
    var height: int
    var featureChannels: int

    constructor (width: int, height: int, featureChannels: int)
      ensures this.width == width && this.height == height && this.featureChannels == featureChannels
    {
      this.width := width;
      this.height := height;
      this.featureChannels := featureChannels;
    }
  }

  /**
   * SamePadding.GetImageDescriptor: the suggested descriptor is resized to the
   * first source image scaled by the stride, and returned.
   */
  method SamePaddingDescriptor(stride: nat, sourceSizes: seq<(int, int)>, desc: ImageDescriptor)
    returns (r: Outcome<ImageDescriptor>)
    modifies desc
    ensures r.Ok? <==> |sourceSizes| > 0
    ensures r.Ok? ==> r.value == desc
    ensures r.Ok? ==> desc.width == sourceSizes[0].0 * stride && desc.height == sourceSizes[0].1 * stride
    ensures r.Fail? ==> desc.width == old(desc.width) && desc.height == old(desc.height)
    ensures desc.featureChannels == old(desc.featureChannels)
  {
    if |sourceSizes| == 0 {
      return Fail(IndexOutOfRange);
    }
    desc.width := sourceSizes[0].0 * stride;
    desc.height := sourceSizes[0].1 * stride;
    return Ok(desc);
  }

  // ---------------------------------------------------------------- dense

  /** DenseLayer.GetOutputShape as a value: the input shape with its last dimension replaced. */
  function DenseShape(inputs: seq<seq<int>>, featureChannels: int): (r: Outcome<seq<int>>)
    ensures r.Ok? <==> |inputs| > 0 && |inputs[0]| > 0
    ensures r.Ok? ==> |r.value| == |inputs[0]|
    ensures r.Ok? ==> r.value[..|r.value| - 1] == inputs[0][..|inputs[0]| - 1]
    ensures r.Ok? ==> r.value[|r.value| - 1] == featureChannels
  {
    var s :- FirstShape(inputs);
    if |s| == 0 then Fail(IndexOutOfRange) else Ok(s[..|s| - 1] + [featureChannels])
  }

  /**
   * DenseLayer.GetOutputShape (both trees): copy the first input's shape into a
   * fresh array and overwrite its last slot.
   */
  method DenseOutputShape(inputs: seq<array<int>>, featureChannels: int) returns (r: Outcome<array<int>>)
    ensures r.Ok? <==> DenseShape(Contents(inputs), featureChannels).Ok?
    ensures r.Ok? ==> fresh(r.value) && r.value[..] == DenseShape(Contents(inputs), featureChannels).value
    ensures r.Fail? ==> r.error == IndexOutOfRange
  {
    if |inputs| == 0 {
      return Fail(IndexOutOfRange);
    }
    var inputShape := inputs[0];
    var outputShape := new int[inputShape.Length];
    forall i | 0 <= i < inputShape.Length {
      outputShape[i] := inputShape[i];
    }
    if outputShape.Length == 0 {
      return Fail(IndexOutOfRange);
    }
    outputShape[outputShape.Length - 1] := featureChannels;
    assert outputShape[..] == inputShape[..][..inputShape.Length - 1] + [featureChannels];
    return Ok(outputShape);
  }

  /** A dense layer scales the element count by featureChannels / (old last dimension). */
  lemma DenseScalesElementCount(s: seq<int>, featureChannels: int)
    requires |s| > 0
    ensures var r := DenseShape([s], featureChannels);
      r.Ok? && Shapes.Product(r.value) * s[|s| - 1] == Shapes.Product(s) * featureChannels
  {
    var prefix := s[..|s| - 1];
    var last := s[|s| - 1];
    var r := DenseShape([s], featureChannels).value;
    assert r[..|r| - 1] == prefix;
    var p := Shapes.Product(prefix);
    assert Shapes.Product(r) == p * featureChannels;
    assert Shapes.Product(s) == p * last;
    MulSwap(p, featureChannels, last);
  }

  lemma MulSwap(a: int, b: int, c: int)
    ensures a * b * c == a * c * b
  {
  }

  // ---------------------------------------------------------------- concat

  /** A channel count rounded up to a multiple of 4 with C# integer division: ((c + 3) / 4) * 4. */
  function RoundUp4(c: int): int
  {
    TruncDiv(c + 3, 4) * 4
  }

  /** For a non-negative channel count, the smallest multiple of 4 that holds it. */
  lemma RoundUp4Bounds(c: int)
    requires c >= 0
    ensures c <= RoundUp4(c) < c + 4 && RoundUp4(c) % 4 == 0
  {
  }

  predicate HasLastDim(inputs: seq<seq<int>>)
  {
    forall i :: 0 <= i < |inputs| ==> |inputs[i]| > 0
  }

  /** Sum over the inputs of their rounded-up last dimensions. */
  function ChannelSum(inputs: seq<seq<int>>): int
    requires HasLastDim(inputs)
  {
    if inputs == [] then 0
    else
      var s := inputs[|inputs| - 1];
      ChannelSum(inputs[..|inputs| - 1]) + RoundUp4(s[|s| - 1])
  }

  /** ConcatLayer.GetOutputShape as a value. */
  function ConcatShape(inputs: seq<seq<int>>): (r: Outcome<seq<int>>)
    ensures r.Ok? <==> |inputs| > 0 && HasLastDim(inputs)
    ensures r.Ok? ==> |r.value| == |inputs[0]|
    ensures r.Ok? ==> r.value[..|r.value| - 1] == inputs[0][..|inputs[0]| - 1]
    ensures r.Ok? ==> r.value[|r.value| - 1] == ChannelSum(inputs)
  {
    if |inputs| == 0 || !HasLastDim(inputs) then Fail(IndexOutOfRange)
    else
      var s := inputs[0];
      Ok(s[..|s| - 1] + [ChannelSum(inputs)])
  }

  lemma ChannelSumStep(shapes: seq<seq<int>>, k: int)
    requires 0 <= k < |shapes| && HasLastDim(shapes[..k]) && |shapes[k]| > 0
    ensures HasLastDim(shapes[..k + 1])
    ensures ChannelSum(shapes[..k + 1]) == ChannelSum(shapes[..k]) + RoundUp4(shapes[k][|shapes[k]| - 1])
  {
    assert shapes[..k + 1][..k] == shapes[..k];
  }

  /** The channel loop of ConcatLayer.GetOutputShape: the sum of the rounded last dimensions. */
  method SumChannels(inputs: seq<array<int>>) returns (r: Outcome<int>)
    ensures r.Ok? <==> HasLastDim(Contents(inputs))
    ensures r.Ok? ==> r.value == ChannelSum(Contents(inputs))
    ensures r.Fail? ==> r.error == IndexOutOfRange
  {
    ghost var shapes := Contents(inputs);
    var nc := 0;
    var k := 0;
    while k < |inputs|
      invariant 0 <= k <= |inputs|
      invariant HasLastDim(shapes[..k])
      invariant nc == ChannelSum(shapes[..k])
    {
      var s := inputs[k];
      if s.Length == 0 {
        assert shapes[k] == [];
        return Fail(IndexOutOfRange);
      }
      assert shapes[k] == s[..];
      ChannelSumStep(shapes, k);
      nc := nc + RoundUp4(s[s.Length - 1]);
      k := k + 1;
    }
    assert shapes[..k] == shapes;
    return Ok(nc);
  }

  /** A fresh copy of shape with its last slot set to last. */
  method WithLast(shape: array<int>, last: int) returns (r: array<int>)
    requires shape.Length > 0
    ensures fresh(r) && r[..] == shape[..][..shape.Length - 1] + [last]
  {
    r := new int[shape.Length];
    var i := 0;
    while i < shape.Length
      invariant 0 <= i <= shape.Length
      invariant forall j :: 0 <= j < i ==> r[j] == shape[j]
    {
      r[i] := shape[i];
      i := i + 1;
    }
    r[r.Length - 1] := last;
    assert r[..] == shape[..][..shape.Length - 1] + [last];
  }

  /**
   * ConcatLayer.GetOutputShape: accumulate the rounded channel counts over all
   * inputs, copy the first input's shape, overwrite its last slot.
   */
  method ConcatOutputShape(inputs: seq<array<int>>) returns (r: Outcome<array<int>>)
    ensures r.Ok? <==> ConcatShape(Contents(inputs)).Ok?
    ensures r.Ok? ==> fresh(r.value) && r.value[..] == ConcatShape(Contents(inputs)).value
    ensures r.Fail? ==> r.error == IndexOutOfRange
  {
    if |inputs| == 0 {
      return Fail(IndexOutOfRange);
    }
    var nc :- SumChannels(inputs);
    assert Contents(inputs)[0] == inputs[0][..];
    var outputShape := WithLast(inputs[0], nc);
    return Ok(outputShape);
  }

  /** The first input's leading dimensions differ from shape's somewhere below nc. */
  predicate PrefixDiffers(s: seq<int>, shape: seq<int>, nc: int)
    requires |s| == |shape|
  {
    exists j :: 0 <= j < nc && j < |s| && s[j] != shape[j]
  }

  /** The checks of ConcatLayer.ValidateInputShapes on the inputs after the first, in order. */
  function ConcatCheck(shape: seq<int>, rest: seq<seq<int>>): Outcome<()>
  {
    if rest == [] then Ok(())
    else if |rest[0]| != |shape| then Fail(Argument("inputs"))
    else if PrefixDiffers(rest[0], shape, |shape| - 1) then Fail(Argument("inputs"))
    else ConcatCheck(shape, rest[1..])
  }

  /**
   * ConcatLayer.ValidateInputShapes as a value: nothing to check for a rank-1
   * first input; otherwise every later input has the first input's rank and
   * agrees with it on every dimension but the last.
   */
  function ConcatValidation(inputs: seq<seq<int>>): Outcome<()>
  {
    if |inputs| == 0 then Fail(IndexOutOfRange)
    else if |inputs[0]| - 1 == 0 then Ok(())
    else ConcatCheck(inputs[0], inputs[1..])
  }

  /** Two shapes can be concatenated along the last axis. */
  predicate Concatenable(s: seq<int>, shape: seq<int>)
  {
    |s| == |shape| && (|shape| == 0 || s[..|shape| - 1] == shape[..|shape| - 1])
  }

  lemma {:induction false} ConcatCheckAccepts(shape: seq<int>, rest: seq<seq<int>>)
    ensures ConcatCheck(shape, rest).Ok? <==> forall i :: 0 <= i < |rest| ==> Concatenable(rest[i], shape)
    ensures ConcatCheck(shape, rest).Fail? ==> ConcatCheck(shape, rest).error == Argument("inputs")
    decreases |rest|
  {
    if rest != [] {
      ConcatCheckAccepts(shape, rest[1..]);
      var s := rest[0];
      if |s| == |shape| && |shape| > 0 {
        var nc := |shape| - 1;
        if PrefixDiffers(s, shape, nc) {
          var j :| 0 <= j < nc && j < |s| && s[j] != shape[j];
          assert s[..nc][j] != shape[..nc][j];
        } else {
          assert s[..nc] == shape[..nc];
        }
      }
      assert forall i :: 1 <= i < |rest| ==> rest[i] == rest[1..][i - 1];
    }
  }

  /** Concat validation fails exactly when some later input cannot be concatenated with the first. */
  lemma ConcatValidationAccepts(inputs: seq<seq<int>>)
    requires |inputs| > 0 && |inputs[0]| != 1
    ensures ConcatValidation(inputs).Ok? <==> forall i :: 1 <= i < |inputs| ==> Concatenable(inputs[i], inputs[0])
  {
    ConcatCheckAccepts(inputs[0], inputs[1..]);
    assert forall i :: 1 <= i < |inputs| ==> inputs[i] == inputs[1..][i - 1];
  }

  /**
   * ConcatLayer.ValidateInputShapes: loops over the later inputs and their
   * leading dimensions, throwing at the first mismatch.
   */
  method ValidateConcatInputs(inputs: seq<array<int>>) returns (r: Outcome<()>)
    ensures r == ConcatValidation(Contents(inputs))
  {
    ghost var shapes := Contents(inputs);
    if |inputs| == 0 {
      return Fail(IndexOutOfRange);
    }
    var shape := inputs[0];
    var nc := shape.Length - 1;
    if nc == 0 {
      return Ok(());
    }
    var k := 1;
    while k < |inputs|
      invariant 1 <= k <= |inputs|
      invariant ConcatCheck(shape[..], shapes[1..]) == ConcatCheck(shape[..], shapes[k..])
    {
      var s := inputs[k];
      assert shapes[k..][0] == s[..];
      assert shapes[k..][1..] == shapes[k + 1..];
      if s.Length != shape.Length {
        return Fail(Argument("inputs"));
      }
      var j := 0;
      while j < nc
        invariant 0 <= j && (j <= nc || j == 0)
        invariant forall m :: 0 <= m < j ==> s[m] == shape[m]
      {
        if s[j] != shape[j] {
          assert PrefixDiffers(s[..], shape[..], nc);
          return Fail(Argument("inputs"));
        }
        j := j + 1;
      }
      assert !PrefixDiffers(s[..], shape[..], nc);
      k := k + 1;
    }
    assert shapes[k..] == [];
    return Ok(());
  }

  /** Tests.iOS/ConcatLayerTests.cs: [1] ++ [1] is [8]; 3 x 5 x 7 ++ 3 x 5 x 11 is 3 x 5 x 20. */
  lemma ConcatExamples()
    ensures ConcatShape([[1], [1]]) == Ok([8])
    ensures ConcatValidation([[3, 5, 7], [3, 5, 11]]).Ok?
    ensures ConcatShape([[3, 5, 7], [3, 5, 11]]) == Ok([3, 5, 20])
  {
    assert RoundUp4(1) == 4 && RoundUp4(7) == 8 && RoundUp4(11) == 12;
    assert [[1], [1]][..1] == [[1]];
    assert [[1]][..0] == [];
    assert [[3, 5, 7], [3, 5, 11]][..1] == [[3, 5, 7]];
    assert [[3, 5, 7]][..0] == [];
    assert [3, 5, 11][..2] == [3, 5, 7][..2];
    assert [3, 5, 7][..2] + [20] == [3, 5, 20];
  }

  // ---------------------------------------------------------------- upsample

  /** UpsampleLayer's scale factors after its constructor checks. */
  datatype UpsampleSettings = UpsampleSettings(scaleX: int, scaleY: int)

  /** UpsampleLayer constructor: both scales must be at least 1. */
  function NewUpsample(scaleX: int, scaleY: int): (r: Outcome<UpsampleSettings>)
    ensures r.Ok? <==> scaleX >= 1 && scaleY >= 1
    ensures r.Ok? ==> r.value.scaleX == scaleX && r.value.scaleY == scaleY
    ensures scaleX < 1 ==> r == Fail(Argument("scaleX"))
    ensures scaleX >= 1 && scaleY < 1 ==> r == Fail(Argument("scaleY"))
  {
    if scaleX < 1 then Fail(Argument("scaleX"))
    else if scaleY < 1 then Fail(Argument("scaleY"))
    else Ok(UpsampleSettings(scaleX, scaleY))
  }

  /** UpsampleLayer.ValidateInputShapes: the first input needs at least three dimensions. */
  function UpsampleValidation(inputs: seq<seq<int>>): (r: Outcome<()>)
    ensures r.Ok? <==> |inputs| > 0 && |inputs[0]| >= 3
  {
    var s :- FirstShape(inputs);
    if |s| < 3 then Fail(Argument("inputs")) else Ok(())
  }

  /** UpsampleLayer.GetOutputShape: [h * ScaleY, w * ScaleX, c]; always rank 3. */
  function UpsampleShape(inputs: seq<seq<int>>, settings: UpsampleSettings): (r: Outcome<seq<int>>)
    ensures r.Ok? <==> UpsampleValidation(inputs).Ok?
    ensures r.Ok? ==> |r.value| == 3 && r.value[2] == inputs[0][2]
  {
    var s :- FirstShape(inputs);
    var h :- Dim(s, 0);
    var w :- Dim(s, 1);
    var c :- Dim(s, 2);
    Ok([h * settings.scaleY, w * settings.scaleX, c])
  }

  /** An upsampled H x W x C image holds ScaleX * ScaleY times as many elements. */
  lemma UpsampleScalesElementCount(h: int, w: int, c: int, settings: UpsampleSettings)
    ensures var r := UpsampleShape([[h, w, c]], settings);
      r.Ok? && Shapes.Product(r.value) == Shapes.Product([h, w, c]) * settings.scaleX * settings.scaleY
  {
    var r := UpsampleShape([[h, w, c]], settings).value;
    Product3(h * settings.scaleY, w * settings.scaleX, c);
    Product3(h, w, c);
  }

  lemma Product3(a: int, b: int, c: int)
    ensures Shapes.Product([a, b, c]) == a * b * c
  {
    assert [a, b, c][..2] == [a, b];
    assert [a, b][..1] == [a];
    assert [a][..0] == [];
    assert Shapes.Product([a]) == a;
    assert Shapes.Product([a, b]) == a * b;
  }

  /** Tests.iOS/UpsampleLayerTests.cs: a 2 x 3 x 3 image upsampled by (2, 2) is 4 x 6 x 3. */
  lemma UpsampleExample()
    ensures NewUpsample(2, 2) == Ok(UpsampleSettings(2, 2))
    ensures UpsampleShape([[2, 3, 3]], UpsampleSettings(2, 2)) == Ok([4, 6, 3])
  {
  }

  // ---------------------------------------------------------------- mean

  /** MeanLayer.GetOutputShape as a value: the last dimension becomes 1. */
  function MeanShape(inputs: seq<seq<int>>): (r: Outcome<seq<int>>)
    ensures r.Ok? <==> |inputs| > 0 && |inputs[0]| > 0
    ensures r.Ok? ==> |r.value| == |inputs[0]| && r.value[|r.value| - 1] == 1
    ensures r.Ok? ==> forall i :: 0 <= i < |r.value| - 1 ==> r.value[i] == inputs[0][i]
  {
    var s :- FirstShape(inputs);
    if |s| == 0 then Fail(IndexOutOfRange) else Ok(s[..|s| - 1] + [1])
  }

  /** SpatialMeanLayer.GetOutputShape as a value: every dimension but the last becomes 1. */
  function SpatialMeanShape(inputs: seq<seq<int>>): (r: Outcome<seq<int>>)
    ensures r.Ok? <==> |inputs| > 0 && |inputs[0]| > 0
    ensures r.Ok? ==> |r.value| == |inputs[0]| && r.value[|r.value| - 1] == inputs[0][|inputs[0]| - 1]
    ensures r.Ok? ==> forall i :: 0 <= i < |r.value| - 1 ==> r.value[i] == 1
  {
    var s :- FirstShape(inputs);
    if |s| == 0 then Fail(IndexOutOfRange) else Ok(seq(|s| - 1, _ => 1) + [s[|s| - 1]])
  }

  /** MeanLayer.GetOutputShape: copy all but the last dimension into a fresh array, then set the last to 1. */
  method MeanOutputShape(inputs: seq<array<int>>) returns (r: Outcome<array<int>>)
    ensures r.Ok? <==> MeanShape(Contents(inputs)).Ok?
    ensures r.Ok? ==> fresh(r.value) && r.value[..] == MeanShape(Contents(inputs)).value
  {
    if |inputs| == 0 {
      return Fail(IndexOutOfRange);
    }
    var shape := inputs[0];
    var n := shape.Length;
    var out := new int[n];
    var i := 0;
    while i < n - 1
      invariant 0 <= i <= n
      invariant i <= n - 1 || n == 0
      invariant forall j :: 0 <= j < i ==> out[j] == shape[j]
    {
      out[i] := shape[i];
      i := i + 1;
    }
    if n == 0 {
      return Fail(IndexOutOfRange);
    }
    out[n - 1] := 1;
    assert out[..] == shape[..][..n - 1] + [1];
    return Ok(out);
  }

  /** SpatialMeanLayer.GetOutputShape: 1 in every slot but the last, which keeps the input's last dimension. */
  method SpatialMeanOutputShape(inputs: seq<array<int>>) returns (r: Outcome<array<int>>)
    ensures r.Ok? <==> SpatialMeanShape(Contents(inputs)).Ok?
    ensures r.Ok? ==> fresh(r.value) && r.value[..] == SpatialMeanShape(Contents(inputs)).value
  {
    if |inputs| == 0 {
      return Fail(IndexOutOfRange);
    }
    var shape := inputs[0];
    var n := shape.Length;
    var out := new int[n];
    var i := 0;
    while i < n - 1
      invariant 0 <= i <= n
      invariant i <= n - 1 || n == 0
      invariant forall j :: 0 <= j < i ==> out[j] == 1
    {
      out[i] := 1;
      i := i + 1;
    }
    if n == 0 {
      return Fail(IndexOutOfRange);
    }
    out[n - 1] := shape[n - 1];
    assert out[..] == seq(n - 1, _ => 1) + [shape[n - 1]];
    return Ok(out);
  }

  /** Both reductions are idempotent: reducing an already reduced shape changes nothing. */
  lemma MeanShapesIdempotent(s: seq<int>)
    requires |s| > 0
    ensures MeanShape([MeanShape([s]).value]) == MeanShape([s])
    ensures SpatialMeanShape([SpatialMeanShape([s]).value]) == SpatialMeanShape([s])
  {
    var m := MeanShape([s]).value;
    assert m[..|m| - 1] + [1] == m;
    var sm := SpatialMeanShape([s]).value;
    assert seq(|sm| - 1, _ => 1) + [sm[|sm| - 1]] == sm;
  }

  /** Tests.iOS/ReductionLayerTests.cs: the channel mean of a 2 x 3 x 1 tensor is 2 x 3 x 1. */
  lemma MeanExample()
    ensures MeanShape([[2, 3, 1]]) == Ok([2, 3, 1])
  {
    assert [2, 3, 1][..2] + [1] == [2, 3, 1];
  }

  // ---------------------------------------------------------------- loss

  /** LossLayer.InputCount */
  const LossInputCount: int := 2

  /** LossLayer.ValidateInputShapes: exactly a prediction and a label of the same shape. */
  function LossValidation(inputs: seq<seq<int>>): (r: Outcome<()>)
    ensures r.Ok? <==> |inputs| == LossInputCount && inputs[0] == inputs[1]
    ensures r.Fail? ==> r.error == Argument("inputs")
  {
    if |inputs| != 2 then Fail(Argument("inputs"))
    else if inputs[0] != inputs[1] then Fail(Argument("inputs"))
    else Ok(())
  }

  /** LossLayer.GetOutputShape: the prediction's shape; for validated inputs also the label's. */
  function LossShape(inputs: seq<seq<int>>): (r: Outcome<seq<int>>)
    ensures r.Ok? <==> |inputs| > 0
    ensures r.Ok? ==> r.value == inputs[0]
    ensures LossValidation(inputs).Ok? ==> r == Ok(inputs[1])
  {
    FirstShape(inputs)
  }

  /** A 2 x 2 x 1 prediction against a 1 x 1 x 1 label is rejected. */
  lemma LossMismatchExample()
    ensures LossValidation([[2, 2, 1], [1, 1, 1]]) == Fail(Argument("inputs"))
  {
  }

  // ---------------------------------------------------------------- pooling

  /** PoolLayer's window after its constructor checks. */
  datatype PoolSettings = PoolSettings(sizeX: int, sizeY: int, strideX: int, strideY: int)

  /**
   * PoolLayer constructor: sizes and strides must be at least 1.  The stride
   * errors name sizeX and sizeY, as written.
   */
  function NewPool(sizeX: int, sizeY: int, strideX: int, strideY: int): (r: Outcome<PoolSettings>)
    ensures r.Ok? <==> sizeX >= 1 && sizeY >= 1 && strideX >= 1 && strideY >= 1
    ensures r.Ok? ==> r.value == PoolSettings(sizeX, sizeY, strideX, strideY)
    ensures r.Fail? ==> r.error == ArgumentOutOfRange("sizeX") || r.error == ArgumentOutOfRange("sizeY")
    ensures sizeX >= 1 && sizeY >= 1 && strideX < 1 ==> r == Fail(ArgumentOutOfRange("sizeX"))
    ensures sizeX >= 1 && sizeY >= 1 && strideX >= 1 && strideY < 1 ==> r == Fail(ArgumentOutOfRange("sizeY"))
  {
    if sizeX < 1 then Fail(ArgumentOutOfRange("sizeX"))
    else if sizeY < 1 then Fail(ArgumentOutOfRange("sizeY"))
    else if strideX < 1 then Fail(ArgumentOutOfRange("sizeX"))
    else if strideY < 1 then Fail(ArgumentOutOfRange("sizeY"))
    else Ok(PoolSettings(sizeX, sizeY, strideX, strideY))
  }
}
