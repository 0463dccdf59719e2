/**
 * Output-length arithmetic of convolution layers
 * (MetalTensors/Layers/ConvWeightsLayer.cs, ported by the library from the
 * Keras conv_utils module).  The same ConvOutputLength body is repeated in
 * MetalTensors.iOS/Layers/ConvWeightsLayer.cs, ConvLayer.cs and Conv2Layer.cs.
 */
module Conv {
  import opened Common

  /** Extent of a filter of `size` taps spread `dilation` apart. */
  function DilatedSize(size: int, dilation: int): int
  {
    (size - 1) * dilation + 1
  }

  /**
   * ConvWeightsLayer.ConvOutputLength: the number of output positions along one
   * axis.  A negative input length is rejected; a zero stride divides by zero.
   */
  function ConvOutputLength(inputLength: int, size: int, stride: int, padding: ConvPadding, dilation: int): (r: Outcome<int>)
    ensures r.Fail? <==> inputLength < 0 || stride == 0
    ensures inputLength < 0 ==> r == Fail(ArgumentOutOfRange("inputLength"))
    ensures padding == Same && stride == 1 && inputLength >= 0 ==> r == Ok(inputLength)
  {
    if inputLength < 0 then Fail(ArgumentOutOfRange("inputLength"))
    else
      var outputLength := if padding == Same then inputLength else inputLength - DilatedSize(size, dilation) + 1;
      if stride == 0 then Fail(DivideByZero)
      else Ok(TruncDiv(outputLength + stride - 1, stride))
  }

  /** Euclidean facts about one quotient, kept apart from the callers' nonlinear terms. */
  lemma DivBounds(n: int, d: int)
    requires d > 0
    ensures (n / d) * d <= n < (n / d) * d + d
  {
  }

  /** With Same padding the output covers the input in whole strides: ceil(inputLength / stride). */
  lemma SameIsCeiling(inputLength: int, size: int, stride: int, dilation: int)
    requires inputLength >= 0 && stride > 0
    ensures var r := ConvOutputLength(inputLength, size, stride, Same, dilation);
      r.Ok? && r.value >= 0 && (r.value - 1) * stride < inputLength <= r.value * stride
  {
    var n := inputLength + stride - 1;
    var q := n / stride;
    DivBounds(n, stride);
    assert TruncDiv(n, stride) == q;
    assert (q - 1) * stride == q * stride - stride;
  }

  /**
   * With any other padding and an input at least one dilated filter long, the
   * output counts the filter placements start = 0, stride, 2*stride, ... that
   * fit inside the input.
   */
  lemma ValidCountsPlacements(inputLength: int, size: int, stride: int, padding: ConvPadding, dilation: int)
    requires padding != Same && stride > 0
    requires inputLength >= 0 && inputLength >= DilatedSize(size, dilation)
    ensures var r := ConvOutputLength(inputLength, size, stride, padding, dilation);
      var k := DilatedSize(size, dilation);
      r.Ok? && r.value >= 1
      && (r.value - 1) * stride + k <= inputLength
      && inputLength < r.value * stride + k
  {
    var k := DilatedSize(size, dilation);
    var n := inputLength - k + stride;
    var q := n / stride;
    DivBounds(n, stride);
    assert TruncDiv(n, stride) == q;
    assert (q - 1) * stride == q * stride - stride;
  }

  /** An input shorter than the dilated filter leaves no complete placement. */
  lemma ValidTooShort(inputLength: int, size: int, stride: int, padding: ConvPadding, dilation: int)
    requires padding != Same && stride > 0
    requires 0 <= inputLength < DilatedSize(size, dilation)
    ensures var r := ConvOutputLength(inputLength, size, stride, padding, dilation);
      r.Ok? && r.value <= 0
  {
    var n := inputLength - DilatedSize(size, dilation) + stride;
    assert n < stride;
    if n >= 0 {
      DivBounds(n, stride);
    }
  }

  /**
   * ConvWeightsLayer.ConvTransposeOutputLength.  Without output padding, Same
   * multiplies by the stride and every other padding adds the filter overhang;
   * with output padding p it is (in - 1) * stride + k - 2 * pad + p, pad = k / 2
   * for Same and 0 otherwise.
   */
  function ConvTransposeOutputLength(inputLength: int, size: int, stride: int, padding: ConvPadding, dilation: int,
                                     outputPadding: Option<int>): (r: Outcome<int>)
    ensures r.Fail? <==> inputLength < 0
    ensures r.Fail? ==> r.error == ArgumentOutOfRange("inputLength")
  {
    if inputLength < 0 then Fail(ArgumentOutOfRange("inputLength"))
    else
      var k := DilatedSize(size, dilation);
      if outputPadding.None? then
        if padding == Same then Ok(inputLength * stride)
        else Ok(inputLength * stride + Max(k - stride, 0))
      else
        var pad := if padding == Same then TruncDiv(k, 2) else 0;
        Ok((inputLength - 1) * stride + k - 2 * pad + outputPadding.value)
  }

  /** An integer multiple of d that stays below d is a non-positive multiple. */
  lemma MultipleBelow(x: int, d: int)
    requires d > 0 && x * d < d
    ensures x <= 0
  {
  }

  /** (a * d + e) / d == a when 0 <= e < d. */
  lemma MulAddDiv(a: int, d: int, e: int)
    requires d > 0 && 0 <= e < d
    ensures (a * d + e) / d == a
  {
    var n := a * d + e;
    var q := n / d;
    DivBounds(n, d);
    assert (q - a) * d == q * d - a * d;
    MultipleBelow(q - a, d);
    assert (a - q) * d == a * d - q * d;
    MultipleBelow(a - q, d);
  }

  /**
   * A transposed convolution without output padding undoes the length change of
   * the forward convolution with the same filter, stride and padding.
   */
  lemma {:induction false} TransposeInvertsConv(inputLength: int, size: int, stride: int, padding: ConvPadding, dilation: int)
    requires inputLength >= 0 && stride > 0 && size >= 1 && dilation >= 1
    ensures var t := ConvTransposeOutputLength(inputLength, size, stride, padding, dilation, None);
      t.Ok? && ConvOutputLength(t.value, size, stride, padding, dilation) == Ok(inputLength)
  {
    var k := DilatedSize(size, dilation);
    assert k >= 1 by {
      assert (size - 1) * dilation >= 0;
    }
    var grown := inputLength * stride;
    assert grown >= 0;
    if padding == Same {
      MulAddDiv(inputLength, stride, stride - 1);
    } else if k >= stride {
      var t := grown + (k - stride);
      assert t - k + 1 + stride - 1 == grown;
      MulAddDiv(inputLength, stride, 0);
    } else {
      var t := grown;
      assert t - k + 1 + stride - 1 == grown + (stride - k);
      MulAddDiv(inputLength, stride, stride - k);
    }
  }

  /**
   * With an output padding p below the stride, a transposed convolution is
   * again undone by the forward convolution with the same filter, stride and
   * padding; for Same padding the dilated filter must have odd extent, so
   * that the two pads of k / 2 take away exactly k - 1.
   */
  lemma {:induction false} OutputPaddingInvertsConv(inputLength: int, size: int, stride: int, padding: ConvPadding,
                                                    dilation: int, p: int)
    requires inputLength >= 1 && stride > 0 && size >= 1 && dilation >= 1 && 0 <= p < stride
    requires padding == Same ==> DilatedSize(size, dilation) % 2 == 1
    ensures var t := ConvTransposeOutputLength(inputLength, size, stride, padding, dilation, Some(p));
      t.Ok? && ConvOutputLength(t.value, size, stride, padding, dilation) == Ok(inputLength)
  {
    var k := DilatedSize(size, dilation);
    assert k >= 1 by {
      assert (size - 1) * dilation >= 0;
    }
    assert (inputLength - 1) * stride >= 0;
    assert (inputLength - 1) * stride + stride == inputLength * stride;
    var pad := if padding == Same then TruncDiv(k, 2) else 0;
    if padding == Same {
      assert pad == k / 2;
      assert 2 * pad == k - 1;
    }
    var t := (inputLength - 1) * stride + k - 2 * pad + p;
    assert ConvTransposeOutputLength(inputLength, size, stride, padding, dilation, Some(p)) == Ok(t);
    var n := if padding == Same then t + stride - 1 else t - k + 1 + stride - 1;
    assert n == inputLength * stride + p;
    MulAddDiv(inputLength, stride, p);
    assert n / stride == inputLength;
    assert TruncDiv(n, stride) == inputLength;
  }

  /** Tests.iOS/ConvTransposeLayerTests.cs: 5 x 7 stays 5 x 7 with stride 1, becomes 10 x 14 with size 4, stride 2. */
  lemma ConvTransposeExamples()
    ensures ConvTransposeOutputLength(5, 3, 1, Same, 1, None) == Ok(5)
    ensures ConvTransposeOutputLength(7, 3, 1, Same, 1, None) == Ok(7)
    ensures ConvTransposeOutputLength(5, 4, 2, Same, 1, None) == Ok(10)
    ensures ConvTransposeOutputLength(7, 4, 2, Same, 1, None) == Ok(14)
  {
  }

  /** 512 pooled by 2 with stride 2 and Valid padding is 256; Same padding keeps 29 x 67 with stride 1. */
  lemma ConvExamples()
    ensures ConvOutputLength(512, 2, 2, Valid, 1) == Ok(256)
    ensures ConvOutputLength(512, 3, 1, Same, 1) == Ok(512)
    ensures ConvOutputLength(29, 5, 1, Same, 1) == Ok(29)
    ensures ConvOutputLength(67, 5, 1, Same, 1) == Ok(67)
  {
  }

  /**
   * C# truncation, not Keras's floor division: an empty input under a 3-tap
   * filter with stride 2 gives 0 here where Keras gives -1.
   */
  lemma TruncationOnShortInput()
    ensures ConvOutputLength(0, 3, 2, Valid, 1) == Ok(0)
    ensures (0 - 3 + 1 + 2 - 1) / 2 == -1
  {
  }
}
