/**
 * The tensor constructors and the static factories of MetalTensors/Tensor.cs
 * (main tree), the constructors of the iOS tree's tensor classes, and the
 * tensor arithmetic built from layers: Add, Sum and Concat.  Every
 * constructor runs Configurable's, which draws the next id; that is what makes
 * two constructed tensors different values.
 */
module TensorFactories {
  import opened Common
  import Shapes
  import opened Graph
  import opened Tensors

  // ---------------------------------------------------------------- constructors

  /** new ArrayTensor(data): the shape is [data.Length]. */
  method NewArrayTensor(counters: Counters, data: seq<Float>) returns (t: Tensor)
    modifies counters
    ensures counters.lastConfigurableId == old(counters.lastConfigurableId) + 1
    ensures counters.lastLayerId == old(counters.lastLayerId)
    ensures t == Tensor(counters.lastConfigurableId, None, ArrayKind([|data|], data))
  {
    var id := counters.NextConfigurableId();
    t := Tensor(id, None, ArrayKind([|data|], data));
  }

  /** new ArrayTensor(shape, data): both stored as given, without any check that they agree. */
  method NewShapedArrayTensor(counters: Counters, shape: seq<int>, data: seq<Float>) returns (t: Tensor)
    modifies counters
    ensures counters.lastConfigurableId == old(counters.lastConfigurableId) + 1
    ensures counters.lastLayerId == old(counters.lastLayerId)
    ensures t == Tensor(counters.lastConfigurableId, None, ArrayKind(shape, data))
  {
    var id := counters.NextConfigurableId();
    t := Tensor(id, None, ArrayKind(shape, data));
  }

  /** new ConstantTensor(name, constant, shape): the value verbatim, the shape normalised. */
  method NewConstantTensor(counters: Counters, name: Option<string>, constant: Float, shape: seq<int>)
    returns (t: Tensor)
    modifies counters
    ensures counters.lastConfigurableId == old(counters.lastConfigurableId) + 1
    ensures counters.lastLayerId == old(counters.lastLayerId)
    ensures t == Tensor(counters.lastConfigurableId, name, ConstantKind(Shapes.Normalized(shape), constant))
  {
    var id := counters.NextConfigurableId();
    t := Tensor(id, name, ConstantKind(Shapes.Normalized(shape), constant));
  }

  /** new InputTensor(name, shape) and new LabelsTensor(name, shape): a placeholder with the normalised shape. */
  method NewPlaceholderTensor(counters: Counters, name: string, shape: seq<int>, isLabels: bool)
    returns (t: Tensor)
    modifies counters
    ensures counters.lastConfigurableId == old(counters.lastConfigurableId) + 1
    ensures counters.lastLayerId == old(counters.lastLayerId)
    ensures t.id == counters.lastConfigurableId && t.givenLabel == Some(name)
    ensures t.kind == if isLabels then LabelsKind(Shapes.Normalized(shape)) else InputKind(Shapes.Normalized(shape))
  {
    var id := counters.NextConfigurableId();
    var s := Shapes.Normalized(shape);
    t := Tensor(id, Some(name), if isLabels then LabelsKind(s) else InputKind(s));
  }

  /** new Vector4Tensor(value, name). */
  method NewVector4Tensor(counters: Counters, value: Float4, name: Option<string>) returns (t: Tensor)
    modifies counters
    ensures counters.lastConfigurableId == old(counters.lastConfigurableId) + 1
    ensures counters.lastLayerId == old(counters.lastLayerId)
    ensures t == Tensor(counters.lastConfigurableId, name, Vector4Kind(value))
  {
    var id := counters.NextConfigurableId();
    t := Tensor(id, name, Vector4Kind(value));
  }

  /** Tensor.Ones(shape): a constant 1 of the normalised shape. */
  method Ones(counters: Counters, shape: seq<int>) returns (t: Tensor)
    modifies counters
    ensures counters.lastConfigurableId == old(counters.lastConfigurableId) + 1
    ensures counters.lastLayerId == old(counters.lastLayerId)
    ensures t == Tensor(counters.lastConfigurableId, None, ConstantKind(Shapes.Normalized(shape), 1.0))
  {
    t := NewConstantTensor(counters, None, 1.0, shape);
  }

  /** Tensor.Zeros(shape): a constant 0 of the normalised shape. */
  method Zeros(counters: Counters, shape: seq<int>) returns (t: Tensor)
    modifies counters
    ensures counters.lastConfigurableId == old(counters.lastConfigurableId) + 1
    ensures counters.lastLayerId == old(counters.lastLayerId)
    ensures t == Tensor(counters.lastConfigurableId, None, ConstantKind(Shapes.Normalized(shape), 0.0))
  {
    t := NewConstantTensor(counters, None, 0.0, shape);
  }

  /** Tensor.InputImage(name, height, width, featureChannels): an input of shape [height, width, featureChannels]. */
  method InputImage(counters: Counters, name: string, height: int, width: int, featureChannels: int)
    returns (t: Tensor)
    modifies counters
    ensures counters.lastConfigurableId == old(counters.lastConfigurableId) + 1
    ensures counters.lastLayerId == old(counters.lastLayerId)
    ensures t == Tensor(counters.lastConfigurableId, Some(name),
                        InputKind(Shapes.Normalized([height, width, featureChannels])))
  {
    t := NewPlaceholderTensor(counters, name, [height, width, featureChannels], false);
  }

  /**
   * new ConstantTensor(constant, shape) (iOS): the shape is validated, then
   * stored verbatim.  The iOS tensors have no id of their own; the model
   * draws one so that two constructed tensors stay different values.
   */
  method NewIosConstantTensor(counters: Counters, constant: Float, shape: seq<int>) returns (r: Outcome<Tensor>)
    modifies counters
    ensures r.Ok? <==> Shapes.AllPositive(shape)
    ensures r.Fail? ==> r.error == ArgumentOutOfRange("shape")
    ensures r.Ok? ==> r.value == Tensor(counters.lastConfigurableId, None, ConstantKind(shape, constant))
    ensures counters.lastConfigurableId == old(counters.lastConfigurableId) + 1
    ensures counters.lastLayerId == old(counters.lastLayerId)
  {
    var id := counters.NextConfigurableId();
    var valid := ValidateShape(shape);
    if valid.Fail? {
      return Fail(valid.error);
    }
    return Ok(Tensor(id, None, ConstantKind(shape, constant)));
  }

  /** new InputTensor(name, shape) (iOS): the shape is stored verbatim. */
  method NewIosInputTensor(counters: Counters, name: string, shape: seq<int>) returns (t: Tensor)
    modifies counters
    ensures counters.lastConfigurableId == old(counters.lastConfigurableId) + 1
    ensures counters.lastLayerId == old(counters.lastLayerId)
    ensures t == Tensor(counters.lastConfigurableId, Some(name), InputKind(shape))
  {
    var id := counters.NextConfigurableId();
    t := Tensor(id, Some(name), InputKind(shape));
  }

  // ---------------------------------------------------------------- what the constructors promise

  /**
   * An array tensor built from data alone gives its data back from ToArray,
   * and both trees' indexers read data[i] at [i].
   */
  lemma ArrayTensorRoundTrip(data: seq<Float>)
    ensures Contents(ArrayKind([|data|], data)) == Ok(data)
    ensures forall i :: 0 <= i < |data| ==> ArrayIndex([|data|], data, [i]) == Ok(data[i])
    ensures forall i :: 0 <= i < |data| ==> IosArrayIndex(data, [i]) == Ok(data[i])
  {
    var k := ArrayKind([|data|], data);
    assert Shapes.Product([|data|]) == |data| by {
      assert [|data|][..0] == [];
    }
    ContentsAreElements(k);
    assert data + seq(0, _ => 0.0) == data;
    forall i | 0 <= i < |data|
      ensures ArrayIndex([|data|], data, [i]) == Ok(data[i])
    {
      SingleIndexIsFlat([|data|], i);
    }
  }

  /**
   * A main-tree constant has a rank of at least 1 and only positive
   * dimensions, keeps a shape that already had them, and holds its value in
   * every element.
   */
  lemma ConstantTensorShape(shape: seq<int>, c: Float)
    ensures var s := Shapes.Normalized(shape);
      && |s| == (if |shape| == 0 then 1 else |shape|) && Shapes.AllPositive(s)
      && (|shape| > 0 && Shapes.AllPositive(shape) ==> s == shape)
      && Shapes.Product(s) >= 1 && Contents(ConstantKind(s, c)) == Ok(seq(Shapes.Product(s), _ => c))
  {
    var s := Shapes.Normalized(shape);
    Shapes.NormalizedPositive(shape);
    if |shape| > 0 && Shapes.AllPositive(shape) {
      Shapes.NormalizedKeepsPositive(shape);
    }
    Shapes.ProductPositive(s);
    ContentsAreElements(ConstantKind(s, c));
    assert Elements(ConstantKind(s, c)) + seq(0, _ => 0.0) == seq(Shapes.Product(s), _ => c);
  }

  /** A main-tree placeholder has only positive dimensions and reads as zeros. */
  lemma PlaceholderTensorShape(shape: seq<int>, isLabels: bool)
    ensures var s := Shapes.Normalized(shape);
      var k := if isLabels then LabelsKind(s) else InputKind(s);
      && Shapes.AllPositive(s) && (|shape| > 0 && Shapes.AllPositive(shape) ==> s == shape)
      && Shapes.Product(s) >= 1 && Contents(k) == Ok(seq(Shapes.Product(s), _ => 0.0))
  {
    var s := Shapes.Normalized(shape);
    Shapes.NormalizedPositive(shape);
    if |shape| > 0 && Shapes.AllPositive(shape) {
      Shapes.NormalizedKeepsPositive(shape);
    }
    Shapes.ProductPositive(s);
    var k := if isLabels then LabelsKind(s) else InputKind(s);
    ContentsAreElements(k);
    assert Elements(k) + seq(0, _ => 0.0) == seq(Shapes.Product(s), _ => 0.0);
  }

  /** A Vector4 tensor has shape [4] and reads X, Y, Z, W at [0] to [3]. */
  lemma Vector4TensorReads(v: Float4)
    ensures Contents(Vector4Kind(v)) == Ok([v.x, v.y, v.z, v.w])
    ensures DefaultIndex(Vector4Kind(v), [0]) == Ok(v.x) && DefaultIndex(Vector4Kind(v), [1]) == Ok(v.y)
    ensures DefaultIndex(Vector4Kind(v), [2]) == Ok(v.z) && DefaultIndex(Vector4Kind(v), [3]) == Ok(v.w)
  {
    ProductOfFour();
    ContentsAreElements(Vector4Kind(v));
    assert [v.x, v.y, v.z, v.w] + seq(0, _ => 0.0) == [v.x, v.y, v.z, v.w];
    SingleIndexIsFlat([4], 0);
    SingleIndexIsFlat([4], 1);
    SingleIndexIsFlat([4], 2);
    SingleIndexIsFlat([4], 3);
  }

  /** Tests.iOS/ConstantTensorTests.cs: Ones() is [1] and reads 1; Zeros(1) is [1] and Zeros(3) reads 0 at [0]. */
  lemma ConstantExamples()
    ensures Shapes.Normalized([]) == [1] && DefaultIndex(ConstantKind([1], 1.0), [0]) == Ok(1.0)
    ensures Shapes.Normalized([1]) == [1] && DefaultIndex(ConstantKind([1], 0.0), [0]) == Ok(0.0)
    ensures Shapes.Normalized([3]) == [3] && DefaultIndex(ConstantKind([3], 0.0), [0]) == Ok(0.0)
  {
    ConstantIndexIsValue([1], 1.0, [0]);
    ConstantIndexIsValue([1], 0.0, [0]);
    ConstantIndexIsValue([3], 0.0, [0]);
  }

  /**
   * Tests.iOS/PlaceholderTensorTests.cs: Input("foo") has shape [1];
   * Input("foo", 1) reads 0; InputImage("foo", 7, 5) has shape [7, 5, 3] and reads 0 at [0].
   */
  lemma PlaceholderExamples()
    ensures Shapes.Normalized([]) == [1]
    ensures Shapes.Normalized([1]) == [1] && DefaultIndex(InputKind([1]), [0]) == Ok(0.0)
    ensures Shapes.Normalized([7, 5, 3]) == [7, 5, 3] && DefaultIndex(InputKind([7, 5, 3]), [0]) == Ok(0.0)
  {
    PlaceholderIndexIsZero(InputKind([1]), [0]);
    var k := InputKind([7, 5, 3]);
    PlaceholderTensorShape([7, 5, 3], false);
    SingleIndexIsFlat([7, 5, 3], 0);
    assert Shapes.Product([7, 5, 3]) == 105 by {
      assert [7, 5, 3][..2] == [7, 5] && [7, 5][..1] == [7] && [7][..0] == [];
    }
  }

  /** Tests.iOS/ZeroTensorTests.cs: new ZeroTensor(1) has Item 0. */
  lemma ZeroTensorItem()
    ensures Item(ConstantKind([1], 0.0)) == Ok(0.0)
  {
    ItemIsFirstElement(ConstantKind([1], 0.0));
    assert Shapes.Product([1]) == 1 by {
      assert [1][..0] == [];
    }
  }

  // ---------------------------------------------------------------- one-hot vectors

  /** The data of OneHot(index, count): 1 at index, 0 elsewhere. */
  function OneHotVector(index: int, count: nat): (r: seq<Float>)
    ensures |r| == count
  {
    seq(count, k => if k == index then 1.0 else 0.0)
  }

  /**
   * Tensor.OneHot(index, count): a negative count overflows the allocation,
   * an index outside [0, count) is out of range; otherwise an array tensor
   * of length count.
   */
  method OneHot(counters: Counters, index: int, count: int) returns (r: Outcome<Tensor>)
    modifies counters
    ensures count < 0 ==> r == Fail(Overflow)
    ensures count >= 0 ==> (r.Ok? <==> 0 <= index < count)
    ensures count >= 0 && r.Fail? ==> r.error == IndexOutOfRange
    ensures r.Ok? ==> r.value == Tensor(counters.lastConfigurableId, None, ArrayKind([count], OneHotVector(index, count)))
    ensures counters.lastConfigurableId == old(counters.lastConfigurableId) + (if r.Ok? then 1 else 0)
    ensures counters.lastLayerId == old(counters.lastLayerId)
  {
    if count < 0 {
      return Fail(Overflow);
    }
    var a := new Float[count](_ => 0.0);
    if !(0 <= index < a.Length) {
      return Fail(IndexOutOfRange);
    }
    a[index] := 1.0;
    assert a[..] == OneHotVector(index, count);
    var t := NewArrayTensor(counters, a[..]);
    return Ok(t);
  }

  /** A one-hot vector reads 1 at its index and 0 at every other position. */
  lemma OneHotReads(index: int, count: nat)
    requires 0 <= index < count
    ensures forall k :: 0 <= k < count ==>
      ArrayIndex([count], OneHotVector(index, count), [k]) == Ok(if k == index then 1.0 else 0.0)
  {
    ArrayTensorRoundTrip(OneHotVector(index, count));
  }

  // ---------------------------------------------------------------- one-hot images

  /** The data of OneHot(index, height, width, count): 1 at channel index of every pixel. */
  function OneHotImageData(index: int, height: int, width: int, count: int): (r: seq<Float>)
    requires height * width * count >= 0
    ensures |r| == height * width * count
  {
    seq(height * width * count, k => if height > 0 && width > 0 && count > 0 && k % count == index then 1.0 else 0.0)
  }

  lemma MulMono(a: int, b: int, k: int)
    requires a <= b && k >= 0
    ensures a * k <= b * k
  {
    assert b * k - a * k == (b - a) * k;
  }

  /** Pixel (i, j), channel index lies inside a height · width · count buffer. */
  lemma WriteInRange(i: int, j: int, height: int, width: int, count: int, index: int)
    requires 0 <= i < height && 0 <= j < width && 0 <= index < count
    ensures 0 <= (i * width + j) * count + index < height * width * count
  {
    var s := i * width + j;
    assert 0 <= i * width;
    assert s + 1 <= height * width by {
      assert (i + 1) * width == i * width + width;
      MulMono(i + 1, height, width);
    }
    assert 0 <= s * count;
    assert (s + 1) * count == s * count + count;
    MulMono(s + 1, height * width, count);
  }

  /** The remainder of q · c + r is r. */
  lemma ModOfMultiplePlus(q: int, c: int, r: int)
    requires c > 0 && 0 <= r < c
    ensures (q * c + r) % c == r
  {
    var x := q * c + r;
    var d := q - x / c;
    assert x == (x / c) * c + x % c;
    assert c * d == x % c - r;
    MulAtLeast(c, d);
  }

  /** Within block b of a buffer of count-sized blocks, only position index has remainder index. */
  lemma BlockMod(b: int, count: int, index: int, k: int)
    requires count > 0 && 0 <= index < count && b * count <= k < b * count + count
    ensures k % count == index <==> k == b * count + index
  {
    ModOfMultiplePlus(b, count, k - b * count);
    assert b * count + (k - b * count) == k;
  }

  /**
   * Tensor.OneHot(index, height, width, count).  A negative length overflows
   * the allocation.  The nested loops write 1 at tindex + index for every
   * pixel, tindex stepping by count; a write outside the buffer is
   * IndexOutOfRange, which happens exactly when there is a pixel and index
   * is not a channel.  The post-check reads every [i, j, index] through the
   * ArrayTensor indexer; it is proved never to find a value below 0.5.
   */
  method OneHotImage(counters: Counters, index: int, height: int, width: int, count: int)
    returns (r: Outcome<Tensor>)
    modifies counters
    ensures height * width * count < 0 ==> r == Fail(Overflow)
    ensures height * width * count >= 0 ==> (r.Ok? <==> (height > 0 && width > 0 ==> 0 <= index < count))
    ensures height * width * count >= 0 && r.Fail? ==> r.error == IndexOutOfRange
    ensures r.Ok? ==> height * width * count >= 0
    ensures r.Ok? ==> r.value == Tensor(counters.lastConfigurableId, None,
                                        ArrayKind([height, width, count], OneHotImageData(index, height, width, count)))
    ensures counters.lastConfigurableId == old(counters.lastConfigurableId) + (if r.Ok? then 1 else 0)
    ensures counters.lastLayerId == old(counters.lastLayerId)
  {
    var len := height * width * count;
    if len < 0 {
      return Fail(Overflow);
    }
    var a := new Float[len](_ => 0.0);
    ghost var w := Max(width, 0);
    ghost var steps := 0;
    var tindex := 0;
    var i := 0;
    while i < height
      invariant 0 <= i <= Max(height, 0)
      invariant steps == i * w && tindex == steps * count
      invariant steps > 0 ==> 0 <= index && (steps - 1) * count + index < len
      invariant (steps == 0 || 0 <= index < count) ==>
        forall k :: 0 <= k < len ==> a[k] == if k < tindex && count > 0 && k % count == index then 1.0 else 0.0
      modifies a
    {
      var j := 0;
      while j < width
        invariant 0 <= j <= w
        invariant steps == i * w + j && tindex == steps * count
        invariant steps > 0 ==> 0 <= index && (steps - 1) * count + index < len
        invariant (steps == 0 || 0 <= index < count) ==>
          forall k :: 0 <= k < len ==> a[k] == if k < tindex && count > 0 && k % count == index then 1.0 else 0.0
        modifies a
      {
        if 0 <= index < count {
          WriteInRange(i, j, height, width, count, index);
        }
        if !(0 <= tindex + index < a.Length) {
          return Fail(IndexOutOfRange);
        }
        ghost var before := a[..];
        a[tindex + index] := 1.0;
        if 0 <= index < count {
          forall k | 0 <= k < len
            ensures a[k] == if k < tindex + count && count > 0 && k % count == index then 1.0 else 0.0
          {
            if tindex <= k < tindex + count {
              BlockMod(steps, count, index, k);
            } else {
              assert a[k] == before[k];
            }
          }
        }
        assert (steps + 1) * count == tindex + count;
        tindex := tindex + count;
        steps := steps + 1;
        j := j + 1;
      }
      assert (i + 1) * w == i * w + w;
      i := i + 1;
    }
    if height > 0 && width > 0 {
      assert steps > 0 by {
        assert i == height && w == width;
        MulAtLeast(height, width);
      }
      assert (steps - 1) * count == steps * count - count;
      assert index < count;
      assert tindex == len;
    } else {
      assert steps == 0;
    }
    assert a[..] == OneHotImageData(index, height, width, count);
    var t := NewShapedArrayTensor(counters, [height, width, count], a[..]);
    i := 0;
    while i < height
      invariant 0 <= i <= Max(height, 0)
      modifies {}
    {
      var j := 0;
      while j < width
        invariant 0 <= j <= Max(width, 0)
        modifies {}
      {
        var v := ArrayTensorIndexer([height, width, count], a[..], [i, j, index]);
        OneHotImageReads(index, height, width, count, i, j, index);
        if v.Fail? || v.value < 0.5 {
          assert false;
        }
        j := j + 1;
      }
      i := i + 1;
    }
    return Ok(t);
  }

  /** A one-hot image reads 1 at channel index of every pixel and 0 at every other channel. */
  lemma OneHotImageReads(index: int, height: int, width: int, count: int, i: int, j: int, m: int)
    requires 0 <= i < height && 0 <= j < width && 0 <= index < count && 0 <= m < count
    ensures height * width * count > 0
    ensures ArrayIndex([height, width, count], OneHotImageData(index, height, width, count), [i, j, m])
            == Ok(if m == index then 1.0 else 0.0)
  {
    WriteInRange(i, j, height, width, count, m);
    Offset3(height, width, count, i, j, m);
    ModOfMultiplePlus(i * width + j, count, m);
  }

  /** Tests.Mac/IndexingTests.cs: OneHot(0, 2, 2, 3) holds the data the indexing test reads back. */
  lemma OneHotImageExample()
    ensures OneHotImageData(0, 2, 2, 3) == [1.0, 0.0, 0.0, 1.0, 0.0, 0.0, 1.0, 0.0, 0.0, 1.0, 0.0, 0.0]
  {
    var d := OneHotImageData(0, 2, 2, 3);
    assert d[0] == 1.0 && d[1] == 0.0 && d[2] == 0.0;
    assert d[3] == 1.0 && d[4] == 0.0 && d[5] == 0.0;
    assert d[6] == 1.0 && d[7] == 0.0 && d[8] == 0.0;
    assert d[9] == 1.0 && d[10] == 0.0 && d[11] == 0.0;
  }

  // ---------------------------------------------------------------- Add and Sum

  /**
   * What one Tensor.Add(a, b) builds: for a constant b, Add(float) becomes
   * Linear(1, value), a LinearLayer over a alone; otherwise an AddLayer over
   * a and b.  The tensor is labelled with its layer's name.
   */
  predicate IsAddOf(r: Tensor, a: Tensor, b: Tensor)
  {
    && r.kind.LayerKind? && r.givenLabel == Some(r.kind.layer.name) && r.kind.layer.rule == IdentityRule
    && if b.kind.ConstantKind? then
         && r.kind.layer.typeName == "LinearLayer" && r.kind.layer.minInputCount == 1
         && r.kind.layer.scalars == [1.0, b.kind.value] && r.kind.layerInputs == [a]
       else
         && r.kind.layer.typeName == "AddLayer" && r.kind.layer.minInputCount == 2
         && r.kind.layerInputs == [a, b]
  }

  /** Tensor.Add(other): a new layer called on this tensor (and other, unless it is a constant). */
  method Add(counters: Counters, a: Tensor, b: Tensor) returns (r: Tensor)
    modifies counters
    ensures IsAddOf(r, a, b) && fresh(r.kind.layer)
    ensures r.id == counters.lastConfigurableId
    ensures counters.lastConfigurableId == old(counters.lastConfigurableId) + 1
    ensures counters.lastLayerId == old(counters.lastLayerId) + 1
  {
    var layer: Layer;
    var inputs: seq<Tensor>;
    if b.kind.ConstantKind? {
      layer := new Layer(counters, None, "LinearLayer", IdentityRule, 1, 0, [1.0, b.kind.value], true);
      inputs := [a];
    } else {
      layer := new Layer(counters, None, "AddLayer", IdentityRule, 2, 0, [], true);
      inputs := [a, b];
    }
    var t := NewLayerTensor(counters, layer, inputs);
    assert t.Ok?;
    r := t.value;
  }

  /** r is the left fold of Add over ts: ((ts[0] + ts[1]) + ts[2]) + ... */
  predicate IsSumOf(r: Tensor, ts: seq<Tensor>)
    decreases |ts|
  {
    if |ts| == 0 then false
    else if |ts| == 1 then r == ts[0]
    else
      && r.kind.LayerKind? && |r.kind.layerInputs| > 0
      && IsAddOf(r, r.kind.layerInputs[0], ts[|ts| - 1])
      && IsSumOf(r.kind.layerInputs[0], ts[..|ts| - 1])
  }

  /**
   * Tensor.Sum(tensors): no tensor is an ArgumentException, one tensor is
   * returned itself, more are folded from the left with +.
   */
  method Sum(counters: Counters, tensors: seq<Tensor>) returns (r: Outcome<Tensor>)
    modifies counters
    ensures r.Fail? <==> |tensors| == 0
    ensures r.Fail? ==> r.error == Argument("tensors")
    ensures |tensors| == 1 ==> r == Ok(tensors[0])
    ensures r.Ok? ==> IsSumOf(r.value, tensors)
    ensures counters.lastConfigurableId == old(counters.lastConfigurableId) + Max(|tensors| - 1, 0)
    ensures counters.lastLayerId == old(counters.lastLayerId) + Max(|tensors| - 1, 0)
  {
    if |tensors| < 1 {
      return Fail(Argument("tensors"));
    }
    var acc := tensors[0];
    var i := 1;
    while i < |tensors|
      invariant 1 <= i <= |tensors|
      invariant IsSumOf(acc, tensors[..i])
      invariant counters.lastConfigurableId == old(counters.lastConfigurableId) + i - 1
      invariant counters.lastLayerId == old(counters.lastLayerId) + i - 1
    {
      var next := Add(counters, acc, tensors[i]);
      assert tensors[..i + 1][..i] == tensors[..i];
      acc := next;
      i := i + 1;
    }
    assert tensors[..i] == tensors;
    return Ok(acc);
  }

  /** A sum has the shape of its first summand (every Add layer keeps its first input's shape). */
  lemma {:induction false} SumHasFirstShape(r: Tensor, ts: seq<Tensor>)
    requires IsSumOf(r, ts)
    ensures |ts| > 0 && ShapeOf(r) == ShapeOf(ts[0])
    decreases |ts|
  {
    if |ts| > 1 {
      var a := r.kind.layerInputs[0];
      SumHasFirstShape(a, ts[..|ts| - 1]);
      assert ShapeOf(r) == ShapeOf(a);
    }
  }

  /**
   * Every summand but a constant added after the first is reachable from the
   * sum: a constant is folded into its LinearLayer's offset instead.
   */
  lemma {:induction false} SumReachesSummands(r: Tensor, ts: seq<Tensor>)
    requires IsSumOf(r, ts)
    ensures forall i :: 0 <= i < |ts| && (i == 0 || !ts[i].kind.ConstantKind?) ==> ts[i] in Reach(r)
    decreases |ts|
  {
    if |ts| > 1 {
      var a := r.kind.layerInputs[0];
      var front := ts[..|ts| - 1];
      SumReachesSummands(a, front);
      InputsReachable(r, 0);
      if !ts[|ts| - 1].kind.ConstantKind? {
        InputsReachable(r, 1);
        assert ts[|ts| - 1] in Reach(Inputs(r)[1]);
      }
      forall i | 0 <= i < |ts| - 1 && (i == 0 || !ts[i].kind.ConstantKind?)
        ensures ts[i] in Reach(r)
      {
        assert ts[i] == front[i];
      }
    }
  }

  // ---------------------------------------------------------------- Concat

  /**
   * Tensor.Concat(others): no other tensor returns this tensor itself;
   * otherwise a new ConcatLayer is called on this tensor followed by the others.
   */
  method Concat(counters: Counters, t: Tensor, others: seq<Tensor>) returns (r: Outcome<Tensor>)
    modifies counters
    ensures others == [] ==> r == Ok(t) && counters.lastConfigurableId == old(counters.lastConfigurableId)
                             && counters.lastLayerId == old(counters.lastLayerId)
    ensures others != [] ==> counters.lastConfigurableId == old(counters.lastConfigurableId) + 1
                             && counters.lastLayerId == old(counters.lastLayerId) + 1
    ensures others != [] ==> (r.Ok? <==> ValidateInputs(ConcatRule, [t] + others).Ok?)
    ensures others != [] && r.Fail? ==> r.error == ValidateInputs(ConcatRule, [t] + others).error
    ensures others != [] && r.Ok? ==>
      && r.value.kind.LayerKind? && fresh(r.value.kind.layer) && r.value.kind.layerInputs == [t] + others
      && r.value.kind.layer.typeName == "ConcatLayer" && r.value.kind.layer.rule == ConcatRule
      && r.value.kind.layer.minInputCount == 1 && r.value.id == counters.lastConfigurableId
  {
    if others == [] {
      return Ok(t);
    }
    var layer := new Layer(counters, None, "ConcatLayer", ConcatRule, 1, 0, [], true);
    r := NewLayerTensor(counters, layer, [t] + others);
  }
}
