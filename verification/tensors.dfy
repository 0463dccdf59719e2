/**
 * Element access of the tensors whose elements are known without running a
 * layer (MetalTensors/Tensor.cs and the concrete tensor classes of both
 * trees): copying into a destination buffer after the size check, the
 * row-major indexers, Item and ToArray.
 */
module Tensors {
  import opened Common
  import Shapes
  import opened Graph

  function Min(a: int, b: int): int { if a < b then a else b }

  // ---------------------------------------------------------------- elements

  /** The kinds whose Copy does not run a layer: array, constant, input, labels and Vector4 tensors. */
  predicate HasElements(k: Kind)
  {
    k.ArrayKind? || k.ConstantKind? || k.InputKind? || k.LabelsKind? || k.Vector4Kind?
  }

  /** The Shape of such a tensor: the stored shape, or [4] for a Vector4 tensor. */
  function ElementShape(k: Kind): (r: seq<int>)
    requires HasElements(k)
    ensures forall id, givenLabel :: ShapeOf(Tensor(id, givenLabel, k)) == Ok(r)
  {
    if k.Vector4Kind? then [4] else k.shape
  }

  /**
   * The elements a tensor holds, as an independent reference: an array
   * tensor's data; a constant or placeholder tensor's value (0 for a
   * placeholder) once per element of its shape; a Vector4's X, Y, Z, W.
   */
  function Elements(k: Kind): seq<Float>
    requires HasElements(k)
  {
    match k
    case ArrayKind(_, data) => data
    case ConstantKind(s, c) => seq(Max(Shapes.Product(s), 0), _ => c)
    case InputKind(s) => seq(Max(Shapes.Product(s), 0), _ => 0.0)
    case LabelsKind(s) => seq(Max(Shapes.Product(s), 0), _ => 0.0)
    case Vector4Kind(v) => [v.x, v.y, v.z, v.w]
  }

  /**
   * Tensor.ValidateCopyDestination: the element count of the shape, or
   * ArgumentOutOfRange when the destination is shorter.
   */
  function ValidateCopyDestination(shape: seq<int>, destinationLength: int): (r: Outcome<int>)
    ensures r.Ok? <==> Shapes.Product(shape) <= destinationLength
    ensures r.Ok? ==> r.value == Shapes.Product(shape)
    ensures r.Fail? ==> r.error == ArgumentOutOfRange("destination")
  {
    var needed := Shapes.Product(shape);
    if needed > destinationLength then Fail(ArgumentOutOfRange("destination")) else Ok(needed)
  }

  /** The destination with its first n slots set to c and the rest untouched. */
  function FillPrefix(dest: seq<Float>, n: int, c: Float): (r: seq<Float>)
  {
    seq(|dest|, i requires 0 <= i < |dest| => if i < n then c else dest[i])
  }

  /**
   * What Copy(destination) leaves in the destination, per class: ArrayTensor
   * copies its data over the prefix (Span.CopyTo rejects a destination
   * shorter than the data); ConstantTensor and PlaceholderTensor fill the
   * first shape-product slots; Vector4Tensor writes four slots.
   */
  function CopyResult(k: Kind, dest: seq<Float>): (r: Outcome<seq<Float>>)
    requires HasElements(k)
    ensures r.Ok? ==> |r.value| == |dest|
  {
    var n :- ValidateCopyDestination(ElementShape(k), |dest|);
    match k
    case ArrayKind(_, data) =>
      if |data| > |dest| then Fail(Argument("destination")) else Ok(data + dest[|data|..])
    case ConstantKind(_, c) => Ok(FillPrefix(dest, n, c))
    case InputKind(_) => Ok(FillPrefix(dest, n, 0.0))
    case LabelsKind(_) => Ok(FillPrefix(dest, n, 0.0))
    case Vector4Kind(v) =>
      ProductOfFour();
      Ok([v.x, v.y, v.z, v.w] + dest[4..])
  }

  lemma ProductOfFour()
    ensures Shapes.Product([4]) == 4
  {
    assert [4][..0] == [];
  }

  /**
   * Copy succeeds exactly when the destination holds the shape product and
   * the elements; the destination then starts with the elements and its
   * remaining slots are untouched.
   */
  lemma CopyWritesElements(k: Kind, dest: seq<Float>)
    requires HasElements(k)
    ensures CopyResult(k, dest).Ok? <==> Shapes.Product(ElementShape(k)) <= |dest| && |Elements(k)| <= |dest|
    ensures CopyResult(k, dest).Ok? ==> CopyResult(k, dest).value == Elements(k) + dest[|Elements(k)|..]
    ensures CopyResult(k, dest).Fail? && Shapes.Product(ElementShape(k)) > |dest| ==>
              CopyResult(k, dest).error == ArgumentOutOfRange("destination")
    ensures CopyResult(k, dest).Fail? && Shapes.Product(ElementShape(k)) <= |dest| ==>
              k.ArrayKind? && CopyResult(k, dest).error == Argument("destination")
  {
    var r := CopyResult(k, dest);
    if r.Ok? && !k.ArrayKind? {
      var e := Elements(k);
      assert r.value == e + dest[|e|..];
    }
  }

  /** A copy into a buffer of exactly the tensor's length: its Length many elements. */
  lemma CopyIntoExactBuffer(k: Kind)
    requires HasElements(k) && Shapes.Product(ElementShape(k)) >= 0
    requires k.ArrayKind? ==> |k.data| <= Shapes.Product(k.shape)
    ensures var n := Shapes.Product(ElementShape(k));
      CopyResult(k, seq(n, _ => 0.0)).Ok?
      && CopyResult(k, seq(n, _ => 0.0)).value == Elements(k) + seq(n - |Elements(k)|, _ => 0.0)
  {
    var n := Shapes.Product(ElementShape(k));
    var dest := seq(n, _ => 0.0);
    CopyWritesElements(k, dest);
    assert dest[|Elements(k)|..] == seq(n - |Elements(k)|, _ => 0.0);
  }

  // ---------------------------------------------------------------- Copy on a buffer

  /**
   * Copy(destination): the destination (a Span over a float buffer) is
   * changed in place exactly as CopyResult says, and is left alone when the
   * copy throws.
   */
  method Copy(k: Kind, destination: array<Float>) returns (r: Outcome<()>)
    requires HasElements(k)
    modifies destination
    ensures var expected := CopyResult(k, old(destination[..]));
      && (r.Ok? <==> expected.Ok?)
      && (expected.Ok? ==> destination[..] == expected.value)
      && (expected.Fail? ==> r == Fail(expected.error) && destination[..] == old(destination[..]))
  {
    match k
    case ArrayKind(shape, data) => r := ArrayCopy(shape, data, destination);
    case ConstantKind(shape, c) => r := FillCopy(shape, c, destination);
    case InputKind(shape) => r := FillCopy(shape, 0.0, destination);
    case LabelsKind(shape) => r := FillCopy(shape, 0.0, destination);
    case Vector4Kind(v) => r := Vector4CopyTo(v, destination);
  }

  /** ArrayTensor.Copy: the size check, then Span.CopyTo of the data into the destination's prefix. */
  method ArrayCopy(shape: seq<int>, data: seq<Float>, destination: array<Float>) returns (r: Outcome<()>)
    modifies destination
    ensures var expected := CopyResult(ArrayKind(shape, data), old(destination[..]));
      && (r.Ok? <==> expected.Ok?)
      && (expected.Ok? ==> destination[..] == expected.value)
      && (expected.Fail? ==> r == Fail(expected.error) && destination[..] == old(destination[..]))
  {
    var valid := ValidateCopyDestination(shape, destination.Length);
    if valid.Fail? {
      return Fail(valid.error);
    }
    if |data| > destination.Length {
      return Fail(Argument("destination"));
    }
    forall i | 0 <= i < |data| {
      destination[i] := data[i];
    }
    return Ok(());
  }

  /**
   * ConstantTensor.Copy (value c) and PlaceholderTensor.Copy (value 0): the
   * size check, then a loop writing the value into the first shape-product slots.
   */
  method FillCopy(shape: seq<int>, c: Float, destination: array<Float>) returns (r: Outcome<()>)
    modifies destination
    ensures Shapes.Product(shape) > destination.Length ==>
              r == Fail(ArgumentOutOfRange("destination")) && destination[..] == old(destination[..])
    ensures Shapes.Product(shape) <= destination.Length ==>
              r.Ok? && destination[..] == FillPrefix(old(destination[..]), Shapes.Product(shape), c)
  {
    var valid := ValidateCopyDestination(shape, destination.Length);
    if valid.Fail? {
      return Fail(valid.error);
    }
    var n := valid.value;
    var i := 0;
    while i < n
      invariant 0 <= i <= Max(n, 0)
      invariant forall j :: 0 <= j < destination.Length ==>
                  destination[j] == (if j < i then c else old(destination[j]))
    {
      destination[i] := c;
      i := i + 1;
    }
    return Ok(());
  }

  /** Vector4Tensor.CopyTo: the size check against [4], then X, Y, Z and W into slots 0 to 3. */
  method Vector4CopyTo(v: Float4, destination: array<Float>) returns (r: Outcome<()>)
    modifies destination
    ensures var expected := CopyResult(Vector4Kind(v), old(destination[..]));
      && (r.Ok? <==> expected.Ok?)
      && (expected.Ok? ==> destination[..] == expected.value)
      && (expected.Fail? ==> r == Fail(expected.error) && destination[..] == old(destination[..]))
  {
    ProductOfFour();
    var valid := ValidateCopyDestination([4], destination.Length);
    if valid.Fail? {
      return Fail(valid.error);
    }
    destination[0] := v.x;
    destination[1] := v.y;
    destination[2] := v.z;
    destination[3] := v.w;
    return Ok(());
  }

  // ---------------------------------------------------------------- Length and ToArray

  /** Tensor.Length: the product of the shape's dimensions, 1 for the empty shape. */
  function Length(t: Tensor): (r: Outcome<int>)
    ensures r.Ok? <==> ShapeOf(t).Ok?
    ensures r.Ok? && ShapeOf(t).value == [] ==> r.value == 1
    ensures r.Ok? && Shapes.AllPositive(ShapeOf(t).value) ==> r.value >= 1
  {
    var s :- ShapeOf(t);
    assert Shapes.AllPositive(s) ==> Shapes.Product(s) >= 1 by {
      if Shapes.AllPositive(s) {
        Shapes.ShapeLengthPositive(s);
      }
    }
    Ok(Shapes.Product(s))
  }

  /**
   * What ToArray returns: a new buffer of Length elements (a negative length
   * overflows the allocation) with the tensor copied into it.
   */
  function Contents(k: Kind): (r: Outcome<seq<Float>>)
    requires HasElements(k)
    ensures r.Ok? ==> |r.value| == Shapes.Product(ElementShape(k))
  {
    var n := Shapes.Product(ElementShape(k));
    if n < 0 then Fail(Overflow) else CopyResult(k, seq(n, _ => 0.0))
  }

  /**
   * ToArray succeeds exactly when the length is not negative and the
   * elements fit; the array then holds the elements, padded with zeros.
   */
  lemma ContentsAreElements(k: Kind)
    requires HasElements(k)
    ensures var n := Shapes.Product(ElementShape(k));
      Contents(k).Ok? <==> n >= 0 && |Elements(k)| <= n
    ensures var n := Shapes.Product(ElementShape(k));
      Contents(k).Ok? ==> Contents(k).value == Elements(k) + seq(n - |Elements(k)|, _ => 0.0)
  {
    var n := Shapes.Product(ElementShape(k));
    if n >= 0 {
      CopyWritesElements(k, seq(n, _ => 0.0));
      if |Elements(k)| <= n {
        CopyIntoExactBuffer(k);
      }
    }
  }

  /** Tensor.ToArray: allocates Length floats and copies the tensor into them. */
  method ToArray(k: Kind) returns (r: Outcome<array<Float>>)
    requires HasElements(k)
    ensures r.Ok? <==> Contents(k).Ok?
    ensures r.Fail? ==> r.error == Contents(k).error
    ensures r.Ok? ==> fresh(r.value) && r.value[..] == Contents(k).value
  {
    var n := Shapes.Product(ElementShape(k));
    if n < 0 {
      return Fail(Overflow);
    }
    var a := new Float[n](_ => 0.0);
    assert a[..] == seq(n, _ => 0.0);
    var copied := Copy(k, a);
    if copied.Fail? {
      return Fail(copied.error);
    }
    return Ok(a);
  }

  // ---------------------------------------------------------------- row-major indexing

  /** Σ x[j] · Π s[j+1..]: the row-major offset of an index tuple. */
  function RowMajor(s: seq<int>, x: seq<int>): int
    requires |x| == |s|
  {
    if s == [] then 0 else x[0] * Shapes.Product(s[1..]) + RowMajor(s[1..], x[1..])
  }

  /**
   * The offset both row-major indexers compute over the first
   * n = min(rank, indexes) dimensions; dividing by a zero dimension throws.
   */
  function Offset(shape: seq<int>, indexes: seq<int>): (r: Outcome<int>)
  {
    var n := Min(|shape|, |indexes|);
    if 0 in shape[..n] then Fail(DivideByZero) else Ok(RowMajor(shape[..n], indexes[..n]))
  }

  /** elements[i], or IndexOutOfRange. */
  function Lookup(elements: seq<Float>, i: int): (r: Outcome<Float>)
    ensures r.Ok? <==> 0 <= i < |elements|
    ensures r.Ok? ==> r.value == elements[i]
    ensures r.Fail? ==> r.error == IndexOutOfRange
  {
    if 0 <= i < |elements| then Ok(elements[i]) else Fail(IndexOutOfRange)
  }

  /** The main tree's ArrayTensor indexer: data at the row-major offset. */
  function ArrayIndex(shape: seq<int>, data: seq<Float>, indexes: seq<int>): Outcome<Float>
  {
    var i :- Offset(shape, indexes);
    Lookup(data, i)
  }

  /**
   * Tensor's default indexer: the whole tensor is copied into a buffer of
   * Length floats (a negative length overflows the allocation), then the
   * element at the row-major offset is read.
   */
  function DefaultIndex(k: Kind, indexes: seq<int>): Outcome<Float>
    requires HasElements(k)
  {
    var elements :- Contents(k);
    var i :- Offset(ElementShape(k), indexes);
    Lookup(elements, i)
  }

  /** C#'s division of a product by one of its non-zero factors is exact. */
  lemma MulTruncDiv(a: int, b: int)
    requires a != 0
    ensures TruncDiv(a * b, a) == b
  {
    MulAbs(a, b);
    NatMulDiv(Abs(a), Abs(b));
    MulSign(a, b);
  }

  lemma MulAbs(a: int, b: int)
    ensures Abs(a * b) == Abs(a) * Abs(b)
  {
    if a < 0 && b < 0 {
      assert a * b == (-a) * (-b);
    } else if a < 0 {
      assert a * b == -((-a) * b);
    } else if b < 0 {
      assert a * b == -(a * (-b));
    }
  }

  lemma NatMulDiv(x: nat, y: nat)
    requires x > 0
    ensures (x * y) / x == y
  {
    var q := (x * y) / x;
    var m := (x * y) % x;
    assert x * (y - q) == m;
    MulAtLeast(x, y - q);
  }

  lemma MulAtLeast(x: int, d: int)
    requires x > 0
    ensures d >= 1 ==> x * d >= x
    ensures d <= -1 ==> x * d <= -x
  {
    if d >= 1 {
      assert x * d == x * (d - 1) + x;
    } else if d <= -1 {
      assert x * d == -(x * (-d - 1)) - x;
    }
  }

  lemma MulSign(a: int, b: int)
    ensures a * b > 0 <==> (a > 0 && b > 0) || (a < 0 && b < 0)
    ensures a * b == 0 <==> a == 0 || b == 0
  {
    if a < 0 && b < 0 {
      assert a * b == (-a) * (-b);
    } else if a < 0 && b > 0 {
      assert a * b == -((-a) * b);
    } else if a > 0 && b < 0 {
      assert a * b == -(a * (-b));
    }
  }

  /**
   * The indexer's two loops: the first multiplies maxIndex up to the product
   * of the first n dimensions, the second divides one dimension out at a
   * time (C#'s truncating division) and accumulates index · maxIndex.
   */
  method FlatOffset(shape: seq<int>, indexes: seq<int>) returns (r: Outcome<int>)
    ensures r == Offset(shape, indexes)
  {
    var n := Min(|shape|, |indexes|);
    var maxIndex := 1;
    var j := 0;
    while j < n
      invariant 0 <= j <= n
      invariant maxIndex == Shapes.Product(shape[..j])
    {
      assert shape[..j + 1][..j] == shape[..j];
      maxIndex := maxIndex * shape[j];
      j := j + 1;
    }
    assert shape[0..n] == shape[..n];
    assert indexes[0..n] == indexes[..n];
    var i := 0;
    j := 0;
    while j < n
      invariant 0 <= j <= n
      invariant 0 !in shape[..j]
      invariant maxIndex == Shapes.Product(shape[j..n])
      invariant i + RowMajor(shape[j..n], indexes[j..n]) == RowMajor(shape[..n], indexes[..n])
    {
      if shape[j] == 0 {
        assert shape[..n][j] == 0;
        return Fail(DivideByZero);
      }
      assert [shape[j]] + shape[j + 1..n] == shape[j..n];
      assert shape[j..n][1..] == shape[j + 1..n];
      assert indexes[j..n][1..] == indexes[j + 1..n];
      Shapes.ProductCons(shape[j], shape[j + 1..n]);
      MulTruncDiv(shape[j], Shapes.Product(shape[j + 1..n]));
      maxIndex := TruncDiv(maxIndex, shape[j]);
      i := i + indexes[j] * maxIndex;
      assert shape[..j + 1] == shape[..j] + [shape[j]];
      j := j + 1;
    }
    return Ok(i);
  }

  /** ArrayTensor's indexer (main tree): the flat offset, then data at it. */
  method ArrayTensorIndexer(shape: seq<int>, data: seq<Float>, indexes: seq<int>) returns (r: Outcome<Float>)
    ensures r == ArrayIndex(shape, data, indexes)
  {
    var i := FlatOffset(shape, indexes);
    if i.Fail? {
      return Fail(i.error);
    }
    if !(0 <= i.value < |data|) {
      return Fail(IndexOutOfRange);
    }
    return Ok(data[i.value]);
  }

  /** Tensor's default indexer: ToArray's copy, then the flat offset into it. */
  method DefaultIndexer(k: Kind, indexes: seq<int>) returns (r: Outcome<Float>)
    requires HasElements(k)
    ensures r == DefaultIndex(k, indexes)
  {
    var elements := ToArray(k);
    if elements.Fail? {
      return Fail(elements.error);
    }
    var i := FlatOffset(ElementShape(k), indexes);
    if i.Fail? {
      return Fail(i.error);
    }
    if !(0 <= i.value < elements.value.Length) {
      return Fail(IndexOutOfRange);
    }
    return Ok(elements.value[i.value]);
  }

  /** A single index is the flat offset itself. */
  lemma SingleIndexIsFlat(shape: seq<int>, i: int)
    requires |shape| >= 1 && shape[0] != 0
    ensures Offset(shape, [i]) == Ok(i)
  {
    assert shape[..1] == [shape[0]];
    assert [i][..1] == [i];
    assert [shape[0]][1..] == [] && [i][1..] == [];
    assert RowMajor([shape[0]], [i]) == i * Shapes.Product([]) + RowMajor([], []);
  }

  /** With positive dimensions, indexes within the dimensions give an offset within the element count. */
  lemma {:induction false} RowMajorInRange(s: seq<int>, x: seq<int>)
    requires |x| == |s| && Shapes.AllPositive(s)
    requires forall j :: 0 <= j < |s| ==> 0 <= x[j] < s[j]
    ensures 0 <= RowMajor(s, x) < Shapes.Product(s)
    decreases |s|
  {
    if s == [] {
    } else {
      var rest := s[1..];
      assert s == [s[0]] + rest;
      Shapes.ProductCons(s[0], rest);
      RowMajorInRange(rest, x[1..]);
      RowMajorStep(s[0], x[0], Shapes.Product(rest), RowMajor(rest, x[1..]));
    }
  }

  /** One more row-major digit stays in range: 0 <= x0·p + r < n·p. */
  lemma RowMajorStep(n: int, x0: int, p: int, r: int)
    requires 0 <= x0 < n && 0 <= r < p
    ensures 0 <= x0 * p + r < n * p
  {
    assert x0 * p >= 0;
    assert (n - x0) * p >= p by {
      Shapes.MulAtLeastOne(n - x0, p);
    }
    assert n * p == x0 * p + (n - x0) * p;
  }

  /**
   * When the data has exactly the shape's element count, the ArrayTensor
   * indexer reads what the default indexer reads.
   */
  lemma ArrayIndexMatchesDefault(shape: seq<int>, data: seq<Float>, indexes: seq<int>)
    requires |data| == Shapes.Product(shape)
    ensures ArrayIndex(shape, data, indexes) == DefaultIndex(ArrayKind(shape, data), indexes)
  {
    var k := ArrayKind(shape, data);
    ContentsAreElements(k);
    assert Contents(k).value == data;
  }

  /** Indexing a constant with in-range indexes, one per dimension, reads its value. */
  lemma ConstantIndexIsValue(shape: seq<int>, c: Float, indexes: seq<int>)
    requires Shapes.AllPositive(shape) && |indexes| == |shape|
    requires forall j :: 0 <= j < |shape| ==> 0 <= indexes[j] < shape[j]
    ensures DefaultIndex(ConstantKind(shape, c), indexes) == Ok(c)
  {
    var k := ConstantKind(shape, c);
    Shapes.ProductPositive(shape);
    ContentsAreElements(k);
    assert shape[..|shape|] == shape && indexes[..|indexes|] == indexes;
    RowMajorInRange(shape, indexes);
  }

  /** Indexing a placeholder with in-range indexes, one per dimension, reads 0. */
  lemma PlaceholderIndexIsZero(k: Kind, indexes: seq<int>)
    requires (k.InputKind? || k.LabelsKind?) && Shapes.AllPositive(k.shape)
    requires |indexes| == |k.shape| && forall j :: 0 <= j < |k.shape| ==> 0 <= indexes[j] < k.shape[j]
    ensures DefaultIndex(k, indexes) == Ok(0.0)
  {
    Shapes.ProductPositive(k.shape);
    ContentsAreElements(k);
    assert k.shape[..|k.shape|] == k.shape && indexes[..|indexes|] == indexes;
    RowMajorInRange(k.shape, indexes);
  }

  /** The offset of a full index into a three-dimensional shape: ((x · b) + y) · c + z. */
  lemma Offset3(a: int, b: int, c: int, x: int, y: int, z: int)
    requires a != 0 && b != 0 && c != 0
    ensures Offset([a, b, c], [x, y, z]) == Ok((x * b + y) * c + z)
  {
    var s := [a, b, c];
    assert s[..3] == s && [x, y, z][..3] == [x, y, z];
    assert s[1..] == [b, c] && [b, c][1..] == [c] && [c][1..] == [];
    assert [x, y, z][1..] == [y, z] && [y, z][1..] == [z] && [z][1..] == [];
    assert [b, c][..1] == [b] && [b][..0] == [] && [c][..0] == [];
    assert Shapes.Product([c]) == c;
    assert Shapes.Product([b, c]) == b * c;
    assert RowMajor([c], [z]) == z;
    assert RowMajor([b, c], [y, z]) == y * c + z;
    assert RowMajor(s, [x, y, z]) == x * (b * c) + y * c + z;
    assert x * (b * c) + y * c == (x * b + y) * c;
  }

  /** Tests.Mac/IndexingTests.cs: a 2 x 2 x 3 array with ones at channel 0 reads 1 at every [i, j, 0]. */
  lemma IndexingExample()
    ensures var d := [1.0, 0.0, 0.0, 1.0, 0.0, 0.0, 1.0, 0.0, 0.0, 1.0, 0.0, 0.0];
      && ArrayIndex([2, 2, 3], d, [0, 0, 0]) == Ok(1.0)
      && ArrayIndex([2, 2, 3], d, [0, 1, 0]) == Ok(1.0)
      && ArrayIndex([2, 2, 3], d, [1, 0, 0]) == Ok(1.0)
      && ArrayIndex([2, 2, 3], d, [1, 1, 0]) == Ok(1.0)
  {
    Offset3(2, 2, 3, 0, 0, 0);
    Offset3(2, 2, 3, 0, 1, 0);
    Offset3(2, 2, 3, 1, 0, 0);
    Offset3(2, 2, 3, 1, 1, 0);
  }

  // ---------------------------------------------------------------- iOS tree

  /** The iOS ArrayTensor indexer: data at the first index, or at 0 when none is given. */
  function IosArrayIndex(data: seq<Float>, indexes: seq<int>): (r: Outcome<Float>)
  {
    var i := if |indexes| > 0 then indexes[0] else 0;
    Lookup(data, i)
  }

  /**
   * The iOS indexer agrees with the main tree's on the same (one-dimensional)
   * array tensor, except that an empty array indexed explicitly divides by
   * zero in the main tree instead of failing the lookup.
   */
  lemma IosIndexAgrees(data: seq<Float>, indexes: seq<int>)
    ensures IosArrayIndex(data, indexes) == ArrayIndex([|data|], data, indexes)
        <==> !(|data| == 0 && |indexes| > 0)
  {
    if |indexes| > 0 {
      if |data| > 0 {
        var s := [|data|];
        assert s[..1] == [|data|];
        assert indexes[..1] == [indexes[0]] == [indexes[0]][..1];
        assert Min(|s|, |indexes|) == 1 == Min(|s|, 1);
        SingleIndexIsFlat(s, indexes[0]);
        assert Offset(s, indexes) == Offset(s, [indexes[0]]);
      } else {
        assert [|data|][..1] == [0];
        assert Offset([|data|], indexes) == Fail(DivideByZero);
      }
    } else {
      assert [|data|][..0] == [];
    }
  }

  /** Tensor.Item (iOS): Copy into a one-slot zeroed buffer, then slot 0. */
  function Item(k: Kind): (r: Outcome<Float>)
    requires HasElements(k)
  {
    var slots :- CopyResult(k, [0.0]);
    Ok(slots[0])
  }

  /**
   * Item succeeds exactly when the shape has at most one element and the
   * elements fit in one slot; it reads the first element, or the buffer's 0
   * when the tensor has no element.
   */
  lemma ItemIsFirstElement(k: Kind)
    requires HasElements(k)
    ensures Item(k).Ok? <==> Shapes.Product(ElementShape(k)) <= 1 && |Elements(k)| <= 1
    ensures Item(k).Ok? ==> Item(k).value == if |Elements(k)| == 1 then Elements(k)[0] else 0.0
  {
    CopyWritesElements(k, [0.0]);
  }

  /** Tensor.Item (iOS) on a buffer. */
  method IosItem(k: Kind) returns (r: Outcome<Float>)
    requires HasElements(k)
    ensures r == Item(k)
  {
    var span := new Float[1](_ => 0.0);
    assert span[..] == [0.0];
    var copied := Copy(k, span);
    if copied.Fail? {
      return Fail(copied.error);
    }
    return Ok(span[0]);
  }

  /** Tensor.ValidateShape (iOS): every dimension must be positive. */
  method ValidateShape(shape: seq<int>) returns (r: Outcome<()>)
    ensures r.Ok? <==> Shapes.AllPositive(shape)
    ensures r.Fail? ==> r.error == ArgumentOutOfRange("shape")
  {
    var i := 0;
    while i < |shape|
      invariant 0 <= i <= |shape|
      invariant Shapes.AllPositive(shape[..i])
    {
      if shape[i] <= 0 {
        return Fail(ArgumentOutOfRange("shape"));
      }
      assert shape[..i + 1] == shape[..i] + [shape[i]];
      i := i + 1;
    }
    assert shape[..i] == shape;
    return Ok(());
  }

  /** Tensor.GetShapeLength (iOS): the accumulator loop over the dimensions. */
  method IosGetShapeLength(shape: seq<int>) returns (r: int)
    ensures r == Shapes.Product(shape)
    ensures Shapes.AllPositive(shape) ==> r >= 1
  {
    r := 1;
    var i := 0;
    while i < |shape|
      invariant 0 <= i <= |shape|
      invariant r == Shapes.Product(shape[..i])
    {
      assert shape[..i + 1][..i] == shape[..i];
      r := r * shape[i];
      i := i + 1;
    }
    assert shape[..i] == shape;
    if Shapes.AllPositive(shape) {
      Shapes.ProductPositive(shape);
    }
  }
}
