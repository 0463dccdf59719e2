/**
 * Shape algebra (MetalTensors/Shapes.cs).  A shape is an int array; the
 * library hands out shared cached arrays for small one- and three-dimensional
 * shapes, normalises user-supplied shapes, compares them and multiplies their
 * dimensions out.
 */
module Shapes {
  import opened Common
  import Text

  /** Size of each level of the shape caches (`ncache`). */
  const CacheSize: int := 1024

  /** Product of all dimensions; 1 for the empty shape. */
  function Product(s: seq<int>): int
  {
    if s == [] then 1 else Product(s[..|s| - 1]) * s[|s| - 1]
  }

  predicate AllPositive(s: seq<int>) { forall i :: 0 <= i < |s| ==> s[i] > 0 }

  lemma {:induction false} ProductAppend(a: seq<int>, b: seq<int>)
    ensures Product(a + b) == Product(a) * Product(b)
    decreases |b|
  {
    if b == [] {
      assert a + b == a;
    } else {
      var b' := b[..|b| - 1];
      assert (a + b)[..|a + b| - 1] == a + b';
      ProductAppend(a, b');
      assert Product(a + b) == Product(a) * Product(b') * b[|b| - 1];
    }
  }

  lemma {:induction false} ProductPositive(s: seq<int>)
    requires AllPositive(s)
    ensures Product(s) >= 1
    decreases |s|
  {
    if s != [] {
      ProductPositive(s[..|s| - 1]);
      MulAtLeastOne(Product(s[..|s| - 1]), s[|s| - 1]);
    }
  }

  lemma MulAtLeastOne(a: int, b: int)
    requires a >= 1 && b >= 1
    ensures a * b >= a && a * b >= 1
  {
  }

  /** The product with the first dimension split off. */
  lemma ProductCons(x: int, s: seq<int>)
    ensures Product([x] + s) == x * Product(s)
  {
    ProductAppend([x], s);
    assert [x][..0] == [];
  }

  /** A shape with no non-positive dimension has a positive element count. */
  lemma ShapeLengthPositive(s: seq<int>)
    requires AllPositive(s)
    ensures Product(s) >= 1
  {
    ProductPositive(s);
  }

  /** ShapeExtensions.GetShapeLength: multiplies the dimensions out, left to right. */
  method GetShapeLength(shape: array<int>) returns (r: int)
    ensures r == Product(shape[..])
    ensures shape.Length == 0 ==> r == 1
  {
    r := 1;
    var i := 0;
    while i < shape.Length
      invariant 0 <= i <= shape.Length
      invariant r == Product(shape[..i])
    {
      assert shape[..i + 1][..i] == shape[..i];
      r := r * shape[i];
      i := i + 1;
    }
    assert shape[..shape.Length] == shape[..];
  }

  /** ShapeExtensions.ToShapeString: "(" + dimensions joined by ", " + ")". */
  function ToShapeString(shape: seq<int>): (r: string)
    ensures |r| >= 2 && r[0] == '(' && r[|r| - 1] == ')'
    ensures shape == [] ==> r == "()"
  {
    "(" + Text.JoinInts(shape) + ")"
  }

  /** The dimensions can be read back from the text between the parentheses. */
  lemma ShapeStringRoundTrip(shape: seq<int>)
    ensures var r := ToShapeString(shape); Text.ReadInts(r[1..|r| - 1]) == Ok(shape)
  {
    var r := ToShapeString(shape);
    assert r[1..|r| - 1] == Text.JoinInts(shape);
    Text.IntsRoundTrip(shape);
  }

  /**
   * What NormalizeShape yields, as a value: a missing or empty shape becomes [1],
   * and every dimension is raised to at least 1.
   */
  function Normalized(s: seq<int>): (r: seq<int>)
  {
    if |s| == 0 then [1] else seq(|s|, i requires 0 <= i < |s| => Max(1, s[i]))
  }

  /** Every normalised dimension is at least 1, and the rank is kept (an empty shape gets rank 1). */
  lemma NormalizedPositive(s: seq<int>)
    ensures AllPositive(Normalized(s))
    ensures |Normalized(s)| == if |s| == 0 then 1 else |s|
  {
  }

  /** A shape whose dimensions are all positive is already normalised. */
  lemma NormalizedKeepsPositive(s: seq<int>)
    requires |s| > 0 && AllPositive(s)
    ensures Normalized(s) == s
  {
  }

  /** Normalising twice is normalising once. */
  lemma NormalizedIdempotent(s: seq<int>)
    ensures Normalized(Normalized(s)) == Normalized(s)
  {
    NormalizedPositive(s);
    NormalizedKeepsPositive(Normalized(s));
  }

  /**
   * The static caches of Shapes and ShapeExtensions: `shapes1` holds the shared
   * array [d] for every 0 <= d < 1024 asked for so far, `shapes3` the shared
   * array [d0, d1, d2] for every triple below 1024 asked for so far (the
   * source's three-level jagged array is modelled as a map keyed by the triple),
   * and `oneShape` is the shared [1].
   */
  class ShapeCache {
    const oneShape: array<int>
    const shapes1: array<array?<int>>
    var shapes3: map<(int, int, int), array<int>>
    ghost var cached: set<array<int>>

    ghost predicate Valid()
      reads this, shapes1, cached
    {
      && shapes1.Length == CacheSize
      && oneShape in cached && oneShape[..] == [1]
      && (forall d :: 0 <= d < CacheSize && shapes1[d] != null ==>
            shapes1[d] in cached && shapes1[d][..] == [d])
      && (forall k :: k in shapes3 ==>
            InCacheRange(k.0, k.1, k.2) && shapes3[k] in cached && shapes3[k][..] == [k.0, k.1, k.2])
    }

    constructor ()
      ensures Valid() && fresh(shapes1) && fresh(oneShape)
      ensures shapes3 == map[]
      ensures forall d :: 0 <= d < CacheSize ==> shapes1[d] == null
    {
      var one := new int[1];
      one[0] := 1;
      oneShape := one;
      shapes1 := new array?<int>[CacheSize](_ => null);
      shapes3 := map[];
      cached := {one};
    }

    /**
     * Shapes.GetShape(int): the shared array [dim0] when dim0 < 1024, a fresh one
     * otherwise.  A negative dim0 passes the range test and indexes the cache
     * out of bounds.
     */
    method GetShape(dim0: int) returns (r: Outcome<array<int>>)
      requires Valid()
      modifies this, shapes1
      ensures Valid()
      ensures r.Ok? <==> dim0 >= 0
      ensures r.Fail? ==> r.error == IndexOutOfRange
      ensures r.Ok? ==> r.value[..] == [dim0]
      ensures 0 <= dim0 < CacheSize ==> shapes1[dim0] == r.value
      ensures 0 <= dim0 < CacheSize && old(shapes1[dim0]) != null ==> r.value == old(shapes1[dim0])
      ensures dim0 >= CacheSize ==> fresh(r.value)
      ensures forall d :: 0 <= d < CacheSize && d != dim0 ==> shapes1[d] == old(shapes1[d])
      ensures shapes3 == old(shapes3)
    {
      if dim0 < shapes1.Length {
        if dim0 < 0 {
          return Fail(IndexOutOfRange);
        }
        var s := shapes1[dim0];
        if s != null {
          return Ok(s);
        }
        s := new int[1];
        s[0] := dim0;
        shapes1[dim0] := s;
        cached := cached + {s};
        return Ok(s);
      } else {
        var s := new int[1];
        s[0] := dim0;
        return Ok(s);
      }
    }

    /**
     * Shapes.GetShape(int, int, int) as written: when any dimension is 1024 or
     * more the result is the one-element array [dim0].
     */
    method GetShape3(dim0: int, dim1: int, dim2: int) returns (r: Outcome<array<int>>)
      requires Valid()
      modifies this
      ensures Valid()
      ensures r.Ok? <==> Shape3AsWritten(dim0, dim1, dim2).Ok?
      ensures r.Ok? ==> r.value[..] == Shape3AsWritten(dim0, dim1, dim2).value
      ensures r.Ok? && (dim0, dim1, dim2) in old(shapes3) ==> r.value == old(shapes3[(dim0, dim1, dim2)])
      ensures r.Ok? && InCacheRange(dim0, dim1, dim2) ==> shapes3 == old(shapes3)[(dim0, dim1, dim2) := r.value]
      ensures r.Fail? || !InCacheRange(dim0, dim1, dim2) ==> shapes3 == old(shapes3)
    {
      if dim0 < CacheSize && dim1 < CacheSize && dim2 < CacheSize {
        r := LookUp3(dim0, dim1, dim2);
      } else {
        var s := new int[1];
        s[0] := dim0;
        r := Ok(s);
      }
    }

    /** Shapes.GetShape(int, int, int) as evidently intended: [dim0, dim1, dim2] for every dimension. */
    method GetShape3Corrected(dim0: int, dim1: int, dim2: int) returns (r: Outcome<array<int>>)
      requires Valid()
      modifies this
      ensures Valid()
      ensures r.Ok? <==> Shape3Intended(dim0, dim1, dim2).Ok?
      ensures r.Ok? ==> r.value[..] == [dim0, dim1, dim2]
      ensures r.Ok? && (dim0, dim1, dim2) in old(shapes3) ==> r.value == old(shapes3[(dim0, dim1, dim2)])
      ensures r.Fail? || !InCacheRange(dim0, dim1, dim2) ==> shapes3 == old(shapes3)
    {
      if dim0 < CacheSize && dim1 < CacheSize && dim2 < CacheSize {
        r := LookUp3(dim0, dim1, dim2);
      } else {
        var s := new int[3];
        s[0], s[1], s[2] := dim0, dim1, dim2;
        r := Ok(s);
      }
    }

    /** The cached branch shared by both versions: a negative index fails, the rest is memoised. */
    method LookUp3(dim0: int, dim1: int, dim2: int) returns (r: Outcome<array<int>>)
      requires Valid()
      requires dim0 < CacheSize && dim1 < CacheSize && dim2 < CacheSize
      modifies this
      ensures Valid()
      ensures r.Ok? <==> dim0 >= 0 && dim1 >= 0 && dim2 >= 0
      ensures r.Fail? ==> r.error == IndexOutOfRange && shapes3 == old(shapes3)
      ensures r.Ok? ==> r.value[..] == [dim0, dim1, dim2]
      ensures r.Ok? && (dim0, dim1, dim2) in old(shapes3) ==> r.value == old(shapes3[(dim0, dim1, dim2)])
      ensures r.Ok? ==> shapes3 == old(shapes3)[(dim0, dim1, dim2) := r.value]
    {
      if dim0 < 0 || dim1 < 0 || dim2 < 0 {
        return Fail(IndexOutOfRange);
      }
      var key := (dim0, dim1, dim2);
      if key in shapes3 {
        return Ok(shapes3[key]);
      }
      var s := new int[3];
      s[0], s[1], s[2] := dim0, dim1, dim2;
      shapes3 := shapes3[key := s];
      cached := cached + {s};
      r := Ok(s);
    }

    /**
     * ShapeExtensions.NormalizeShape: null or empty gives the shared [1], one
     * dimension gives GetShape(max(1, s0)), a shape with a non-positive dimension
     * gives a fresh clamped copy, and any other shape is returned itself.
     */
    method NormalizeShape(shape: array?<int>) returns (r: array<int>)
      requires Valid()
      modifies this, shapes1
      ensures Valid()
      ensures r[..] == Normalized(if shape == null then [] else shape[..])
      ensures shape == null || shape.Length == 0 ==> r == oneShape
      ensures shape != null && shape.Length == 1 && shape[0] < CacheSize ==> r == shapes1[Max(1, shape[0])]
      ensures shape != null && shape.Length >= 2 && AllPositive(shape[..]) ==> r == shape
      ensures shape != null && shape.Length >= 2 && !AllPositive(shape[..]) ==> fresh(r)
      ensures shapes3 == old(shapes3)
    {
      if shape == null || shape.Length <= 0 {
        return oneShape;
      }
      var n := shape.Length;
      if n == 1 {
        var o := GetShape(Max(1, shape[0]));
        return o.value;
      }
      var bi := 0;
      while bi < n
        invariant 0 <= bi <= n
        invariant forall j :: 0 <= j < bi ==> shape[j] > 0
      {
        if shape[bi] <= 0 {
          r := ClampedCopy(shape);
          return;
        }
        bi := bi + 1;
      }
      return shape;
    }
  }

  /** The fresh copy NormalizeShape makes when some dimension is not positive. */
  method ClampedCopy(shape: array<int>) returns (ns: array<int>)
    ensures fresh(ns)
    ensures ns.Length == shape.Length
    ensures forall j :: 0 <= j < shape.Length ==> ns[j] == Max(1, shape[j])
  {
    var n := shape.Length;
    ns := new int[n];
    var i := 0;
    while i < n
      invariant 0 <= i <= n
      invariant forall j :: 0 <= j < i ==> ns[j] == Max(1, shape[j])
    {
      ns[i] := Max(1, shape[i]);
      i := i + 1;
    }
  }

  predicate InCacheRange(dim0: int, dim1: int, dim2: int)
  {
    0 <= dim0 < CacheSize && 0 <= dim1 < CacheSize && 0 <= dim2 < CacheSize
  }

  /** The contents GetShape(dim0, dim1, dim2) returns as written. */
  function Shape3AsWritten(dim0: int, dim1: int, dim2: int): (r: Outcome<seq<int>>)
    ensures r.Fail? <==> dim0 < CacheSize && dim1 < CacheSize && dim2 < CacheSize && !InCacheRange(dim0, dim1, dim2)
  {
    if dim0 < CacheSize && dim1 < CacheSize && dim2 < CacheSize then
      if InCacheRange(dim0, dim1, dim2) then Ok([dim0, dim1, dim2]) else Fail(IndexOutOfRange)
    else Ok([dim0])
  }

  /** The contents GetShape(dim0, dim1, dim2) evidently should return. */
  function Shape3Intended(dim0: int, dim1: int, dim2: int): (r: Outcome<seq<int>>)
    ensures r.Ok? ==> |r.value| == 3
  {
    if dim0 < CacheSize && dim1 < CacheSize && dim2 < CacheSize && !InCacheRange(dim0, dim1, dim2) then
      Fail(IndexOutOfRange)
    else Ok([dim0, dim1, dim2])
  }

  /** The as-written three-dimensional GetShape loses dim1 and dim2 for a 1024-wide image. */
  lemma Shape3DropsDimensions()
    ensures Shape3AsWritten(1024, 1024, 3) == Ok([1024])
    ensures Shape3Intended(1024, 1024, 3) == Ok([1024, 1024, 3])
  {
  }

  /** Wherever the as-written version succeeds with a three-element result, both agree; they differ exactly off the cache. */
  lemma Shape3AgreesInRange(dim0: int, dim1: int, dim2: int)
    ensures Shape3AsWritten(dim0, dim1, dim2) == Shape3Intended(dim0, dim1, dim2)
        <==> dim0 < CacheSize && dim1 < CacheSize && dim2 < CacheSize
  {
  }

  /** ShapeExtensions.ShapeEquals: same rank and the same dimension at every position. */
  method ShapeEquals(shape: array<int>, other: array<int>) returns (eq: bool)
    ensures eq <==> shape[..] == other[..]
  {
    if shape.Length != other.Length {
      return false;
    }
    var i := 0;
    while i < shape.Length
      invariant 0 <= i <= shape.Length
      invariant shape[..i] == other[..i]
    {
      if shape[i] != other[i] {
        assert shape[..][i] != other[..][i];
        return false;
      }
      assert shape[..i + 1] == shape[..i] + [shape[i]];
      assert other[..i + 1] == other[..i] + [other[i]];
      i := i + 1;
    }
    assert shape[..] == shape[..shape.Length];
    assert other[..] == other[..other.Length];
    return true;
  }
}
