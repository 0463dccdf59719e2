/**
 * Remapping tensor graphs (MetalTensors/TensorExtensions.cs, the MapInputs
 * overrides of MetalTensors/Tensors/LayerTensor.cs and ModelTensor.cs, and
 * Tensor.Map).  Mapping rebuilds every layer tensor above a replaced tensor:
 * the rebuilt tensor draws a new id and its layer validates the new inputs
 * again, which can fail.
 */
module Mapping {
  import opened Common
  import opened Graph

  // ---------------------------------------------------------------- dictionary maps: specification

  /**
   * r is what the dictionary Map makes of the element t: the tensor the map
   * holds for t, or else t.MapInputs(m).
   */
  predicate MappedBy(m: map<Tensor, Tensor>, t: Tensor, r: Tensor)
    decreases t, 1
  {
    if t in m then r == m[t] else InputsMappedBy(m, t, r)
  }

  /**
   * r is what t.MapInputs(m) builds: a layer tensor over the same layer with
   * the mapped inputs, labelled with the layer's name; a model tensor over
   * the same base model and output with the mapped inputs; any other tensor
   * is itself.
   */
  predicate InputsMappedBy(m: map<Tensor, Tensor>, t: Tensor, r: Tensor)
    decreases t, 0
  {
    match t.kind
    case LayerKind(l, ins) =>
      && r.kind.LayerKind? && r.kind.layer == l && r.givenLabel == Some(l.name)
      && AllMappedBy(m, ins, r.kind.layerInputs)
    case ModelKind(b, k, ins, s) =>
      && r.kind.ModelKind? && r.kind.baseModel == b && r.kind.outputIndex == k && r.kind.outputShape == s
      && r.givenLabel == t.givenLabel && AllMappedBy(m, ins, r.kind.modelInputs)
    case ArrayKind(_, _) => r == t
    case ConstantKind(_, _) => r == t
    case InputKind(_) => r == t
    case LabelsKind(_) => r == t
    case Vector4Kind(_) => r == t
  }

  /** rs is the element-wise dictionary Map of ts. */
  predicate AllMappedBy(m: map<Tensor, Tensor>, ts: seq<Tensor>, rs: seq<Tensor>)
    decreases ts
  {
    |rs| == |ts| && forall i :: 0 <= i < |ts| ==> MappedBy(m, ts[i], rs[i])
  }

  // ---------------------------------------------------------------- dictionary maps: the code

  /**
   * TensorExtensions.Map(tensors, map): an empty array maps to an empty
   * array; otherwise a fresh array of the same length holds, for each
   * element, its image in the map or else element.MapInputs(map).  The iOS
   * tree's copy of this method is the same text.
   */
  method Map(counters: Counters, tensors: array<Tensor>, m: map<Tensor, Tensor>) returns (r: Outcome<array<Tensor>>)
    modifies counters
    ensures tensors.Length == 0 ==> r.Ok? && r.value.Length == 0
    ensures r.Ok? ==> fresh(r.value) && AllMappedBy(m, tensors[..], r.value[..])
    ensures counters.lastLayerId == old(counters.lastLayerId)
    decreases tensors[..], 0
  {
    var n := tensors.Length;
    if n == 0 {
      var empty := new Tensor[0];
      return Ok(empty);
    }
    var first := tensors[0];
    var a := new Tensor[n](_ => first);
    for i := 0 to n
      invariant forall j :: 0 <= j < i ==> MappedBy(m, tensors[j], a[j])
      invariant counters.lastLayerId == old(counters.lastLayerId)
    {
      if tensors[i] in m {
        a[i] := m[tensors[i]];
      } else {
        assert tensors[i] == tensors[..][i];
        var mapped :- MapInputs(counters, tensors[i], m);
        a[i] := mapped;
      }
    }
    return Ok(a);
  }

  /** The inputs of a rebuilt tensor, mapped through a fresh array as the C# code maps LayerInputs. */
  method MapSeq(counters: Counters, ins: seq<Tensor>, m: map<Tensor, Tensor>) returns (r: Outcome<seq<Tensor>>)
    modifies counters
    ensures r.Ok? ==> AllMappedBy(m, ins, r.value)
    ensures ins == [] ==> r == Ok([])
    ensures counters.lastLayerId == old(counters.lastLayerId)
    decreases ins, 1
  {
    var a := new Tensor[|ins|](i requires 0 <= i < |ins| => ins[i]);
    assert a[..] == ins;
    var mapped :- Map(counters, a, m);
    return Ok(mapped[..]);
  }

  /**
   * Tensor.MapInputs(map): a layer tensor becomes new LayerTensor(Layer,
   * LayerInputs.Map(map)), which draws an id and validates again; a model
   * tensor becomes a model tensor over the mapped inputs; the default
   * returns the tensor itself.
   */
  method MapInputs(counters: Counters, t: Tensor, m: map<Tensor, Tensor>) returns (r: Outcome<Tensor>)
    modifies counters
    ensures r.Ok? ==> InputsMappedBy(m, t, r.value)
    ensures !t.kind.LayerKind? && !t.kind.ModelKind? ==> r == Ok(t)
    ensures counters.lastLayerId == old(counters.lastLayerId)
    decreases t, 2
  {
    match t.kind
    case LayerKind(l, ins) =>
      var mapped :- MapSeq(counters, ins, m);
      r := NewLayerTensor(counters, l, mapped);
    case ModelKind(b, k, ins, s) =>
      var mapped :- MapSeq(counters, ins, m);
      var id := counters.NextConfigurableId();
      r := Ok(Tensor(id, t.givenLabel, ModelKind(b, k, mapped, s)));
    case ArrayKind(_, _) => r := Ok(t);
    case ConstantKind(_, _) => r := Ok(t);
    case InputKind(_) => r := Ok(t);
    case LabelsKind(_) => r := Ok(t);
    case Vector4Kind(_) => r := Ok(t);
  }

  // ---------------------------------------------------------------- dictionary maps: properties

  /**
   * Replacing tensors by tensors of the same shape keeps every shape in the
   * graph: each rebuilt layer sees inputs of the shapes it saw before.
   */
  lemma {:induction false} MappedShape(m: map<Tensor, Tensor>, t: Tensor, r: Tensor)
    requires forall k :: k in m ==> ShapeOf(m[k]) == ShapeOf(k)
    requires MappedBy(m, t, r)
    ensures ShapeOf(r) == ShapeOf(t)
    decreases t, 1
  {
    if t !in m {
      InputsMappedShape(m, t, r);
    }
  }

  lemma {:induction false} InputsMappedShape(m: map<Tensor, Tensor>, t: Tensor, r: Tensor)
    requires forall k :: k in m ==> ShapeOf(m[k]) == ShapeOf(k)
    requires InputsMappedBy(m, t, r)
    ensures ShapeOf(r) == ShapeOf(t)
    decreases t, 0
  {
    match t.kind
    case LayerKind(l, ins) =>
      var rs := r.kind.layerInputs;
      AllMappedShapes(m, ins, rs);
      if |ins| > 0 {
        MappedShape(m, ins[0], rs[0]);
      }
    case ModelKind(_, _, _, _) =>
    case ArrayKind(_, _) =>
    case ConstantKind(_, _) =>
    case InputKind(_) =>
    case LabelsKind(_) =>
    case Vector4Kind(_) =>
  }

  lemma {:induction false} AllMappedShapes(m: map<Tensor, Tensor>, ts: seq<Tensor>, rs: seq<Tensor>)
    requires forall k :: k in m ==> ShapeOf(m[k]) == ShapeOf(k)
    requires AllMappedBy(m, ts, rs)
    ensures ShapesOf(rs) == ShapesOf(ts)
    decreases ts
  {
    if ts != [] {
      MappedShape(m, ts[0], rs[0]);
      AllMappedShapes(m, ts[1..], rs[1..]);
    }
  }

  // ---------------------------------------------------------------- function maps

  /**
   * How t.Map(f) came about: the tensor MapInputs(f) rebuilt (or t itself)
   * and, for a layer tensor, how each of its inputs was mapped.  The result
   * of the map is f(rebuilt).
   */
  datatype Trace = Trace(rebuilt: Tensor, children: seq<Trace>)

  function Results(f: Tensor -> Tensor, trs: seq<Trace>): (rs: seq<Tensor>)
    ensures |rs| == |trs| && forall i :: 0 <= i < |trs| ==> rs[i] == f(trs[i].rebuilt)
  {
    seq(|trs|, i requires 0 <= i < |trs| => f(trs[i].rebuilt))
  }

  /**
   * tr records a run of t.Map(f): a layer tensor is rebuilt over the same
   * layer, labelled with the layer's name, with each input replaced by the
   * result of mapping it; every other tensor (a model tensor included: it
   * does not override this overload of MapInputs) is left as it is.
   */
  predicate MappedWith(f: Tensor -> Tensor, t: Tensor, tr: Trace)
    decreases t
  {
    match t.kind
    case LayerKind(l, ins) =>
      && |tr.children| == |ins|
      && (forall i :: 0 <= i < |ins| ==> MappedWith(f, ins[i], tr.children[i]))
      && tr.rebuilt.givenLabel == Some(l.name)
      && tr.rebuilt.kind == LayerKind(l, Results(f, tr.children))
    case ModelKind(_, _, _, _) => tr.rebuilt == t
    case ArrayKind(_, _) => tr.rebuilt == t
    case ConstantKind(_, _) => tr.rebuilt == t
    case InputKind(_) => tr.rebuilt == t
    case LabelsKind(_) => tr.rebuilt == t
    case Vector4Kind(_) => tr.rebuilt == t
  }

  /**
   * TensorExtensions.Map(tensors, f): each element becomes element.Map(f);
   * the original array is returned when every element came back as itself,
   * and a fresh array of the results otherwise.
   */
  method MapWith(counters: Counters, tensors: array<Tensor>, f: Tensor -> Tensor)
    returns (r: Outcome<array<Tensor>>, ghost traces: seq<Trace>)
    modifies counters
    ensures tensors.Length == 0 ==> r.Ok? && r.value.Length == 0
    ensures r.Ok? ==> r.value.Length == tensors.Length && |traces| == tensors.Length
    ensures r.Ok? ==> forall i :: 0 <= i < tensors.Length ==> MappedWith(f, tensors[i], traces[i])
    ensures r.Ok? && tensors.Length > 0 ==> (r.value == tensors <==> Results(f, traces) == tensors[..])
    ensures r.Ok? ==> r.value[..] == Results(f, traces)
    ensures r.Ok? && r.value != tensors ==> fresh(r.value)
    ensures counters.lastLayerId == old(counters.lastLayerId)
    decreases tensors[..], 0
  {
    var n := tensors.Length;
    traces := [];
    if n == 0 {
      var empty := new Tensor[0];
      return Ok(empty), [];
    }
    var first := tensors[0];
    var a := new Tensor[n](_ => first);
    var changed := false;
    for i := 0 to n
      invariant |traces| == i
      invariant forall j :: 0 <= j < i ==> a[j] == f(traces[j].rebuilt) && MappedWith(f, tensors[j], traces[j])
      invariant changed <==> Results(f, traces) != tensors[..i]
      invariant counters.lastLayerId == old(counters.lastLayerId)
    {
      assert tensors[i] == tensors[..][i];
      var nr, tr := MapTensor(counters, tensors[i], f);
      if nr.Fail? {
        return Fail(nr.error), traces;
      }
      assert tensors[..i + 1] == tensors[..i] + [tensors[i]];
      assert Results(f, traces + [tr]) == Results(f, traces) + [nr.value];
      changed := changed || nr.value != tensors[i];
      traces := traces + [tr];
      a[i] := nr.value;
    }
    assert tensors[..n] == tensors[..];
    assert a[..] == Results(f, traces);
    if changed {
      return Ok(a), traces;
    }
    return Ok(tensors), traces;
  }

  /** Tensor.Map(f): f applied to MapInputs(f). */
  method MapTensor(counters: Counters, t: Tensor, f: Tensor -> Tensor) returns (r: Outcome<Tensor>, ghost tr: Trace)
    modifies counters
    ensures r.Ok? ==> MappedWith(f, t, tr) && r.value == f(tr.rebuilt)
    ensures counters.lastLayerId == old(counters.lastLayerId)
    decreases t, 2
  {
    var s;
    s, tr := MapInputsWith(counters, t, f);
    if s.Fail? {
      return Fail(s.error), tr;
    }
    return Ok(f(s.value)), tr;
  }

  /** Tensor.MapInputs(f): a layer tensor is rebuilt over LayerInputs.Map(f); the default is the tensor itself. */
  method MapInputsWith(counters: Counters, t: Tensor, f: Tensor -> Tensor) returns (r: Outcome<Tensor>, ghost tr: Trace)
    modifies counters
    ensures r.Ok? ==> MappedWith(f, t, tr) && r.value == tr.rebuilt
    ensures !t.kind.LayerKind? ==> r == Ok(t)
    ensures counters.lastLayerId == old(counters.lastLayerId)
    decreases t, 1
  {
    tr := Trace(t, []);
    match t.kind
    case LayerKind(l, ins) =>
      var a := new Tensor[|ins|](i requires 0 <= i < |ins| => ins[i]);
      assert a[..] == ins;
      var mapped, traces := MapWith(counters, a, f);
      if mapped.Fail? {
        return Fail(mapped.error), tr;
      }
      r := NewLayerTensor(counters, l, mapped.value[..]);
      if r.Ok? {
        tr := Trace(r.value, traces);
      }
    case ModelKind(_, _, _, _) => r := Ok(t);
    case ArrayKind(_, _) => r := Ok(t);
    case ConstantKind(_, _) => r := Ok(t);
    case InputKind(_) => r := Ok(t);
    case LabelsKind(_) => r := Ok(t);
    case Vector4Kind(_) => r := Ok(t);
  }

  /** A shape-preserving f keeps every shape of the graph it maps. */
  lemma {:induction false} MappedWithShape(f: Tensor -> Tensor, t: Tensor, tr: Trace)
    requires forall x :: ShapeOf(f(x)) == ShapeOf(x)
    requires MappedWith(f, t, tr)
    ensures ShapeOf(tr.rebuilt) == ShapeOf(t) && ShapeOf(f(tr.rebuilt)) == ShapeOf(t)
    decreases t
  {
    match t.kind
    case LayerKind(l, ins) =>
      var rs := Results(f, tr.children);
      forall i | 0 <= i < |ins|
        ensures ShapeOf(rs[i]) == ShapeOf(ins[i])
      {
        MappedWithShape(f, ins[i], tr.children[i]);
      }
      SameShapes(ins, rs);
    case ModelKind(_, _, _, _) =>
    case ArrayKind(_, _) =>
    case ConstantKind(_, _) =>
    case InputKind(_) =>
    case LabelsKind(_) =>
    case Vector4Kind(_) =>
  }

  /** Two lists whose tensors have pairwise equal shapes have equal shape lists. */
  lemma {:induction false} SameShapes(ts: seq<Tensor>, rs: seq<Tensor>)
    requires |ts| == |rs| && forall i :: 0 <= i < |ts| ==> ShapeOf(rs[i]) == ShapeOf(ts[i])
    ensures ShapesOf(rs) == ShapesOf(ts)
    decreases |ts|
  {
    if ts != [] {
      SameShapes(ts[1..], rs[1..]);
    }
  }
}
