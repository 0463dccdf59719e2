/**
 * The iOS tree's Model (MetalTensors.iOS/Model.cs): built from its outputs
 * alone, it keeps a training tensor (the single output, or the sum of all
 * of them) and walks the graph from the outputs, sorting what it finds into
 * sources, input placeholders, labels placeholders and layers.
 */
module IosModels {
  import opened Common
  import opened Graph
  import opened Walk
  import TensorFactories

  /** The results of the iOS constructor's walk. */
  ghost predicate IsIosWalk(outputs: seq<Tensor>, tensors: seq<Tensor>, sources: seq<Tensor>,
                            inputs: seq<Tensor>, labels: seq<Tensor>, layers: seq<Layer>)
  {
    && Distinct(tensors)
    && Elems(tensors) == ReachAll(outputs)
    && Dedup(outputs) <= tensors
    && sources == Collect(tensors, SourcePick)
    && inputs == Collect(tensors, InputPick)
    && labels == Collect(tensors, LabelsPick)
    && layers == Collect(tensors, IosLayerPick)
  }

  /**
   * The walk: breadth-first from the outputs, each tensor handled once; a
   * tensor without inputs is a source, an input placeholder goes to the
   * inputs, a labels placeholder to the labels, and the layer of a layer
   * tensor to the layers, each list added to only when it lacks the entry.
   */
  method IosWalk(outputs: seq<Tensor>)
    returns (tensors: seq<Tensor>, sources: seq<Tensor>, inputs: seq<Tensor>, labels: seq<Tensor>, layers: seq<Layer>)
    ensures IsIosWalk(outputs, tensors, sources, inputs, labels, layers)
  {
    ghost var R := ReachAll(outputs);
    var handled: seq<Tensor> := [];
    var tensorHandled: set<Tensor> := {};
    sources, inputs, labels, layers := [], [], [], [];
    var current := outputs;
    ghost var firstRound := true;
    WalkStart(outputs);
    while |current| > 0
      invariant WalkInv(outputs, R, handled, tensorHandled, current, 0, [], firstRound, tensorHandled)
      invariant sources == Collect(handled, SourcePick) && inputs == Collect(handled, InputPick)
      invariant labels == Collect(handled, LabelsPick) && layers == Collect(handled, IosLayerPick)
      decreases R - tensorHandled, |current|
    {
      ghost var hs0 := tensorHandled;
      var next;
      handled, tensorHandled, next, sources, inputs, labels, layers :=
        IosRound(outputs, R, handled, tensorHandled, current, firstRound, sources, inputs, labels, layers);
      WalkRound(outputs, R, handled, tensorHandled, current, next, firstRound, hs0);
      if tensorHandled != hs0 {
        SmallerRemainder(R, hs0, tensorHandled);
      }
      current := next;
      firstRound := false;
    }
    WalkDone(outputs, handled, tensorHandled);
    tensors := handled;
  }

  /** One round of the walk. */
  method IosRound(outputs: seq<Tensor>, ghost R: set<Tensor>, handled: seq<Tensor>, tensorHandled: set<Tensor>,
                  current: seq<Tensor>, ghost firstRound: bool,
                  sources: seq<Tensor>, inputs: seq<Tensor>, labels: seq<Tensor>, layers: seq<Layer>)
    returns (handled': seq<Tensor>, tensorHandled': set<Tensor>, next: seq<Tensor>,
             sources': seq<Tensor>, inputs': seq<Tensor>, labels': seq<Tensor>, layers': seq<Layer>)
    requires R == ReachAll(outputs)
    requires WalkInv(outputs, R, handled, tensorHandled, current, 0, [], firstRound, tensorHandled)
    requires sources == Collect(handled, SourcePick) && inputs == Collect(handled, InputPick)
    requires labels == Collect(handled, LabelsPick) && layers == Collect(handled, IosLayerPick)
    ensures WalkInv(outputs, R, handled', tensorHandled', current, |current|, next, firstRound, tensorHandled)
    ensures sources' == Collect(handled', SourcePick) && inputs' == Collect(handled', InputPick)
    ensures labels' == Collect(handled', LabelsPick) && layers' == Collect(handled', IosLayerPick)
  {
    handled', tensorHandled', next := handled, tensorHandled, [];
    sources', inputs', labels', layers' := sources, inputs, labels, layers;
    for k := 0 to |current|
      invariant WalkInv(outputs, R, handled', tensorHandled', current, k, next, firstRound, tensorHandled)
      invariant sources' == Collect(handled', SourcePick) && inputs' == Collect(handled', InputPick)
      invariant labels' == Collect(handled', LabelsPick) && layers' == Collect(handled', IosLayerPick)
    {
      var t := current[k];
      if t !in tensorHandled' {
        WalkHandle(outputs, R, handled', tensorHandled', current, k, next, firstRound, tensorHandled);
        sources', inputs', labels', layers' := IosHandle(handled', t, sources', inputs', labels', layers');
        handled' := handled' + [t];
        tensorHandled' := tensorHandled' + {t};
        next := next + Inputs(t);
      } else {
        WalkSkip(outputs, R, handled', tensorHandled', current, k, next, firstRound, tensorHandled);
      }
    }
  }

  /** Handling one tensor: the source check, then input, labels or layer tensor. */
  method IosHandle(handled: seq<Tensor>, t: Tensor,
                   sources: seq<Tensor>, inputs: seq<Tensor>, labels: seq<Tensor>, layers: seq<Layer>)
    returns (sources': seq<Tensor>, inputs': seq<Tensor>, labels': seq<Tensor>, layers': seq<Layer>)
    requires sources == Collect(handled, SourcePick) && inputs == Collect(handled, InputPick)
    requires labels == Collect(handled, LabelsPick) && layers == Collect(handled, IosLayerPick)
    ensures sources' == Collect(handled + [t], SourcePick) && inputs' == Collect(handled + [t], InputPick)
    ensures labels' == Collect(handled + [t], LabelsPick) && layers' == Collect(handled + [t], IosLayerPick)
  {
    CollectSnoc(handled, t, SourcePick);
    CollectSnoc(handled, t, InputPick);
    CollectSnoc(handled, t, LabelsPick);
    CollectSnoc(handled, t, IosLayerPick);
    sources', inputs', labels', layers' := sources, inputs, labels, layers;
    if |Inputs(t)| == 0 {
      if t !in sources' {
        sources' := sources' + [t];
      }
    }
    if t.kind.InputKind? {
      if t !in inputs' {
        inputs' := inputs' + [t];
      }
    } else if t.kind.LabelsKind? {
      if t !in labels' {
        labels' := labels' + [t];
      }
    } else if t.kind.LayerKind? {
      if t.kind.layer !in layers' {
        layers' := layers' + [t.kind.layer];
      }
    }
  }

  class IosModel {
    const outputs: seq<Tensor>
    const trainingTensor: Tensor
    const tensors: seq<Tensor>
    const sources: seq<Tensor>
    const inputs: seq<Tensor>
    const labels: seq<Tensor>
    const layers: seq<Layer>

    /**
     * Model(outputs) for a non-empty output list: the training tensor is the
     * single output, or the outputs added together; the walk fills the lists.
     */
    constructor (counters: Counters, outputs: seq<Tensor>)
      requires |outputs| > 0
      modifies counters
      ensures this.outputs == outputs
      ensures |outputs| == 1 ==> trainingTensor == outputs[0]
      ensures TensorFactories.IsSumOf(trainingTensor, outputs)
      ensures IsIosWalk(outputs, tensors, sources, inputs, labels, layers)
    {
      this.outputs := outputs;
      var sum := TensorFactories.Sum(counters, outputs);
      trainingTensor := sum.value;
      var ts, srcs, ins, lbls, ls := IosWalk(outputs);
      tensors, sources, inputs, labels, layers := ts, srcs, ins, lbls, ls;
    }
  }

  /** new Model(outputs) with its guard: no outputs is an ArgumentException. */
  method NewIosModel(counters: Counters, outputs: seq<Tensor>) returns (r: Outcome<IosModel>)
    modifies counters
    ensures r.Fail? <==> |outputs| == 0
    ensures r.Fail? ==> r.error == Argument("outputs")
    ensures r.Ok? ==> fresh(r.value) && r.value.outputs == outputs
    ensures r.Ok? && |outputs| == 1 ==> r.value.trainingTensor == outputs[0]
    ensures r.Ok? ==> TensorFactories.IsSumOf(r.value.trainingTensor, outputs)
    ensures r.Ok? ==> IsIosWalk(outputs, r.value.tensors, r.value.sources, r.value.inputs, r.value.labels, r.value.layers)
  {
    if |outputs| < 1 {
      return Fail(Argument("outputs"));
    }
    var m := new IosModel(counters, outputs);
    return Ok(m);
  }

  // ---------------------------------------------------------------- what the lists hold

  /**
   * The identity model: a model whose only output is an input placeholder
   * has that tensor as its only tensor, one input, no labels, one source and
   * no layers.
   */
  lemma IdentityModel(x: Tensor, tensors: seq<Tensor>, sources: seq<Tensor>, inputs: seq<Tensor>,
                      labels: seq<Tensor>, layers: seq<Layer>)
    requires x.kind.InputKind?
    requires IsIosWalk([x], tensors, sources, inputs, labels, layers)
    ensures tensors == [x]
    ensures |inputs| == 1 && |labels| == 0 && |sources| == 1 && |layers| == 0
  {
    assert ReachAll([x]) == {x} by {
      assert [x][1..] == [];
    }
    DistinctCardinality(tensors);
    assert Elems(tensors) == {x};
    assert |tensors| == 1;
    assert tensors[0] in Elems(tensors);
    assert tensors[0] == x;
    assert tensors == [x];
    assert InputPick(x) == Some(x) && SourcePick(x) == Some(x);
    assert LabelsPick(x) == None && IosLayerPick(x) == None;
    assert forall t :: t in Elems(tensors) ==> t == x;
    CollectExactly(tensors, InputPick, {x});
    CollectExactly(tensors, SourcePick, {x});
    CollectExactly(tensors, LabelsPick, {});
    CollectExactly(tensors, IosLayerPick, {});
  }

  lemma ReachOfSum(x0: Tensor, x1: Tensor, y: Tensor)
    requires x0.kind.InputKind? && x1.kind.InputKind?
    requires y.kind.LayerKind? && y.kind.layerInputs == [x0, x1]
    ensures ReachAll([y]) == {y, x0, x1}
  {
    assert [y][1..] == [] && [x0, x1][1..] == [x1] && [x1][1..] == [];
    assert ReachAll([x1]) == {x1};
    assert ReachAll([x0, x1]) == {x0, x1};
    assert Reach(y) == {y, x0, x1};
    assert ReachAll([y]) == Reach(y);
  }

  lemma NoLabelsAmong(tensors: seq<Tensor>, y: Tensor, x0: Tensor, x1: Tensor)
    requires Elems(tensors) == {y, x0, x1}
    requires y.kind.LayerKind? && x0.kind.InputKind? && x1.kind.InputKind?
    ensures Collect(tensors, LabelsPick) == []
  {
    forall t | t in Elems(tensors)
      ensures LabelsPick(t) == None
    {
    }
    CollectExactly(tensors, LabelsPick, {});
  }

  /**
   * Two input placeholders added by one layer: the model has three tensors,
   * two inputs, two sources, one layer and no labels.
   */
  lemma TwoInputModel(x0: Tensor, x1: Tensor, y: Tensor, tensors: seq<Tensor>, sources: seq<Tensor>,
                      inputs: seq<Tensor>, labels: seq<Tensor>, layers: seq<Layer>)
    requires x0.kind.InputKind? && x1.kind.InputKind? && x0 != x1
    requires y.kind.LayerKind? && y.kind.layerInputs == [x0, x1]
    requires IsIosWalk([y], tensors, sources, inputs, labels, layers)
    ensures |tensors| == 3 && |inputs| == 2 && |sources| == 2 && |layers| == 1 && |labels| == 0
  {
    ReachOfSum(x0, x1, y);
    var R := {y, x0, x1};
    assert Elems(tensors) == R;
    DistinctCardinality(tensors);
    assert |R| == 3;
    CollectTwo(tensors, InputPick, y, x0, x1);
    CollectTwo(tensors, SourcePick, y, x0, x1);
    CollectOne(tensors, IosLayerPick, y, x0, x1, y.kind.layer);
    NoLabelsAmong(tensors, y, x0, x1);
  }

  /** A pick that keeps the two inputs and drops the layer tensor collects two tensors. */
  lemma CollectTwo(tensors: seq<Tensor>, pick: Tensor -> Option<Tensor>, y: Tensor, x0: Tensor, x1: Tensor)
    requires Elems(tensors) == {y, x0, x1} && x0 != x1
    requires pick(x0) == Some(x0) && pick(x1) == Some(x1) && pick(y) == None
    ensures |Collect(tensors, pick)| == 2
  {
    assert x0 in Elems(tensors) && x1 in Elems(tensors);
    CollectExactly(tensors, pick, {x0, x1});
  }

  /** A pick that keeps only the layer tensor's value collects one value. */
  lemma CollectOne<X>(tensors: seq<Tensor>, pick: Tensor -> Option<X>, y: Tensor, x0: Tensor, x1: Tensor, v: X)
    requires Elems(tensors) == {y, x0, x1}
    requires pick(y) == Some(v) && pick(x0) == None && pick(x1) == None
    ensures |Collect(tensors, pick)| == 1
  {
    assert y in Elems(tensors);
    CollectExactly(tensors, pick, {v});
  }
}
