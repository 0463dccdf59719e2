/**
 * Models (MetalTensors/Model.cs and MetalTensors/CompiledModel.cs).  A Model
 * is a trainable layer built from input and output tensors: its constructor
 * walks the graph from the outputs and keeps the tensors, sources, layers
 * and submodels it finds; it can be called as a layer, remapped onto new
 * inputs, summarised and compiled.  The Layer part of a model (name, id,
 * trainable flag, parameter count, the loss list Layer declares) is a Graph
 * Layer object; a model tensor refers to that object.
 */
module Models {
  import opened Common
  import Text
  import Shapes
  import opened Graph
  import opened Walk
  import Mapping

  // ---------------------------------------------------------------- the walk (main tree)

  /**
   * The graph walk of the Model constructor: a breadth-first pass from the
   * outputs that handles each tensor once and collects, as it goes, the
   * tensors without inputs, the layers of layer tensors and base models of
   * model tensors, and the base models alone.
   */
  method MacWalk(outputs: seq<Tensor>)
    returns (tensors: seq<Tensor>, sources: seq<Tensor>, layers: seq<Layer>, submodels: seq<Layer>)
    ensures IsMacWalk(outputs, tensors, sources, layers, submodels)
  {
    ghost var R := ReachAll(outputs);
    var handled: seq<Tensor> := [];
    var tensorHandled: set<Tensor> := {};
    sources, layers, submodels := [], [], [];
    var current := outputs;
    ghost var firstRound := true;
    WalkStart(outputs);
    while |current| > 0
      invariant WalkInv(outputs, R, handled, tensorHandled, current, 0, [], firstRound, tensorHandled)
      invariant sources == Collect(handled, SourcePick)
      invariant layers == Collect(handled, LayerPick)
      invariant submodels == Collect(handled, SubmodelPick)
      decreases R - tensorHandled, |current|
    {
      ghost var hs0 := tensorHandled;
      var next;
      handled, tensorHandled, next, sources, layers, submodels :=
        MacRound(outputs, R, handled, tensorHandled, current, firstRound, sources, layers, submodels);
      WalkRound(outputs, R, handled, tensorHandled, current, next, firstRound, hs0);
      if tensorHandled != hs0 {
        SmallerRemainder(R, hs0, tensorHandled);
      }
      current := next;
      firstRound := false;
    }
    WalkDone(outputs, handled, tensorHandled);
    tensors := handled;
  }

  /** One round of the walk: each tensor of the round not yet handled is handled and its inputs queued. */
  method MacRound(outputs: seq<Tensor>, ghost R: set<Tensor>, handled: seq<Tensor>, tensorHandled: set<Tensor>,
                  current: seq<Tensor>, ghost firstRound: bool,
                  sources: seq<Tensor>, layers: seq<Layer>, submodels: seq<Layer>)
    returns (handled': seq<Tensor>, tensorHandled': set<Tensor>, next: seq<Tensor>,
             sources': seq<Tensor>, layers': seq<Layer>, submodels': seq<Layer>)
    requires R == ReachAll(outputs)
    requires WalkInv(outputs, R, handled, tensorHandled, current, 0, [], firstRound, tensorHandled)
    requires sources == Collect(handled, SourcePick) && layers == Collect(handled, LayerPick)
    requires submodels == Collect(handled, SubmodelPick)
    ensures WalkInv(outputs, R, handled', tensorHandled', current, |current|, next, firstRound, tensorHandled)
    ensures sources' == Collect(handled', SourcePick) && layers' == Collect(handled', LayerPick)
    ensures submodels' == Collect(handled', SubmodelPick)
  {
    handled', tensorHandled', next := handled, tensorHandled, [];
    sources', layers', submodels' := sources, layers, submodels;
    for k := 0 to |current|
      invariant WalkInv(outputs, R, handled', tensorHandled', current, k, next, firstRound, tensorHandled)
      invariant sources' == Collect(handled', SourcePick) && layers' == Collect(handled', LayerPick)
      invariant submodels' == Collect(handled', SubmodelPick)
    {
      var t := current[k];
      if t !in tensorHandled' {
        WalkHandle(outputs, R, handled', tensorHandled', current, k, next, firstRound, tensorHandled);
        sources', layers', submodels' := MacHandle(handled', t, sources', layers', submodels');
        handled' := handled' + [t];
        tensorHandled' := tensorHandled' + {t};
        next := next + Inputs(t);
      } else {
        WalkSkip(outputs, R, handled', tensorHandled', current, k, next, firstRound, tensorHandled);
      }
    }
  }

  /**
   * Handling one tensor: with no inputs it is a source; a layer tensor
   * contributes its layer, a model tensor its base model to both the layers
   * and the submodels; each list is added to only when it lacks the entry.
   */
  method MacHandle(handled: seq<Tensor>, t: Tensor, sources: seq<Tensor>, layers: seq<Layer>, submodels: seq<Layer>)
    returns (sources': seq<Tensor>, layers': seq<Layer>, submodels': seq<Layer>)
    requires sources == Collect(handled, SourcePick) && layers == Collect(handled, LayerPick)
    requires submodels == Collect(handled, SubmodelPick)
    ensures sources' == Collect(handled + [t], SourcePick) && layers' == Collect(handled + [t], LayerPick)
    ensures submodels' == Collect(handled + [t], SubmodelPick)
  {
    CollectSnoc(handled, t, SourcePick);
    CollectSnoc(handled, t, LayerPick);
    CollectSnoc(handled, t, SubmodelPick);
    sources', layers', submodels' := sources, layers, submodels;
    var tins := Inputs(t);
    if |tins| == 0 {
      if t !in sources' {
        sources' := sources' + [t];
      }
    }
    if t.kind.LayerKind? {
      if t.kind.layer !in layers' {
        layers' := layers' + [t.kind.layer];
      }
    } else if t.kind.ModelKind? {
      if t.kind.baseModel !in layers' {
        layers' := layers' + [t.kind.baseModel];
      }
      if t.kind.baseModel !in submodels' {
        submodels' := submodels' + [t.kind.baseModel];
      }
    }
  }

  /** What the walk's lists mean: every list is free of repetitions and holds exactly the picks of the reachable tensors. */
  lemma WalkListsMeaning(outputs: seq<Tensor>, tensors: seq<Tensor>)
    requires Elems(tensors) == ReachAll(outputs)
    ensures Elems(Collect(tensors, SourcePick)) == (set x | x in ReachAll(outputs) && Inputs(x) == [])
    ensures Elems(Collect(tensors, LayerPick)) ==
      (set x | x in ReachAll(outputs) && LayerPick(x).Some? :: LayerPick(x).value)
    ensures Elems(Collect(tensors, SubmodelPick)) ==
      (set x | x in ReachAll(outputs) && x.kind.ModelKind? :: x.kind.baseModel)
    ensures Distinct(Collect(tensors, SourcePick)) && Distinct(Collect(tensors, LayerPick))
    ensures Distinct(Collect(tensors, SubmodelPick))
  {
    SourcesMeaning(outputs, tensors);
    LayersMeaning(outputs, tensors);
    SubmodelsMeaning(outputs, tensors);
  }

  /** The sources are the reachable tensors without inputs, each once. */
  lemma SourcesMeaning(outputs: seq<Tensor>, tensors: seq<Tensor>)
    requires Elems(tensors) == ReachAll(outputs)
    ensures Elems(Collect(tensors, SourcePick)) == (set x | x in ReachAll(outputs) && Inputs(x) == [])
    ensures Distinct(Collect(tensors, SourcePick))
  {
    var S := set x | x in ReachAll(outputs) && Inputs(x) == [];
    forall y | y in S
      ensures exists t :: t in Elems(tensors) && SourcePick(t) == Some(y)
    {
      assert SourcePick(y) == Some(y);
    }
    CollectExactly(tensors, SourcePick, S);
    CollectMembers(tensors, SourcePick);
  }

  /** The layers are those of the reachable layer and model tensors, each once. */
  lemma LayersMeaning(outputs: seq<Tensor>, tensors: seq<Tensor>)
    requires Elems(tensors) == ReachAll(outputs)
    ensures Elems(Collect(tensors, LayerPick)) ==
      (set x | x in ReachAll(outputs) && LayerPick(x).Some? :: LayerPick(x).value)
    ensures Distinct(Collect(tensors, LayerPick))
  {
    var L := set x | x in ReachAll(outputs) && LayerPick(x).Some? :: LayerPick(x).value;
    forall l | l in L
      ensures exists t :: t in Elems(tensors) && LayerPick(t) == Some(l)
    {
      var x :| x in ReachAll(outputs) && LayerPick(x).Some? && LayerPick(x).value == l;
      assert LayerPick(x) == Some(l);
    }
    CollectExactly(tensors, LayerPick, L);
    CollectMembers(tensors, LayerPick);
  }

  /** The submodels are the base models of the reachable model tensors, each once. */
  lemma SubmodelsMeaning(outputs: seq<Tensor>, tensors: seq<Tensor>)
    requires Elems(tensors) == ReachAll(outputs)
    ensures Elems(Collect(tensors, SubmodelPick)) ==
      (set x | x in ReachAll(outputs) && x.kind.ModelKind? :: x.kind.baseModel)
    ensures Distinct(Collect(tensors, SubmodelPick))
  {
    var M := set x | x in ReachAll(outputs) && x.kind.ModelKind? :: x.kind.baseModel;
    forall l | l in M
      ensures exists t :: t in Elems(tensors) && SubmodelPick(t) == Some(l)
    {
      var x :| x in ReachAll(outputs) && x.kind.ModelKind? && x.kind.baseModel == l;
      assert SubmodelPick(x) == Some(l);
    }
    CollectExactly(tensors, SubmodelPick, M);
    CollectMembers(tensors, SubmodelPick);
  }

  /** The first tensor handled is the first output. */
  lemma WalkStartsAtFirstOutput(outputs: seq<Tensor>, tensors: seq<Tensor>)
    requires |outputs| > 0 && Dedup(outputs) <= tensors
    ensures |tensors| > 0 && tensors[0] == outputs[0]
  {
    DedupFirst(outputs);
  }

  /** The results of the constructor's walk, as MacWalk establishes them. */
  ghost predicate IsMacWalk(outputs: seq<Tensor>, tensors: seq<Tensor>, sources: seq<Tensor>,
                            layers: seq<Layer>, submodels: seq<Layer>)
  {
    && Distinct(tensors)
    && Elems(tensors) == ReachAll(outputs)
    && Dedup(outputs) <= tensors
    && sources == Collect(tensors, SourcePick)
    && layers == Collect(tensors, LayerPick)
    && submodels == Collect(tensors, SubmodelPick)
  }

  /** Layers.Sum (x => x.ParameterCount). */
  function SumParameters(ls: seq<Layer>): int
    decreases |ls|
  {
    if ls == [] then 0 else SumParameters(ls[..|ls| - 1]) + ls[|ls| - 1].parameterCount
  }

  /** With no negative counts, the total bounds every layer's count from above. */
  lemma {:induction false} SumParametersBounds(ls: seq<Layer>, i: int)
    requires forall j :: 0 <= j < |ls| ==> ls[j].parameterCount >= 0
    requires 0 <= i < |ls|
    ensures SumParameters(ls) >= ls[i].parameterCount
    ensures SumParameters(ls) >= 0
    decreases |ls|
  {
    var p := ls[..|ls| - 1];
    if |p| > 0 {
      if i < |p| {
        SumParametersBounds(p, i);
      } else {
        SumParametersBounds(p, 0);
      }
    }
  }

  lemma SumParametersBoundsAll(ls: seq<Layer>)
    ensures (forall i :: 0 <= i < |ls| ==> ls[i].parameterCount >= 0) ==>
      SumParameters(ls) >= 0 && forall j :: 0 <= j < |ls| ==> SumParameters(ls) >= ls[j].parameterCount
  {
    if forall i :: 0 <= i < |ls| ==> ls[i].parameterCount >= 0 {
      if |ls| > 0 {
        forall j | 0 <= j < |ls|
          ensures SumParameters(ls) >= ls[j].parameterCount
        {
          SumParametersBounds(ls, j);
        }
        SumParametersBounds(ls, 0);
      }
    }
  }

  // ---------------------------------------------------------------- the model

  /** A model's name when none is given: the first output's label followed by " Model". */
  function ModelName(name: Option<string>, outputs: seq<Tensor>): Option<string>
  {
    if name.Some? then name else if |outputs| > 0 then Some(HandleLabel(outputs[0]) + " Model") else None
  }

  class Model {
    /** The Layer part: name, id, shape rule, MinInputCount, ParameterCount, IsTrainable, Layer's loss list. */
    const layer: Layer
    const inputs: seq<Tensor>
    const outputs: seq<Tensor>
    const tensors: seq<Tensor>
    const sources: seq<Tensor>
    const layers: seq<Layer>
    const submodels: seq<Layer>
    /** The loss list Model declares itself (it hides Layer's). */
    var losses: seq<Tensor>

    /**
     * Model(inputs, outputs, name, isTrainable, losses) for a non-empty
     * output list: the Layer part is named by the given name or after the
     * first output, answers the first output's shape and asks for as many
     * inputs as the model has; the walk fills the lists.
     */
    constructor (counters: Counters, inputs: seq<Tensor>, outputs: seq<Tensor>, name: Option<string>,
                 isTrainable: bool, losses: seq<Tensor>)
      requires |outputs| > 0
      modifies counters
      ensures fresh(layer)
      ensures counters.lastLayerId == old(counters.lastLayerId) + 1
      ensures counters.lastConfigurableId == old(counters.lastConfigurableId)
      ensures layer.name == DefaultedName(ModelName(name, outputs), "Model", counters.lastLayerId)
      ensures layer.typeName == "Model" && layer.rule == ModelRule(ShapeOf(outputs[0]))
      ensures layer.minInputCount == |inputs| && layer.parameterCount == SumParameters(layers)
      ensures layer.isTrainable == isTrainable && layer.losses == [] && layer.filterNodes == map[]
      ensures this.inputs == inputs && this.outputs == outputs && this.losses == losses
      ensures IsMacWalk(outputs, tensors, sources, layers, submodels)
      ensures Valid()
    {
      var ts, srcs, ls, subs := MacWalk(outputs);
      layer := new Layer(counters, ModelName(name, outputs), "Model", ModelRule(ShapeOf(outputs[0])),
                         |inputs|, SumParameters(ls), [], isTrainable);
      this.inputs := inputs;
      this.outputs := outputs;
      tensors := ts;
      sources := srcs;
      layers := ls;
      submodels := subs;
      this.losses := losses;
    }

    /** What every model satisfies once constructed. */
    ghost predicate Valid()
    {
      && layer.typeName == "Model" && layer.rule.ModelRule? && |outputs| > 0
      && layer.rule == ModelRule(ShapeOf(outputs[0])) && layer.minInputCount == |inputs|
      && layer.parameterCount == SumParameters(layers)
      && IsMacWalk(outputs, tensors, sources, layers, submodels)
    }

    /** Model.AddLoss: appends to the model's own loss list. */
    method AddLoss(loss: Tensor)
      modifies this
      ensures losses == old(losses) + [loss]
    {
      losses := losses + [loss];
    }

    /** ParameterCount: the parameters of the distinct layers and base models the walk found. */
    function ParameterCount(): (r: int)
      ensures (forall i :: 0 <= i < |layers| ==> layers[i].parameterCount >= 0) ==>
        r >= 0 && forall j :: 0 <= j < |layers| ==> r >= layers[j].parameterCount
    {
      SumParametersBoundsAll(layers);
      SumParameters(layers)
    }

    /**
     * The guard both Predict overloads start with: exactly one input and
     * one output, else InvalidOperationException.
     */
    function PredictGuard(): (r: Outcome<()>)
      ensures r.Ok? <==> |inputs| == 1 && |outputs| == 1
      ensures |inputs| != 1 ==> r == Fail(InvalidOperation(
        "Prediction with one input requires a model with one input (model has " + Text.IntToString(|inputs|) + " inputs)"))
      ensures |inputs| == 1 && |outputs| != 1 ==> r == Fail(InvalidOperation("Use PredictMany for models with multiple outputs"))
    {
      if |inputs| != 1 then
        Fail(InvalidOperation("Prediction with one input requires a model with one input (model has "
                              + Text.IntToString(|inputs|) + " inputs)"))
      else if |outputs| != 1 then Fail(InvalidOperation("Use PredictMany for models with multiple outputs"))
      else Ok(())
    }

    /** Call(inputs) = GetOutput(0, inputs): a model tensor over this model's first output. */
    method Call(counters: Counters, callInputs: seq<Tensor>) returns (r: Tensor)
      requires Valid()
      modifies counters
      ensures counters.lastConfigurableId == old(counters.lastConfigurableId) + 1
      ensures counters.lastLayerId == old(counters.lastLayerId)
      ensures r.id == counters.lastConfigurableId && r.givenLabel == Some(layer.name)
      ensures r.kind == ModelKind(layer, 0, callInputs, layer.rule.outputShape)
      ensures ShapeOf(r) == ShapeOf(outputs[0])
    {
      var id := counters.NextConfigurableId();
      r := Tensor(id, Some(layer.name), ModelKind(layer, 0, callInputs, layer.rule.outputShape));
    }

    /**
     * Model.MapInputs(map) as written: every input and every output is
     * replaced by x.MapInputs(map), and the results make a new model named
     * "<name> Mapped" that keeps IsTrainable.
     */
    method MapInputs(counters: Counters, m: map<Tensor, Tensor>) returns (r: Outcome<Model>)
      modifies counters
      ensures r.Ok? ==> fresh(r.value) && fresh(r.value.layer)
      ensures r.Ok? ==> (|r.value.inputs| == |inputs| &&
        forall i :: 0 <= i < |inputs| ==> Mapping.InputsMappedBy(m, inputs[i], r.value.inputs[i]))
      ensures r.Ok? ==> (|r.value.outputs| == |outputs| &&
        forall i :: 0 <= i < |outputs| ==> Mapping.InputsMappedBy(m, outputs[i], r.value.outputs[i]))
      ensures r.Ok? ==> r.value.layer.name == DefaultedName(Some(layer.name + " Mapped"), "Model", counters.lastLayerId)
      ensures r.Ok? ==> r.value.layer.isTrainable == layer.isTrainable && r.value.losses == []
    {
      var ninputs :- MapEachInputs(counters, inputs, m);
      var noutputs :- MapEachInputs(counters, outputs, m);
      var nm :- NewModel(counters, ninputs, noutputs, Some(layer.name + " Mapped"), true, []);
      nm.layer.isTrainable := layer.isTrainable;
      return Ok(nm);
    }

    /** Model.MapInputs(f): the same with every input and output replaced by x.MapInputs(f). */
    method MapInputsWith(counters: Counters, f: Tensor -> Tensor) returns (r: Outcome<Model>, ghost inTraces: seq<Mapping.Trace>, ghost outTraces: seq<Mapping.Trace>)
      modifies counters
      ensures r.Ok? ==> fresh(r.value) && fresh(r.value.layer)
      ensures r.Ok? ==> (|r.value.inputs| == |inputs| == |inTraces| &&
        forall i :: 0 <= i < |inputs| ==> Mapping.MappedWith(f, inputs[i], inTraces[i]) && r.value.inputs[i] == inTraces[i].rebuilt)
      ensures r.Ok? ==> (|r.value.outputs| == |outputs| == |outTraces| &&
        forall i :: 0 <= i < |outputs| ==> Mapping.MappedWith(f, outputs[i], outTraces[i]) && r.value.outputs[i] == outTraces[i].rebuilt)
      ensures r.Ok? ==> forall i :: 0 <= i < |inputs| && !inputs[i].kind.LayerKind? ==> r.value.inputs[i] == inputs[i]
      ensures r.Ok? ==> r.value.layer.name == DefaultedName(Some(layer.name + " Mapped"), "Model", counters.lastLayerId)
      ensures r.Ok? ==> r.value.layer.isTrainable == layer.isTrainable && r.value.losses == []
    {
      var ninputs, noutputs;
      ninputs, inTraces := MapEachWith(counters, inputs, f);
      if ninputs.Fail? {
        return Fail(ninputs.error), inTraces, [];
      }
      noutputs, outTraces := MapEachWith(counters, outputs, f);
      if noutputs.Fail? {
        return Fail(noutputs.error), inTraces, outTraces;
      }
      var nm := NewModel(counters, ninputs.value, noutputs.value, Some(layer.name + " Mapped"), true, []);
      if nm.Fail? {
        return Fail(nm.error), inTraces, outTraces;
      }
      nm.value.layer.isTrainable := layer.isTrainable;
      return Ok(nm.value), inTraces, outTraces;
    }

    /**
     * RebuildModelWithInputs(inputs) as written: a count other than the
     * model's input count is rejected; otherwise each old input is mapped to
     * the new one at its position and the model is remapped with MapInputs.
     */
    method RebuildModelWithInputs(counters: Counters, newInputs: seq<Tensor>) returns (r: Outcome<Model>)
      modifies counters
      ensures |newInputs| != |inputs| ==> r == Fail(ArgumentOutOfRange(RebuildMessage(|inputs|, |newInputs|)))
      ensures r.Ok? ==> (fresh(r.value) && |r.value.inputs| == |inputs| &&
        forall i :: 0 <= i < |inputs| ==> Mapping.InputsMappedBy(InputMap(inputs, newInputs), inputs[i], r.value.inputs[i]))
      ensures r.Ok? ==> (|r.value.outputs| == |outputs| &&
        forall i :: 0 <= i < |outputs| ==> Mapping.InputsMappedBy(InputMap(inputs, newInputs), outputs[i], r.value.outputs[i]))
    {
      if |newInputs| != |inputs| {
        return Fail(ArgumentOutOfRange(RebuildMessage(|inputs|, |newInputs|)));
      }
      var m := BuildInputMap(inputs, newInputs);
      r := MapInputs(counters, m);
    }

    /**
     * RebuildModelWithInputs as evidently intended: the inputs and outputs
     * are mapped with the dictionary Map, which looks each tensor up first,
     * so the new model's inputs are the given ones.
     */
    method RebuildModelWithInputsCorrected(counters: Counters, newInputs: seq<Tensor>) returns (r: Outcome<Model>)
      modifies counters
      ensures |newInputs| != |inputs| ==> r == Fail(ArgumentOutOfRange(RebuildMessage(|inputs|, |newInputs|)))
      ensures r.Ok? ==> fresh(r.value) && |r.value.inputs| == |inputs|
      ensures r.Ok? && Distinct(inputs) ==> r.value.inputs == newInputs
      ensures r.Ok? ==> Mapping.AllMappedBy(InputMap(inputs, newInputs), outputs, r.value.outputs)
    {
      if |newInputs| != |inputs| {
        return Fail(ArgumentOutOfRange(RebuildMessage(|inputs|, |newInputs|)));
      }
      var m := BuildInputMap(inputs, newInputs);
      var ninputs :- MapAll(counters, inputs, m);
      var noutputs :- MapAll(counters, outputs, m);
      var nm :- NewModel(counters, ninputs, noutputs, Some(layer.name + " Mapped"), true, []);
      nm.layer.isTrainable := layer.isTrainable;
      if Distinct(inputs) {
        InputMapLookup(inputs, newInputs);
        forall i | 0 <= i < |inputs|
          ensures ninputs[i] == newInputs[i]
        {
          assert Mapping.MappedBy(m, inputs[i], ninputs[i]);
        }
      }
      return Ok(nm);
    }

    /**
     * Summary: the rows written depth first from each output (each tensor id
     * once, every input of a written tensor written too, every output
     * written), and the totals: all parameters, the trainable ones, and the
     * difference reported as non-trainable.  Each tensor's Shape is read as
     * its row is written, so the first row in write order whose shape fails
     * ends Summary with that exception; nothing before it is observable.
     * order lists the tensors in write order.
     */
    method Summary() returns (r: Outcome<Report>, ghost order: seq<Tensor>)
      ensures IdsDistinct(order) && InputsMarked(order, Ids(order))
      ensures forall i :: 0 <= i < |outputs| ==> outputs[i].id in Ids(order)
      ensures r.Ok? <==> forall i :: 0 <= i < |order| ==> ShapeOf(order[i]).Ok?
      ensures r.Fail? ==> exists i :: (0 <= i < |order| && ShapeOf(order[i]) == Fail(r.error)
        && forall k :: 0 <= k < i ==> ShapeOf(order[k]).Ok?)
      ensures r.Ok? ==> var rep := r.value;
        && |rep.rows| == |order| && (forall i :: 0 <= i < |order| ==> rep.rows[i] == RowOf(order[i]))
        && rep.total == SumCounts(rep.rows) && rep.trainable == SumTrainable(rep.rows)
        && rep.nonTrainable == rep.total - rep.trainable
    {
      var rows, total, trainable;
      rows, order, total, trainable := WriteOutputs(outputs);
      var failure := FirstShapeFailure(rows);
      if failure.Some? {
        return Fail(rows[failure.value].shape.error), order;
      }
      return Ok(Report(rows, total, trainable, total - trainable)), order;
    }
  }

  /** The loop of Summary: WTensor for each output in turn, from nothing written and zero totals. */
  method WriteOutputs(outs: seq<Tensor>) returns (rows: seq<Row>, ghost order: seq<Tensor>, total: int, trainable: int)
    ensures |rows| == |order| && forall i :: 0 <= i < |order| ==> rows[i] == RowOf(order[i])
    ensures IdsDistinct(order) && InputsMarked(order, Ids(order))
    ensures forall i :: 0 <= i < |outs| ==> outs[i].id in Ids(order)
    ensures total == SumCounts(rows) && trainable == SumTrainable(rows)
  {
    var wrote: set<int> := {};
    rows, order, total, trainable := [], [], 0, 0;
    for k := 0 to |outs|
      invariant RowsWritten(rows, order, {}, wrote)
      invariant forall i :: 0 <= i < k ==> outs[i].id in wrote
      invariant total == SumCounts(rows) && trainable == SumTrainable(rows)
    {
      rows, order, wrote, total, trainable := WriteMore(outs[k], {}, rows, order, wrote, total, trainable);
    }
  }

  /**
   * new Model(...) with its guard: the Layer constructor has drawn an id
   * before an empty output list is rejected with ArgumentException.
   */
  method NewModel(counters: Counters, inputs: seq<Tensor>, outputs: seq<Tensor>, name: Option<string>,
                  isTrainable: bool, losses: seq<Tensor>) returns (r: Outcome<Model>)
    modifies counters
    ensures counters.lastLayerId == old(counters.lastLayerId) + 1
    ensures counters.lastConfigurableId == old(counters.lastConfigurableId)
    ensures r.Fail? <==> |outputs| == 0
    ensures r.Fail? ==> r.error == Argument("outputs")
    ensures r.Ok? ==> fresh(r.value) && fresh(r.value.layer)
    ensures r.Ok? ==> r.value.inputs == inputs && r.value.outputs == outputs && r.value.losses == losses
    ensures r.Ok? ==> r.value.layer.name == DefaultedName(ModelName(name, outputs), "Model", counters.lastLayerId)
    ensures r.Ok? ==> r.value.layer.isTrainable == isTrainable && r.value.layer.losses == []
    ensures r.Ok? ==> IsMacWalk(outputs, r.value.tensors, r.value.sources, r.value.layers, r.value.submodels)
    ensures r.Ok? ==> r.value.Valid()
  {
    if |outputs| < 1 {
      var _ := counters.NextLayerId();
      return Fail(Argument("outputs"));
    }
    var model := new Model(counters, inputs, outputs, name, isTrainable, losses);
    return Ok(model);
  }

  // ---------------------------------------------------------------- remapping helpers

  /** Inputs.Select (x => x.MapInputs (map)).ToArray (). */
  method MapEachInputs(counters: Counters, ts: seq<Tensor>, m: map<Tensor, Tensor>) returns (r: Outcome<seq<Tensor>>)
    modifies counters
    ensures r.Ok? ==> |r.value| == |ts| && forall i :: 0 <= i < |ts| ==> Mapping.InputsMappedBy(m, ts[i], r.value[i])
  {
    var acc: seq<Tensor> := [];
    for i := 0 to |ts|
      invariant |acc| == i && forall j :: 0 <= j < i ==> Mapping.InputsMappedBy(m, ts[j], acc[j])
    {
      var x :- Mapping.MapInputs(counters, ts[i], m);
      acc := acc + [x];
    }
    return Ok(acc);
  }

  /** Inputs.Select (x => x.MapInputs (f)).ToArray (). */
  method MapEachWith(counters: Counters, ts: seq<Tensor>, f: Tensor -> Tensor) returns (r: Outcome<seq<Tensor>>, ghost trs: seq<Mapping.Trace>)
    modifies counters
    ensures r.Ok? ==> (|r.value| == |ts| == |trs| &&
      forall i :: 0 <= i < |ts| ==> Mapping.MappedWith(f, ts[i], trs[i]) && r.value[i] == trs[i].rebuilt)
    ensures r.Ok? ==> forall i :: 0 <= i < |ts| && !ts[i].kind.LayerKind? ==> r.value[i] == ts[i]
  {
    var acc: seq<Tensor> := [];
    trs := [];
    for i := 0 to |ts|
      invariant |acc| == i == |trs|
      invariant forall j :: 0 <= j < i ==> Mapping.MappedWith(f, ts[j], trs[j]) && acc[j] == trs[j].rebuilt
      invariant forall j :: 0 <= j < i && !ts[j].kind.LayerKind? ==> acc[j] == ts[j]
    {
      var x, tr := Mapping.MapInputsWith(counters, ts[i], f);
      if x.Fail? {
        return Fail(x.error), trs;
      }
      acc := acc + [x.value];
      trs := trs + [tr];
    }
    return Ok(acc), trs;
  }

  /** The dictionary Map over a list, through an array as TensorExtensions.Map takes one. */
  method MapAll(counters: Counters, ts: seq<Tensor>, m: map<Tensor, Tensor>) returns (r: Outcome<seq<Tensor>>)
    modifies counters
    ensures r.Ok? ==> Mapping.AllMappedBy(m, ts, r.value)
  {
    var a := new Tensor[|ts|](i requires 0 <= i < |ts| => ts[i]);
    assert a[..] == ts;
    var mapped :- Mapping.Map(counters, a, m);
    return Ok(mapped[..]);
  }

  /** The exception text of RebuildModelWithInputs's count check. */
  function RebuildMessage(expected: int, provided: int): string
  {
    "Model expects " + Text.IntToString(expected) + " inputs, " + Text.IntToString(provided) + " provided"
  }

  /** The dictionary `map[Inputs[i]] = inputs[i]` builds, a later key overwriting an earlier one. */
  function InputMap(keys: seq<Tensor>, values: seq<Tensor>): map<Tensor, Tensor>
    requires |keys| == |values|
    decreases |keys|
  {
    if keys == [] then map[]
    else InputMap(keys[..|keys| - 1], values[..|keys| - 1])[keys[|keys| - 1] := values[|keys| - 1]]
  }

  /** Without repeated keys, each key is mapped to the value at its position. */
  lemma {:induction false} InputMapLookup(keys: seq<Tensor>, values: seq<Tensor>)
    requires |keys| == |values| && Distinct(keys)
    ensures forall i :: 0 <= i < |keys| ==> keys[i] in InputMap(keys, values) && InputMap(keys, values)[keys[i]] == values[i]
    decreases |keys|
  {
    if keys != [] {
      var n := |keys| - 1;
      InputMapLookup(keys[..n], values[..n]);
      forall i | 0 <= i < n
        ensures keys[i] != keys[n] && keys[..n][i] == keys[i] && values[..n][i] == values[i]
      {
      }
    }
  }

  /** The loop of RebuildModelWithInputs that fills the dictionary. */
  method BuildInputMap(keys: seq<Tensor>, values: seq<Tensor>) returns (m: map<Tensor, Tensor>)
    requires |keys| == |values|
    ensures m == InputMap(keys, values)
    ensures Distinct(keys) ==> forall i :: 0 <= i < |keys| ==> keys[i] in m && m[keys[i]] == values[i]
  {
    m := map[];
    for i := 0 to |keys|
      invariant m == InputMap(keys[..i], values[..i])
    {
      assert keys[..i + 1][..i] == keys[..i] && values[..i + 1][..i] == values[..i];
      m := m[keys[i] := values[i]];
    }
    assert keys[..|keys|] == keys && values[..|keys|] == values;
    if Distinct(keys) {
      InputMapLookup(keys, values);
    }
  }

  // ---------------------------------------------------------------- the finding on RebuildModelWithInputs

  /**
   * As written, a placeholder input is rebuilt by its own MapInputs, which
   * returns it unchanged: the remapped model keeps its old inputs whatever
   * the dictionary says.
   */
  lemma RebuildKeepsPlaceholderInputs(m: map<Tensor, Tensor>, ins: seq<Tensor>, nins: seq<Tensor>)
    requires |nins| == |ins|
    requires forall i :: 0 <= i < |ins| ==> ins[i].kind.InputKind? && Mapping.InputsMappedBy(m, ins[i], nins[i])
    ensures nins == ins
  {
  }

  /**
   * The input that shows it: rebuilding a one-input model on a new input z
   * leaves the old input x as the new model's input.
   */
  lemma RebuildIgnoresNewInput()
    ensures var x := Tensor(2, Some("x"), InputKind([1]));
            var z := Tensor(3, Some("z"), InputKind([1]));
            var m := InputMap([x], [z]);
            x in m && m[x] == z &&
            forall r :: Mapping.InputsMappedBy(m, x, r) ==> r == x && r != z
  {
    var x := Tensor(2, Some("x"), InputKind([1]));
    var z := Tensor(3, Some("z"), InputKind([1]));
    assert [x][..0] == [] && [z][..0] == [];
  }

  // ---------------------------------------------------------------- Summary

  /** One line of Summary: the tensor id, its name column, its shape, its parameter count and whether they train. */
  datatype Row = Row(id: int, name: string, shape: Outcome<seq<int>>, pcount: int, trainable: bool)

  /** What Summary reports: its rows and the three totals. */
  datatype Report = Report(rows: seq<Row>, total: int, trainable: int, nonTrainable: int)

  /** The index of the first row whose shape failed, if any. */
  function FirstShapeFailure(rows: seq<Row>): (r: Option<nat>)
    ensures r.None? <==> forall i :: 0 <= i < |rows| ==> rows[i].shape.Ok?
    ensures r.Some? ==> (r.value < |rows| && rows[r.value].shape.Fail?
      && forall k :: 0 <= k < r.value ==> rows[k].shape.Ok?)
    decreases |rows|
  {
    if rows == [] then None
    else if rows[0].shape.Fail? then Some(0)
    else
      var rest := FirstShapeFailure(rows[1..]);
      if rest.None? then None else Some(rest.value + 1)
  }

  /** Type.Name.Replace ("Layer", ""): every occurrence removed, left to right. */
  function RemoveLayerWord(s: string): (r: string)
    ensures |r| <= |s|
    decreases |s|
  {
    if |s| < 5 then s
    else if s[..5] == "Layer" then RemoveLayerWord(s[5..])
    else [s[0]] + RemoveLayerWord(s[1..])
  }

  /** The row WTensor writes for a tensor. */
  function RowOf(t: Tensor): Row
    reads if t.kind.LayerKind? then {t.kind.layer} else if t.kind.ModelKind? then {t.kind.baseModel} else {}
  {
    match t.kind
    case LayerKind(l, _) =>
      Row(t.id, l.name + " (" + RemoveLayerWord(l.typeName) + ")", ShapeOf(t), l.parameterCount, l.isTrainable)
    case ModelKind(b, _, _, _) =>
      Row(t.id, b.name + " (" + b.typeName + ")", ShapeOf(t), b.parameterCount, b.isTrainable)
    case _ =>
      Row(t.id, "Tensor#" + Text.IntToString(t.id) + " (" + TypeName(t.kind) + ")", ShapeOf(t), 0, false)
  }

  function SumCounts(rows: seq<Row>): int
    decreases |rows|
  {
    if rows == [] then 0 else SumCounts(rows[..|rows| - 1]) + rows[|rows| - 1].pcount
  }

  function SumTrainable(rows: seq<Row>): int
    decreases |rows|
  {
    if rows == [] then 0
    else SumTrainable(rows[..|rows| - 1]) + (if rows[|rows| - 1].trainable then rows[|rows| - 1].pcount else 0)
  }

  lemma {:induction false} SumsAppend(a: seq<Row>, b: seq<Row>)
    ensures SumCounts(a + b) == SumCounts(a) + SumCounts(b)
    ensures SumTrainable(a + b) == SumTrainable(a) + SumTrainable(b)
    decreases |b|
  {
    if b != [] {
      var b' := b[..|b| - 1];
      SumsAppend(a, b');
      assert (a + b)[..|a + b| - 1] == a + b';
      assert (a + b)[|a + b| - 1] == b[|b| - 1];
    } else {
      assert a + b == a;
    }
  }

  /** With no negative counts, the trainable parameters never exceed the total. */
  lemma {:induction false} TrainableAtMostTotal(rows: seq<Row>)
    requires forall i :: 0 <= i < |rows| ==> rows[i].pcount >= 0
    ensures 0 <= SumTrainable(rows) <= SumCounts(rows)
    decreases |rows|
  {
    if rows != [] {
      TrainableAtMostTotal(rows[..|rows| - 1]);
    }
  }

  function Ids(ts: seq<Tensor>): set<int>
  {
    set x | x in ts :: x.id
  }

  predicate IdsDistinct(ts: seq<Tensor>)
  {
    forall i, j :: 0 <= i < j < |ts| ==> ts[i].id != ts[j].id
  }

  /** Every input of every listed tensor has its id in w. */
  predicate InputsMarked(ts: seq<Tensor>, w: set<int>)
  {
    forall i, j :: 0 <= i < |ts| && 0 <= j < |Inputs(ts[i])| ==> Inputs(ts[i])[j].id in w
  }

  lemma IdsAppend(a: seq<Tensor>, b: seq<Tensor>)
    ensures Ids(a + b) == Ids(a) + Ids(b)
  {
    forall id | id in Ids(a + b)
      ensures id in Ids(a) + Ids(b)
    {
      var x :| x in a + b && x.id == id;
    }
    forall id | id in Ids(a) + Ids(b)
      ensures id in Ids(a + b)
    {
      if id in Ids(a) {
        var x :| x in a && x.id == id;
        assert x in a + b;
      } else {
        var x :| x in b && x.id == id;
        assert x in a + b;
      }
    }
  }

  lemma RowsAppend(ra: seq<Row>, a: seq<Tensor>, rb: seq<Row>, b: seq<Tensor>)
    requires |ra| == |a| && forall i :: 0 <= i < |a| ==> ra[i] == RowOf(a[i])
    requires |rb| == |b| && forall i :: 0 <= i < |b| ==> rb[i] == RowOf(b[i])
    ensures |ra + rb| == |a + b| && forall i :: 0 <= i < |a + b| ==> (ra + rb)[i] == RowOf((a + b)[i])
  {
    forall i | 0 <= i < |a + b|
      ensures (ra + rb)[i] == RowOf((a + b)[i])
    {
      if i >= |a| {
        assert (ra + rb)[i] == rb[i - |a|] && (a + b)[i] == b[i - |a|];
      }
    }
  }

  /** Appending what a nested WTensor wrote keeps the written list's invariants. */
  lemma WrittenMore(rows: seq<Row>, order: seq<Tensor>, more: seq<Row>, moreOrder: seq<Tensor>,
                    marked: set<int>, w: set<int>, w2: set<int>)
    requires |rows| == |order| && forall i :: 0 <= i < |order| ==> rows[i] == RowOf(order[i])
    requires |more| == |moreOrder| && forall i :: 0 <= i < |moreOrder| ==> more[i] == RowOf(moreOrder[i])
    requires w == marked + Ids(order) && IdsDistinct(order) && InputsMarked(order, w)
    requires forall i :: 0 <= i < |order| ==> order[i].id !in marked
    requires w2 == w + Ids(moreOrder) && IdsDistinct(moreOrder) && InputsMarked(moreOrder, w2)
    requires forall i :: 0 <= i < |moreOrder| ==> moreOrder[i].id !in w
    ensures |rows + more| == |order + moreOrder|
    ensures forall i :: 0 <= i < |order + moreOrder| ==> (rows + more)[i] == RowOf((order + moreOrder)[i])
    ensures w2 == marked + Ids(order + moreOrder) && IdsDistinct(order + moreOrder)
    ensures InputsMarked(order + moreOrder, w2)
    ensures forall i :: 0 <= i < |order + moreOrder| ==> (order + moreOrder)[i].id !in marked
    ensures SumCounts(rows + more) == SumCounts(rows) + SumCounts(more)
    ensures SumTrainable(rows + more) == SumTrainable(rows) + SumTrainable(more)
  {
    SumsAppend(rows, more);
    RowsAppend(rows, order, more, moreOrder);
    IdsAppend(order, moreOrder);
    IdsDistinctAppend(order, moreOrder);
    InputsMarkedAppend(order, moreOrder, w, w2);
    forall i | 0 <= i < |order + moreOrder|
      ensures (order + moreOrder)[i].id !in marked
    {
      if i >= |order| {
        assert (order + moreOrder)[i] == moreOrder[i - |order|];
      }
    }
  }

  /** Writing t's row after its inputs keeps the written list's invariants. */
  lemma WrittenLast(order: seq<Tensor>, t: Tensor, marked: set<int>, w: set<int>)
    requires InputsMarked(order, w) && forall j :: 0 <= j < |Inputs(t)| ==> Inputs(t)[j].id in w
    requires IdsDistinct(order) && t.id in marked && forall i :: 0 <= i < |order| ==> order[i].id !in marked
    ensures InputsMarked(order + [t], w) && IdsDistinct(order + [t])
    ensures Ids(order + [t]) == Ids(order) + {t.id}
  {
    assert InputsMarked([t], w);
    InputsMarkedAppend(order, [t], w, w);
    IdsAppend(order, [t]);
    assert Ids([t]) == {t.id};
    IdsDistinctAppend(order, [t]);
  }

  lemma IdsDistinctAppend(a: seq<Tensor>, b: seq<Tensor>)
    requires IdsDistinct(a) && IdsDistinct(b)
    requires forall i :: 0 <= i < |b| ==> b[i].id !in Ids(a)
    ensures IdsDistinct(a + b)
  {
    forall i, j | 0 <= i < j < |a + b|
      ensures (a + b)[i].id != (a + b)[j].id
    {
      if i < |a| && j >= |a| {
        assert a[i] in a;
        assert (a + b)[j] == b[j - |a|];
      }
    }
  }

  lemma InputsMarkedAppend(a: seq<Tensor>, b: seq<Tensor>, w: set<int>, w': set<int>)
    requires InputsMarked(a, w) && w <= w' && InputsMarked(b, w')
    ensures InputsMarked(a + b, w')
  {
    forall i, j | 0 <= i < |a + b| && 0 <= j < |Inputs((a + b)[i])|
      ensures Inputs((a + b)[i])[j].id in w'
    {
      if i >= |a| {
        assert (a + b)[i] == b[i - |a|];
      }
    }
  }

  /**
   * WTensor(t): nothing if t's id was written; otherwise the id is marked,
   * the inputs are written first, then t's row, and its parameters are
   * added to the totals (to the trainable total when its layer trains).
   * The rows it writes are returned; order lists their tensors.
   */
  method WriteTensor(t: Tensor, wrote: set<int>, numParams: int, numTrainable: int)
    returns (wrote': set<int>, rows: seq<Row>, ghost order: seq<Tensor>, numParams': int, numTrainable': int)
    ensures |rows| == |order| && forall i :: 0 <= i < |order| ==> rows[i] == RowOf(order[i])
    ensures wrote' == wrote + Ids(order) && t.id in wrote'
    ensures IdsDistinct(order) && forall i :: 0 <= i < |order| ==> order[i].id !in wrote
    ensures InputsMarked(order, wrote')
    ensures t.id in wrote ==> order == []
    ensures t.id !in wrote ==> (|order| > 0 && order[|order| - 1] == t &&
      forall j :: 0 <= j < |Inputs(t)| ==> Inputs(t)[j].id in wrote + {t.id} + Ids(order[..|order| - 1]))
    ensures numParams' == numParams + SumCounts(rows) && numTrainable' == numTrainable + SumTrainable(rows)
    decreases t, 1
  {
    if t.id in wrote {
      assert Ids([]) == {};
      return wrote, [], [], numParams, numTrainable;
    }
    wrote', rows, order, numParams', numTrainable' := WriteNew(t, wrote, numParams, numTrainable);
  }

  /** WTensor(t) for a t not yet written: its inputs first, then its own row last. */
  method WriteNew(t: Tensor, wrote: set<int>, numParams: int, numTrainable: int)
    returns (wrote': set<int>, rows: seq<Row>, ghost order: seq<Tensor>, numParams': int, numTrainable': int)
    requires t.id !in wrote
    ensures |rows| == |order| && forall i :: 0 <= i < |order| ==> rows[i] == RowOf(order[i])
    ensures wrote' == wrote + Ids(order) && t.id in wrote'
    ensures IdsDistinct(order) && forall i :: 0 <= i < |order| ==> order[i].id !in wrote
    ensures InputsMarked(order, wrote')
    ensures |order| > 0 && order[|order| - 1] == t
    ensures forall j :: 0 <= j < |Inputs(t)| ==> Inputs(t)[j].id in wrote + {t.id} + Ids(order[..|order| - 1])
    ensures numParams' == numParams + SumCounts(rows) && numTrainable' == numTrainable + SumTrainable(rows)
    decreases t, 0
  {
    var wrote1 := wrote + {t.id};
    wrote' := wrote1;
    rows, order, numParams', numTrainable' := [], [], numParams, numTrainable;
    var ins := Inputs(t);
    for k := 0 to |ins|
      invariant RowsWritten(rows, order, wrote1, wrote')
      invariant forall j :: 0 <= j < k ==> ins[j].id in wrote'
      invariant numParams' == numParams + SumCounts(rows) && numTrainable' == numTrainable + SumTrainable(rows)
    {
      rows, order, wrote', numParams', numTrainable' := WriteMore(ins[k], wrote1, rows, order, wrote', numParams', numTrainable');
    }
    var row := RowOf(t);
    numParams' := numParams' + row.pcount;
    if row.trainable {
      numTrainable' := numTrainable' + row.pcount;
    }
    WrittenTail(rows, order, t, wrote, wrote');
    rows, order := rows + [row], order + [t];
  }

  /**
   * The rows written so far: one per tensor of order, each tensor id once,
   * none of them among the ids marked beforehand, and every input of a
   * written tensor marked.
   */
  ghost predicate RowsWritten(rows: seq<Row>, order: seq<Tensor>, marked: set<int>, wrote: set<int>)
    reads *
  {
    && |rows| == |order| && (forall i :: 0 <= i < |order| ==> rows[i] == RowOf(order[i]))
    && wrote == marked + Ids(order) && IdsDistinct(order) && InputsMarked(order, wrote)
    && (forall i :: 0 <= i < |order| ==> order[i].id !in marked)
  }

  /**
   * One step of WTensor's loop: WTensor(u) on top of what is written so far,
   * with the rows it writes appended; marked is what was written before the
   * loop began.
   */
  method WriteMore(u: Tensor, marked: set<int>, rows: seq<Row>, ghost order: seq<Tensor>, wrote: set<int>,
                   numParams: int, numTrainable: int)
    returns (rows': seq<Row>, ghost order': seq<Tensor>, wrote': set<int>, numParams': int, numTrainable': int)
    requires RowsWritten(rows, order, marked, wrote)
    ensures RowsWritten(rows', order', marked, wrote')
    ensures wrote <= wrote' && u.id in wrote'
    ensures numParams' - SumCounts(rows') == numParams - SumCounts(rows)
    ensures numTrainable' - SumTrainable(rows') == numTrainable - SumTrainable(rows)
    decreases u, 2
  {
    var w2, more, moreOrder, p2, t2 := WriteTensor(u, wrote, numParams, numTrainable);
    WrittenMore(rows, order, more, moreOrder, marked, wrote, w2);
    rows', order', wrote', numParams', numTrainable' := rows + more, order + moreOrder, w2, p2, t2;
  }

  /** Appending t's own row after its inputs' rows completes what WTensor(t) promises. */
  lemma WrittenTail(rows: seq<Row>, order: seq<Tensor>, t: Tensor, wrote: set<int>, w: set<int>)
    requires t.id !in wrote
    requires |rows| == |order| && forall i :: 0 <= i < |order| ==> rows[i] == RowOf(order[i])
    requires w == wrote + {t.id} + Ids(order)
    requires IdsDistinct(order) && forall i :: 0 <= i < |order| ==> order[i].id !in wrote + {t.id}
    requires InputsMarked(order, w)
    requires forall j :: 0 <= j < |Inputs(t)| ==> Inputs(t)[j].id in w
    ensures var rows', order' := rows + [RowOf(t)], order + [t];
      && |rows'| == |order'| && (forall i :: 0 <= i < |order'| ==> rows'[i] == RowOf(order'[i]))
      && w == wrote + Ids(order') && IdsDistinct(order') && (forall i :: 0 <= i < |order'| ==> order'[i].id !in wrote)
      && InputsMarked(order', w)
      && order'[|order'| - 1] == t
      && (forall j :: 0 <= j < |Inputs(t)| ==> Inputs(t)[j].id in wrote + {t.id} + Ids(order'[..|order'| - 1]))
      && SumCounts(rows') == SumCounts(rows) + RowOf(t).pcount
      && SumTrainable(rows') == SumTrainable(rows) + (if RowOf(t).trainable then RowOf(t).pcount else 0)
  {
    WrittenLast(order, t, wrote + {t.id}, w);
    RowsAppend(rows, order, [RowOf(t)], [t]);
    assert (order + [t])[..|order|] == order;
    assert (rows + [RowOf(t)])[..|rows|] == rows;
  }

  // ---------------------------------------------------------------- CompiledModel

  /** Loss.Call(output, labels, weight): the loss tensor a loss makes of an output and its labels. */
  type LossCall = (Tensor, Tensor, Float) -> Tensor

  /** A compiled model: the model, its output losses and weights, whether it trains, and the losses it sums. */
  datatype CompiledModel = CompiledModel(model: Model, outputLosses: seq<Option<LossCall>>,
                                         outputLossWeights: seq<Float>, forTraining: bool, losses: seq<Tensor>)

  /** The labels tensor made for an output: named after it, with its (normalized) shape. */
  predicate IsLabelsFor(labels: Tensor, output: Tensor)
  {
    && ShapeOf(output).Ok?
    && labels.givenLabel == Some(HandleLabel(output) + " Labels")
    && labels.kind == LabelsKind(Shapes.Normalized(ShapeOf(output).value))
  }

  /** The loss of each output that has one, in output order, against its labels tensor. */
  function LabelLosses(outputs: seq<Tensor>, losses: seq<Option<LossCall>>, weights: seq<Float>, labels: seq<Tensor>): seq<Tensor>
    requires |losses| == |outputs| && |weights| == |outputs| && |labels| == |outputs|
  {
    LabelLossesUpTo(outputs, losses, weights, labels, |outputs|)
  }

  /** The losses of the first n outputs. */
  function LabelLossesUpTo(outputs: seq<Tensor>, losses: seq<Option<LossCall>>, weights: seq<Float>, labels: seq<Tensor>,
                           n: nat): seq<Tensor>
    requires n <= |outputs| && n <= |losses| && n <= |weights| && n <= |labels|
    decreases n
  {
    if n == 0 then []
    else LabelLossesUpTo(outputs, losses, weights, labels, n - 1) + LossOf(losses[n - 1], outputs[n - 1], labels[n - 1], weights[n - 1])
  }

  /** An output's loss against its labels, if it has a loss. */
  function LossOf(loss: Option<LossCall>, output: Tensor, labels: Tensor, weight: Float): seq<Tensor>
  {
    if loss.Some? then [loss.value(output, labels, weight)] else []
  }

  /** There are no label losses exactly when no output has a loss. */
  lemma LabelLossesEmpty(outputs: seq<Tensor>, losses: seq<Option<LossCall>>, weights: seq<Float>, labels: seq<Tensor>)
    requires |losses| == |outputs| && |weights| == |outputs| && |labels| == |outputs|
    ensures LabelLosses(outputs, losses, weights, labels) == [] <==> forall i :: 0 <= i < |losses| ==> losses[i].None?
  {
    LabelLossesUpToEmpty(outputs, losses, weights, labels, |outputs|);
  }

  lemma {:induction false} LabelLossesUpToEmpty(outputs: seq<Tensor>, losses: seq<Option<LossCall>>, weights: seq<Float>,
                                                labels: seq<Tensor>, n: nat)
    requires n <= |outputs| && n <= |losses| && n <= |weights| && n <= |labels|
    ensures LabelLossesUpTo(outputs, losses, weights, labels, n) == [] <==> forall i :: 0 <= i < n ==> losses[i].None?
    decreases n
  {
    if n > 0 {
      LabelLossesUpToEmpty(outputs, losses, weights, labels, n - 1);
    }
  }

  /** The losses of the first n outputs read only the first n labels. */
  lemma {:induction false} LabelLossesUpToLabels(outputs: seq<Tensor>, losses: seq<Option<LossCall>>, weights: seq<Float>,
                                                 labels: seq<Tensor>, labels': seq<Tensor>, n: nat)
    requires n <= |outputs| && n <= |losses| && n <= |weights| && n <= |labels| && n <= |labels'|
    requires forall i :: 0 <= i < n ==> labels[i] == labels'[i]
    ensures LabelLossesUpTo(outputs, losses, weights, labels, n) == LabelLossesUpTo(outputs, losses, weights, labels', n)
    decreases n
  {
    if n > 0 {
      LabelLossesUpToLabels(outputs, losses, weights, labels, labels', n - 1);
    }
  }

  /** The losses of each layer's Layer loss list, then the model's, in order. */
  function LayerLosses(ls: seq<Layer>): seq<Tensor>
    reads set l | l in ls
    decreases |ls|
  {
    if ls == [] then [] else LayerLosses(ls[..|ls| - 1]) + ls[|ls| - 1].losses
  }

  /**
   * Layers.Append (model).SelectMany (x => x.Losses) as written: x is typed
   * Layer, so the model contributes Layer's loss list, not the list Model
   * declares and fills through its constructor and AddLoss.
   */
  function AddedLossesAsWritten(model: Model): seq<Tensor>
    reads model, model.layer, set l | l in model.layers
  {
    LayerLosses(model.layers + [model.layer])
  }

  /** The same with the model's own loss list, as evidently intended. */
  function AddedLosses(model: Model): seq<Tensor>
    reads model, set l | l in model.layers
  {
    LayerLosses(model.layers) + model.losses
  }

  /** Model losses never reach training as written; the corrected collection holds them at its end. */
  lemma AddedLossesDiffer(model: Model)
    ensures AddedLossesAsWritten(model) == LayerLosses(model.layers) + model.layer.losses
    ensures AddedLosses(model)[|LayerLosses(model.layers)|..] == model.losses
  {
    assert (model.layers + [model.layer])[..|model.layers|] == model.layers;
  }

  /**
   * The input that shows it: a model with no layer losses, no output
   * losses and one loss of its own compiles for training with no losses as
   * written (and fails), while the corrected collection finds the loss.
   */
  lemma ModelLossIgnored(model: Model, loss: Tensor)
    requires model.layers == [] && model.layer.losses == [] && model.losses == [loss]
    ensures AddedLossesAsWritten(model) == [] && AddedLosses(model) == [loss]
  {
    AddedLossesDiffer(model);
  }

  /**
   * new CompiledModel(model, outputLosses, outputLossWeights, ..., forTraining)
   * with the losses collected as written.
   */
  method Compile(counters: Counters, model: Model, outputLosses: seq<Option<LossCall>>, weights: seq<Float>,
                 forTraining: bool) returns (r: Outcome<CompiledModel>, ghost labels: seq<Tensor>)
    modifies counters
    ensures |weights| != |outputLosses| ==> r == Fail(Argument("outputLossWeights"))
    ensures |weights| == |outputLosses| && |model.outputs| != |outputLosses| ==> r == Fail(Argument("outputLosses"))
    ensures r.Ok? ==> |weights| == |outputLosses| == |model.outputs| == |labels|
    ensures r.Ok? ==> r.value.model == model && r.value.forTraining == forTraining
    ensures r.Ok? ==> r.value.outputLosses == outputLosses && r.value.outputLossWeights == weights
    ensures r.Ok? && !forTraining ==> r.value.losses == []
    ensures !forTraining && |weights| == |outputLosses| == |model.outputs| ==> r.Ok?
    ensures r.Ok? && forTraining ==>
      && (forall i :: 0 <= i < |outputLosses| && outputLosses[i].Some? ==> IsLabelsFor(labels[i], model.outputs[i]))
      && r.value.losses == LabelLosses(model.outputs, outputLosses, weights, labels) + AddedLossesAsWritten(model)
      && |r.value.losses| > 0
    ensures (forTraining && |weights| == |outputLosses| == |model.outputs| && AddedLossesAsWritten(model) == []
      && (forall i :: 0 <= i < |outputLosses| ==> outputLosses[i].None?)) ==> r == Fail(InvalidOperation("Model has no losses"))
  {
    r, labels := BuildCompiled(counters, model, outputLosses, weights, forTraining, AddedLossesAsWritten(model));
  }

  /** The constructor with the model's own losses collected, as evidently intended. */
  method CompileCorrected(counters: Counters, model: Model, outputLosses: seq<Option<LossCall>>, weights: seq<Float>,
                          forTraining: bool) returns (r: Outcome<CompiledModel>, ghost labels: seq<Tensor>)
    modifies counters
    ensures |weights| != |outputLosses| ==> r == Fail(Argument("outputLossWeights"))
    ensures |weights| == |outputLosses| && |model.outputs| != |outputLosses| ==> r == Fail(Argument("outputLosses"))
    ensures r.Ok? ==> |weights| == |outputLosses| == |model.outputs| == |labels|
    ensures r.Ok? ==> r.value.model == model && r.value.forTraining == forTraining
    ensures r.Ok? ==> r.value.outputLosses == outputLosses && r.value.outputLossWeights == weights
    ensures r.Ok? && !forTraining ==> r.value.losses == []
    ensures !forTraining && |weights| == |outputLosses| == |model.outputs| ==> r.Ok?
    ensures r.Ok? && forTraining ==>
      && (forall i :: 0 <= i < |outputLosses| && outputLosses[i].Some? ==> IsLabelsFor(labels[i], model.outputs[i]))
      && r.value.losses == LabelLosses(model.outputs, outputLosses, weights, labels) + AddedLosses(model)
      && |r.value.losses| > 0
    ensures forTraining && |weights| == |outputLosses| == |model.outputs| && (forall i :: 0 <= i < |outputLosses| ==> outputLosses[i].None?)
      ==> (r.Ok? <==> AddedLosses(model) != [])
    ensures (forTraining && |weights| == |outputLosses| == |model.outputs| && model.losses != [] &&
      (forall i :: 0 <= i < |outputLosses| ==> outputLosses[i].None?)) ==> r.Ok?
  {
    r, labels := BuildCompiled(counters, model, outputLosses, weights, forTraining, AddedLosses(model));
  }

  /**
   * The body of the CompiledModel constructor: the two count checks, then,
   * for training, a labels tensor and a loss for each output with a loss,
   * followed by the added losses; no losses at all is an
   * InvalidOperationException.  Without training there are no losses.
   */
  method BuildCompiled(counters: Counters, model: Model, outputLosses: seq<Option<LossCall>>, weights: seq<Float>,
                       forTraining: bool, added: seq<Tensor>) returns (r: Outcome<CompiledModel>, ghost labels: seq<Tensor>)
    modifies counters
    ensures |weights| != |outputLosses| ==> r == Fail(Argument("outputLossWeights"))
    ensures |weights| == |outputLosses| && |model.outputs| != |outputLosses| ==> r == Fail(Argument("outputLosses"))
    ensures r.Ok? ==> |weights| == |outputLosses| == |model.outputs| == |labels|
    ensures r.Ok? ==> r.value.model == model && r.value.forTraining == forTraining
    ensures r.Ok? ==> r.value.outputLosses == outputLosses && r.value.outputLossWeights == weights
    ensures r.Ok? && !forTraining ==> r.value.losses == []
    ensures !forTraining && |weights| == |outputLosses| == |model.outputs| ==> r.Ok?
    ensures r.Ok? && forTraining ==>
      && (forall i :: 0 <= i < |outputLosses| && outputLosses[i].Some? ==> IsLabelsFor(labels[i], model.outputs[i]))
      && r.value.losses == LabelLosses(model.outputs, outputLosses, weights, labels) + added
      && |r.value.losses| > 0
    ensures forTraining && |weights| == |outputLosses| == |model.outputs| && (forall i :: 0 <= i < |outputLosses| ==> outputLosses[i].None?)
      ==> (r.Ok? <==> added != [])
    ensures (forTraining && |weights| == |outputLosses| == |model.outputs| && added == []
      && (forall i :: 0 <= i < |outputLosses| ==> outputLosses[i].None?)) ==> r == Fail(InvalidOperation("Model has no losses"))
  {
    labels := [];
    if |weights| != |outputLosses| {
      return Fail(Argument("outputLossWeights")), labels;
    }
    if |model.outputs| != |outputLosses| {
      return Fail(Argument("outputLosses")), labels;
    }
    var outputs := model.outputs;
    if !forTraining {
      return Ok(CompiledModel(model, outputLosses, weights, false, [])), outputs;
    }
    var made;
    made, labels := MakeLabelLosses(counters, outputs, outputLosses, weights);
    if made.Fail? {
      return Fail(made.error), labels;
    }
    var labelLosses := made.value;
    var losses := labelLosses + added;
    if |losses| == 0 {
      return Fail(InvalidOperation("Model has no losses")), labels;
    }
    return Ok(CompiledModel(model, outputLosses, weights, true, losses)), labels;
  }

  /**
   * The training loop of the CompiledModel constructor: a labels tensor for
   * each output with a loss (the output itself stands in for the others) and
   * that loss applied to the output and its labels, in output order.
   */
  method MakeLabelLosses(counters: Counters, outputs: seq<Tensor>, outputLosses: seq<Option<LossCall>>, weights: seq<Float>)
    returns (r: Outcome<seq<Tensor>>, ghost labels: seq<Tensor>)
    requires |weights| == |outputLosses| == |outputs|
    modifies counters
    ensures r.Ok? ==> |labels| == |outputs|
    ensures r.Ok? ==> forall i :: 0 <= i < |outputLosses| && outputLosses[i].Some? ==> IsLabelsFor(labels[i], outputs[i])
    ensures r.Ok? ==> r.value == LabelLosses(outputs, outputLosses, weights, labels)
    ensures (forall i :: 0 <= i < |outputLosses| ==> outputLosses[i].None?) ==> r == Ok([])
  {
    labels := [];
    var labelLosses: seq<Tensor> := [];
    for i := 0 to |outputs|
      invariant |labels| == i && LabelsMade(outputs, outputLosses, weights, labels, labelLosses)
    {
      var step;
      step, labels := MakeLabelLoss(counters, outputs, outputLosses, weights, i, labels, labelLosses);
      if step.Fail? {
        return Fail(step.error), labels;
      }
      labelLosses := step.value;
    }
    return Ok(labelLosses), labels;
  }

  /**
   * The state of the training loop: the labels of each output with a loss
   * so far, the losses made so far, and none while no output had a loss.
   */
  ghost predicate LabelsMade(outputs: seq<Tensor>, losses: seq<Option<LossCall>>, weights: seq<Float>,
                             labels: seq<Tensor>, labelLosses: seq<Tensor>)
    requires |labels| <= |outputs| == |losses| == |weights|
  {
    LabelsPaired(outputs, losses, labels) && LossesMade(outputs, losses, weights, labels, labelLosses)
  }

  /** Each output so far that has a loss is paired with its labels tensor. */
  ghost predicate LabelsPaired(outputs: seq<Tensor>, losses: seq<Option<LossCall>>, labels: seq<Tensor>)
    requires |labels| <= |outputs| == |losses|
  {
    forall j :: 0 <= j < |labels| && losses[j].Some? ==> IsLabelsFor(labels[j], outputs[j])
  }

  /** The losses of the outputs so far, none while no output had a loss. */
  ghost predicate LossesMade(outputs: seq<Tensor>, losses: seq<Option<LossCall>>, weights: seq<Float>,
                             labels: seq<Tensor>, labelLosses: seq<Tensor>)
    requires |labels| <= |outputs| == |losses| == |weights|
  {
    && labelLosses == LabelLossesUpTo(outputs, losses, weights, labels, |labels|)
    && ((forall j :: 0 <= j < |labels| ==> losses[j].None?) ==> labelLosses == [])
  }

  /** One turn of the training loop: the labels for the next output and, if it has a loss, that loss. */
  method MakeLabelLoss(counters: Counters, outputs: seq<Tensor>, losses: seq<Option<LossCall>>, weights: seq<Float>,
                       i: nat, ghost labels: seq<Tensor>, labelLosses: seq<Tensor>)
    returns (r: Outcome<seq<Tensor>>, ghost labels': seq<Tensor>)
    requires i == |labels| < |outputs| == |losses| == |weights| && LabelsMade(outputs, losses, weights, labels, labelLosses)
    modifies counters
    ensures |labels'| == |labels| + 1
    ensures r.Ok? ==> LabelsMade(outputs, losses, weights, labels', r.value)
    ensures losses[i].None? ==> r.Ok?
  {
    var x := outputs[i];
    if losses[i].None? {
      LabelsMadeSnoc(outputs, losses, weights, labels, labelLosses, x);
      return Ok(labelLosses), labels + [x];
    }
    var shape := ShapeOf(x);
    if shape.Fail? {
      return Fail(shape.error), labels + [x];
    }
    var lt := NewLabelsTensor(counters, HandleLabel(x) + " Labels", shape.value);
    assert IsLabelsFor(lt, x);
    LabelsMadeSnoc(outputs, losses, weights, labels, labelLosses, lt);
    return Ok(labelLosses + LossOf(losses[i], x, lt, weights[i])), labels + [lt];
  }

  /** The loop state after the next output's labels l and its loss, if any, are added. */
  lemma LabelsMadeSnoc(outputs: seq<Tensor>, losses: seq<Option<LossCall>>, weights: seq<Float>,
                       labels: seq<Tensor>, labelLosses: seq<Tensor>, l: Tensor)
    requires |labels| < |outputs| == |losses| == |weights| && LabelsMade(outputs, losses, weights, labels, labelLosses)
    requires losses[|labels|].Some? ==> IsLabelsFor(l, outputs[|labels|])
    ensures LabelsMade(outputs, losses, weights, labels + [l],
                       labelLosses + LossOf(losses[|labels|], outputs[|labels|], l, weights[|labels|]))
  {
    LossesMadeSnoc(outputs, losses, weights, labels, labelLosses, l);
    LabelsForSnoc(labels, l, outputs, losses);
  }

  lemma LossesMadeSnoc(outputs: seq<Tensor>, losses: seq<Option<LossCall>>, weights: seq<Float>,
                       labels: seq<Tensor>, labelLosses: seq<Tensor>, l: Tensor)
    requires |labels| < |outputs| == |losses| == |weights| && LossesMade(outputs, losses, weights, labels, labelLosses)
    ensures LossesMade(outputs, losses, weights, labels + [l],
                       labelLosses + LossOf(losses[|labels|], outputs[|labels|], l, weights[|labels|]))
  {
    var i, labels' := |labels|, labels + [l];
    var loss := LossOf(losses[i], outputs[i], l, weights[i]);
    LabelLossesUpToLabels(outputs, losses, weights, labels, labels', i);
    assert labels'[i] == l;
    assert LabelLossesUpTo(outputs, losses, weights, labels', i + 1) == labelLosses + loss;
    if forall j :: 0 <= j < i + 1 ==> losses[j].None? {
      assert loss == [];
    }
  }

  /** Appending the labels of the next output keeps every output with a loss paired with its labels. */
  lemma LabelsForSnoc(labels: seq<Tensor>, l: Tensor, outputs: seq<Tensor>, losses: seq<Option<LossCall>>)
    requires |labels| < |outputs| == |losses|
    requires LabelsPaired(outputs, losses, labels)
    requires losses[|labels|].Some? ==> IsLabelsFor(l, outputs[|labels|])
    ensures LabelsPaired(outputs, losses, labels + [l])
  {
    forall j | 0 <= j < |labels| + 1 && losses[j].Some?
      ensures IsLabelsFor((labels + [l])[j], outputs[j])
    {
      if j < |labels| {
        assert (labels + [l])[j] == labels[j];
      }
    }
  }

  /** new LabelsTensor(label, shape): a labels placeholder with the normalized shape and a fresh id. */
  method NewLabelsTensor(counters: Counters, name: string, shape: seq<int>) returns (t: Tensor)
    modifies counters
    ensures t.givenLabel == Some(name) && t.kind == LabelsKind(Shapes.Normalized(shape))
    ensures counters.lastConfigurableId == old(counters.lastConfigurableId) + 1 && t.id == counters.lastConfigurableId
  {
    var id := counters.NextConfigurableId();
    t := Tensor(id, Some(name), LabelsKind(Shapes.Normalized(shape)));
  }
}
