/**
 * The tensor graph of MetalTensors (main tree).  A tensor is an immutable
 * value: its id, the label it was given, and what kind of tensor it is; a
 * layer tensor names the layer object that produces it and that layer's
 * inputs, so a graph is a finite tree of values sharing layer objects.  Two
 * tensors are the same object exactly when they are equal values, because
 * every constructor draws a fresh id.  Layers are objects: their name, shape
 * rule and parameter count are fixed at construction, their loss list,
 * trainable flag and filter-node cache change in place.
 */
module Graph {
  import opened Common
  import Text
  import Shapes
  import LayerShapes

  // ---------------------------------------------------------------- id counters

  /**
   * The two static counters the constructors draw from: Configurable.nextId
   * (every tensor is a Configurable) and Layer.nextId.  Both are incremented
   * before use.
   */
  class Counters {
    var lastConfigurableId: int
    var lastLayerId: int

    /**
     * At start-up Configurable.Null has already drawn id 1 from a counter
     * that starts at 0; the layer counter starts at 1, so the first layer
     * draws 2.
     */
    constructor ()
      ensures lastConfigurableId == 1 && lastLayerId == 1
    {
      lastConfigurableId := 1;
      lastLayerId := 1;
    }

    /** Interlocked.Increment(ref Configurable.nextId). */
    method NextConfigurableId() returns (id: int)
      modifies this
      ensures id == old(lastConfigurableId) + 1 && lastConfigurableId == id
      ensures lastLayerId == old(lastLayerId)
    {
      lastConfigurableId := lastConfigurableId + 1;
      id := lastConfigurableId;
    }

    /** Interlocked.Increment(ref Layer.nextId). */
    method NextLayerId() returns (id: int)
      modifies this
      ensures id == old(lastLayerId) + 1 && lastLayerId == id
      ensures lastConfigurableId == old(lastConfigurableId)
    {
      lastLayerId := lastLayerId + 1;
      id := lastLayerId;
    }
  }

  /** Two constructions in a row draw strictly increasing ids. */
  method DrawTwoLayerIds(c: Counters) returns (first: int, second: int)
    modifies c
    ensures old(c.lastLayerId) < first < second && second == c.lastLayerId
  {
    first := c.NextLayerId();
    second := c.NextLayerId();
  }

  // ---------------------------------------------------------------- names

  /**
   * The naming rule of Layer's constructor and of TensorHandle: the given
   * name unless it is null or white space, otherwise the type name followed
   * by the id.
   */
  function DefaultedName(given: Option<string>, typeName: string, id: int): (r: string)
    ensures !IsNullOrWhiteSpace(given) ==> r == given.value
    ensures IsNullOrWhiteSpace(given) ==> r == typeName + Text.IntToString(id)
    ensures !IsNullOrWhiteSpace(Some(r))
  {
    if IsNullOrWhiteSpace(given) then
      var digits := Text.IntToString(id);
      var r := typeName + digits;
      assert !IsWhiteSpace(r[|r| - 1]) by {
        assert r[|r| - 1] == digits[|digits| - 1];
        assert Text.IsDigit(digits[|digits| - 1]);
      }
      r
    else given.value
  }

  /** Default names of two objects of one type with different ids differ. */
  lemma DefaultNamesDiffer(typeName: string, a: int, b: int)
    requires a != b
    ensures DefaultedName(None, typeName, a) != DefaultedName(None, typeName, b)
  {
    var na := DefaultedName(None, typeName, a);
    var nb := DefaultedName(None, typeName, b);
    assert na[|typeName|..] == Text.IntToString(a);
    assert nb[|typeName|..] == Text.IntToString(b);
    Text.ParseIntToString(a);
    Text.ParseIntToString(b);
  }

  // ---------------------------------------------------------------- layers

  /**
   * Layer.GetOutputShape of each layer family, with the settings it uses.
   * IdentityRule covers the layers whose output shape is the first input's
   * (Binop, Unop and their subclasses, BatchNorm, Dropout, Reduction); a
   * Model used as a layer answers its first output's shape.
   */
  datatype ShapeRule =
    | IdentityRule
    | ConvRule(sizeX: int, sizeY: int, strideX: int, strideY: int, padding: ConvPadding, featureChannels: int)
    | ConvTransposeRule(inFeatureChannels: int, outFeatureChannels: int, sizeX: int, sizeY: int,
                        strideX: int, strideY: int, padding: ConvPadding)
    | DenseRule(featureChannels: int)
    | ConcatRule
    | UpsampleRule(settings: LayerShapes.UpsampleSettings)
    | MeanRule
    | SpatialMeanRule
    | LossRule
    | ModelRule(outputShape: Outcome<seq<int>>)

  /** The output shape a rule gives for the shapes of its inputs. */
  function RuleShape(rule: ShapeRule, shapes: seq<seq<int>>): Outcome<seq<int>>
  {
    match rule
    case IdentityRule => LayerShapes.IdentityShape(shapes)
    case ConvRule(sx, sy, tx, ty, p, fc) => LayerShapes.ConvShape(shapes, sx, sy, tx, ty, p, fc)
    case ConvTransposeRule(_, ofc, sx, sy, tx, ty, p) => LayerShapes.ConvTransposeShape(shapes, sx, sy, tx, ty, p, ofc)
    case DenseRule(fc) => LayerShapes.DenseShape(shapes, fc)
    case ConcatRule => LayerShapes.ConcatShape(shapes)
    case UpsampleRule(settings) => LayerShapes.UpsampleShape(shapes, settings)
    case MeanRule => LayerShapes.MeanShape(shapes)
    case SpatialMeanRule => LayerShapes.SpatialMeanShape(shapes)
    case LossRule => LayerShapes.LossShape(shapes)
    case ModelRule(s) => s
  }

  /** Layer.ValidateInputShapes of each layer family, on the input shapes. */
  function RuleValidation(rule: ShapeRule, shapes: seq<seq<int>>): Outcome<()>
  {
    match rule
    case ConvTransposeRule(ifc, _, _, _, _, _, _) => LayerShapes.ConvTransposeValidation(shapes, ifc)
    case ConcatRule => LayerShapes.ConcatValidation(shapes)
    case UpsampleRule(_) => LayerShapes.UpsampleValidation(shapes)
    case LossRule => LayerShapes.LossValidation(shapes)
    case _ => Ok(())
  }

  /** Every rule except concatenation reads only the first input's shape. */
  lemma {:induction false} RuleReadsFirstShape(rule: ShapeRule, shapes: seq<seq<int>>)
    requires !rule.ConcatRule? && |shapes| > 0
    ensures RuleShape(rule, shapes) == RuleShape(rule, [shapes[0]])
  {
    match rule
    case ModelRule(_) =>
    case IdentityRule =>
    case ConvRule(sx, sy, tx, ty, p, fc) =>
    case ConvTransposeRule(_, ofc, sx, sy, tx, ty, p) =>
    case DenseRule(fc) =>
    case UpsampleRule(settings) =>
    case MeanRule =>
    case SpatialMeanRule =>
    case LossRule =>
  }

  /** An MPSNNFilterNode built for a layer; only its identity matters here. */
  class FilterNode {
    const key: string

    constructor (key: string)
      ensures this.key == key
    {
      this.key := key;
    }
  }

  /**
   * Layer: the name chosen at construction, the concrete layer type, its shape
   * rule, MinInputCount and ParameterCount, the float settings some layers
   * carry (LinearLayer: scale and offset), and the state that changes in
   * place: IsTrainable, the loss list and the filter-node cache.
   */
  class Layer {
    const name: string
    const typeName: string
    const rule: ShapeRule
    const minInputCount: int
    const parameterCount: int
    const scalars: seq<Float>
    var isTrainable: bool
    var losses: seq<Tensor>
    var filterNodes: map<string, FilterNode>

    /**
     * Layer(name): draws the next layer id and names the layer by it unless
     * a non-blank name is given.
     */
    constructor (counters: Counters, name: Option<string>, typeName: string, rule: ShapeRule,
                 minInputCount: int, parameterCount: int, scalars: seq<Float>, isTrainable: bool)
      modifies counters
      ensures counters.lastLayerId == old(counters.lastLayerId) + 1
      ensures counters.lastConfigurableId == old(counters.lastConfigurableId)
      ensures this.name == DefaultedName(name, typeName, counters.lastLayerId)
      ensures this.typeName == typeName && this.rule == rule && this.minInputCount == minInputCount
      ensures this.parameterCount == parameterCount && this.scalars == scalars
      ensures this.isTrainable == isTrainable && losses == [] && filterNodes == map[]
    {
      var id := counters.NextLayerId();
      this.name := DefaultedName(name, typeName, id);
      this.typeName := typeName;
      this.rule := rule;
      this.minInputCount := minInputCount;
      this.parameterCount := parameterCount;
      this.scalars := scalars;
      this.isTrainable := isTrainable;
      losses := [];
      filterNodes := map[];
    }

    /** AddLoss: appends to the loss list. */
    method AddLoss(loss: Tensor)
      modifies this
      ensures losses == old(losses) + [loss]
      ensures isTrainable == old(isTrainable) && filterNodes == old(filterNodes)
    {
      losses := losses + [loss];
    }

    /** Losses: a snapshot of the loss list in insertion order. */
    function Losses(): (r: seq<Tensor>)
      reads this
      ensures |r| == |losses| && forall i :: 0 <= i < |r| ==> r[i] == losses[i]
    {
      losses
    }

    /**
     * ExecuteAsync(inputs, device): fewer inputs than MinInputCount are
     * rejected before any work is queued; the GPU execution itself is not modelled.
     */
    method ExecuteAsync(inputs: seq<Tensor>) returns (r: Outcome<()>)
      ensures r.Fail? <==> |inputs| < minInputCount
      ensures r.Fail? ==> r.error == Argument("inputs")
    {
      if |inputs| < minInputCount {
        return Fail(Argument("inputs"));
      }
      return Ok(());
    }

    /**
     * GetFilterNode(inputs, context): the node cached under the key made of
     * the context's cache key and the input handles' labels ("Unknown" for an
     * input without a handle); a new node is created and cached otherwise.
     */
    method GetFilterNode(contextKey: string, inputLabels: seq<Option<string>>) returns (node: FilterNode)
      modifies this
      ensures var key := FilterNodeKey(contextKey, inputLabels);
        && key in filterNodes && node == filterNodes[key]
        && (key in old(filterNodes) ==> filterNodes == old(filterNodes))
        && (key !in old(filterNodes) ==> fresh(node) && filterNodes == old(filterNodes)[key := node])
      ensures losses == old(losses) && isTrainable == old(isTrainable)
    {
      var key := FilterNodeKey(contextKey, inputLabels);
      if key in filterNodes {
        return filterNodes[key];
      }
      node := new FilterNode(key);
      filterNodes := filterNodes[key := node];
    }
  }

  /** A second request with the same key returns the node of the first. */
  method GetFilterNodeTwice(layer: Layer, contextKey: string, inputLabels: seq<Option<string>>)
    returns (first: FilterNode, second: FilterNode)
    modifies layer
    ensures first == second
  {
    first := layer.GetFilterNode(contextKey, inputLabels);
    second := layer.GetFilterNode(contextKey, inputLabels);
  }

  /** The label a filter-node key shows for an input: its handle's label, or "Unknown". */
  function LabelOrUnknown(handleLabel: Option<string>): (r: string)
    ensures handleLabel.Some? ==> r == handleLabel.value
    ensures handleLabel.None? ==> r == "Unknown"
  {
    if handleLabel.Some? then handleLabel.value else "Unknown"
  }

  function LabelsOrUnknown(labels: seq<Option<string>>): (r: seq<string>)
    ensures |r| == |labels| && forall i :: 0 <= i < |r| ==> r[i] == LabelOrUnknown(labels[i])
  {
    if labels == [] then [] else [LabelOrUnknown(labels[0])] + LabelsOrUnknown(labels[1..])
  }

  /** context.CacheKey + " + (" + the labels joined by "," + ")". */
  function FilterNodeKey(contextKey: string, inputLabels: seq<Option<string>>): (r: string)
    ensures |r| > |contextKey| && r[..|contextKey|] == contextKey && r[|r| - 1] == ')'
  {
    contextKey + " + (" + Text.Join(",", LabelsOrUnknown(inputLabels)) + ")"
  }

  // ---------------------------------------------------------------- tensors

  /** System.Numerics.Vector4. */
  datatype Float4 = Float4(x: Float, y: Float, z: Float, w: Float)

  /**
   * The concrete tensor classes.  A constant, input or labels tensor keeps
   * the shape its constructor settled on; a model tensor keeps the shape of
   * the base model's selected output, which is fixed once the model exists.
   */
  datatype Kind =
    | ArrayKind(shape: seq<int>, data: seq<Float>)
    | ConstantKind(shape: seq<int>, value: Float)
    | InputKind(shape: seq<int>)
    | LabelsKind(shape: seq<int>)
    | Vector4Kind(vector: Float4)
    | LayerKind(layer: Layer, layerInputs: seq<Tensor>)
    | ModelKind(baseModel: Layer, outputIndex: int, modelInputs: seq<Tensor>, outputShape: Outcome<seq<int>>)

  /** A tensor: its Configurable id, the label passed to its constructor, and its kind. */
  datatype Tensor = Tensor(id: int, givenLabel: Option<string>, kind: Kind)

  /** GetType().Name of each kind. */
  function TypeName(k: Kind): string
  {
    match k
    case ArrayKind(_, _) => "ArrayTensor"
    case ConstantKind(_, _) => "ConstantTensor"
    case InputKind(_) => "InputTensor"
    case LabelsKind(_) => "LabelsTensor"
    case Vector4Kind(_) => "Vector4Tensor"
    case LayerKind(_, _) => "LayerTensor"
    case ModelKind(_, _, _, _) => "ModelTensor"
  }

  /** Tensor.Inputs: a layer tensor's LayerInputs, a model tensor's ModelInputs, none otherwise. */
  function Inputs(t: Tensor): (r: seq<Tensor>)
    ensures t.kind.LayerKind? ==> r == t.kind.layerInputs
    ensures t.kind.ModelKind? ==> r == t.kind.modelInputs
    ensures !t.kind.LayerKind? && !t.kind.ModelKind? ==> r == []
  {
    match t.kind
    case LayerKind(_, ins) => ins
    case ModelKind(_, _, ins, _) => ins
    case _ => []
  }

  /** IsStatic of a placeholder (never) and of a Vector4 tensor (always). */
  predicate IsStatic(t: Tensor)
    requires t.kind.InputKind? || t.kind.LabelsKind? || t.kind.Vector4Kind?
  {
    t.kind.Vector4Kind?
  }

  /**
   * Tensor.Shape.  A layer tensor asks its layer for the output shape of its
   * inputs each time; every rule but concatenation reads only the first
   * input's shape, and indexing an empty input list is IndexOutOfRange.
   */
  function ShapeOf(t: Tensor): Outcome<seq<int>>
    decreases t
  {
    match t.kind
    case ArrayKind(s, _) => Ok(s)
    case ConstantKind(s, _) => Ok(s)
    case InputKind(s) => Ok(s)
    case LabelsKind(s) => Ok(s)
    case Vector4Kind(_) => Ok([4])
    case LayerKind(l, ins) =>
      if l.rule.ConcatRule? then
        var shapes :- ShapesOf(ins);
        LayerShapes.ConcatShape(shapes)
      else if l.rule.ModelRule? then l.rule.outputShape
      else if |ins| == 0 then Fail(IndexOutOfRange)
      else
        var s0 :- ShapeOf(ins[0]);
        RuleShape(l.rule, [s0])
    case ModelKind(_, _, _, s) => s
  }

  /** The shapes of a list of tensors; the first failure is the result. */
  function ShapesOf(ts: seq<Tensor>): (r: Outcome<seq<seq<int>>>)
    ensures r.Ok? ==> |r.value| == |ts|
    decreases ts
  {
    if ts == [] then Ok([])
    else
      var s :- ShapeOf(ts[0]);
      var rest :- ShapesOf(ts[1..]);
      Ok([s] + rest)
  }

  /** ShapesOf succeeds exactly when every shape does, and lists them in order. */
  lemma {:induction false} ShapesOfElements(ts: seq<Tensor>)
    ensures ShapesOf(ts).Ok? <==> forall i :: 0 <= i < |ts| ==> ShapeOf(ts[i]).Ok?
    ensures ShapesOf(ts).Ok? ==> forall i :: 0 <= i < |ts| ==> ShapesOf(ts).value[i] == ShapeOf(ts[i]).value
    decreases |ts|
  {
    if ts != [] {
      ShapesOfElements(ts[1..]);
      assert forall i :: 1 <= i < |ts| ==> ts[1..][i - 1] == ts[i];
    }
  }

  /** LayerTensor.Shape is Layer.GetOutputShape(LayerInputs) on the inputs' shapes. */
  lemma LayerShapeIsRule(id: int, givenLabel: Option<string>, layer: Layer, ins: seq<Tensor>)
    requires ShapesOf(ins).Ok?
    ensures ShapeOf(Tensor(id, givenLabel, LayerKind(layer, ins))) == RuleShape(layer.rule, ShapesOf(ins).value)
  {
    var shapes := ShapesOf(ins).value;
    if !layer.rule.ConcatRule? && !layer.rule.ModelRule? {
      if |ins| == 0 {
        assert RuleShape(layer.rule, shapes) == Fail(IndexOutOfRange);
      } else {
        ShapesOfElements(ins);
        RuleReadsFirstShape(layer.rule, shapes);
      }
    }
  }

  // ---------------------------------------------------------------- validation

  /** ConvTransposeLayer.ValidateInputShapes: each input in turn, reading its shape first. */
  function ConvTransposeInputsCheck(ins: seq<Tensor>, inFeatureChannels: int): Outcome<()>
    decreases |ins|
  {
    if ins == [] then Ok(())
    else
      var s :- ShapeOf(ins[0]);
      if |s| != 3 then Fail(Argument("inputs"))
      else if s[2] != inFeatureChannels then Fail(Argument("inputs"))
      else ConvTransposeInputsCheck(ins[1..], inFeatureChannels)
  }

  /** The loop of ConcatLayer.ValidateInputShapes over the inputs after the first. */
  function ConcatInputsCheck(shape: seq<int>, rest: seq<Tensor>): Outcome<()>
    decreases |rest|
  {
    if rest == [] then Ok(())
    else
      var s :- ShapeOf(rest[0]);
      if |s| != |shape| then Fail(Argument("inputs"))
      else if LayerShapes.PrefixDiffers(s, shape, |shape| - 1) then Fail(Argument("inputs"))
      else ConcatInputsCheck(shape, rest[1..])
  }

  /**
   * Layer.ValidateInputShapes as the layer tensor's constructor runs it: the
   * default accepts everything; the overriding layers read the input shapes
   * in the order their checks need them.
   */
  function ValidateInputs(rule: ShapeRule, ins: seq<Tensor>): Outcome<()>
  {
    match rule
    case ConvTransposeRule(ifc, _, _, _, _, _, _) => ConvTransposeInputsCheck(ins, ifc)
    case ConcatRule =>
      if |ins| == 0 then Fail(IndexOutOfRange)
      else
        var s0 :- ShapeOf(ins[0]);
        if |s0| - 1 == 0 then Ok(()) else ConcatInputsCheck(s0, ins[1..])
    case UpsampleRule(_) =>
      if |ins| == 0 then Fail(IndexOutOfRange)
      else
        var s0 :- ShapeOf(ins[0]);
        LayerShapes.UpsampleValidation([s0])
    case LossRule =>
      if |ins| != 2 then Fail(Argument("inputs"))
      else
        var s0 :- ShapeOf(ins[0]);
        var s1 :- ShapeOf(ins[1]);
        LayerShapes.LossValidation([s0, s1])
    case _ => Ok(())
  }

  lemma {:induction false} ConvTransposeCheckAgrees(ins: seq<Tensor>, ifc: int)
    requires ShapesOf(ins).Ok?
    ensures ConvTransposeInputsCheck(ins, ifc) == LayerShapes.ConvTransposeValidation(ShapesOf(ins).value, ifc)
    decreases |ins|
  {
    if ins != [] {
      ConvTransposeCheckAgrees(ins[1..], ifc);
    }
  }

  lemma {:induction false} ConcatCheckAgrees(shape: seq<int>, rest: seq<Tensor>)
    requires ShapesOf(rest).Ok?
    ensures ConcatInputsCheck(shape, rest) == LayerShapes.ConcatCheck(shape, ShapesOf(rest).value)
    decreases |rest|
  {
    if rest != [] {
      ConcatCheckAgrees(shape, rest[1..]);
    }
  }

  /**
   * When every input has a shape, validating the tensors is the layer's
   * validation of their shapes.
   */
  lemma ValidationIsRuleValidation(rule: ShapeRule, ins: seq<Tensor>)
    requires ShapesOf(ins).Ok?
    ensures ValidateInputs(rule, ins) == RuleValidation(rule, ShapesOf(ins).value)
  {
    var shapes := ShapesOf(ins).value;
    ShapesOfElements(ins);
    match rule
    case ConvTransposeRule(ifc, _, _, _, _, _, _) =>
      ConvTransposeCheckAgrees(ins, ifc);
    case ConcatRule =>
      if |ins| > 0 {
        ShapesOfElements(ins[1..]);
        ConcatCheckAgrees(ShapeOf(ins[0]).value, ins[1..]);
        assert ShapesOf(ins[1..]).value == shapes[1..];
      }
    case UpsampleRule(_) =>
    case LossRule =>
    case _ =>
  }

  /**
   * new LayerTensor(layer, inputs) (the default Layer.Call): the tensor draws
   * its id first, then the layer validates the inputs; the label is the
   * layer's name.
   */
  method NewLayerTensor(counters: Counters, layer: Layer, inputs: seq<Tensor>) returns (r: Outcome<Tensor>)
    modifies counters
    ensures counters.lastConfigurableId == old(counters.lastConfigurableId) + 1
    ensures counters.lastLayerId == old(counters.lastLayerId)
    ensures r.Ok? <==> ValidateInputs(layer.rule, inputs).Ok?
    ensures r.Fail? ==> r.error == ValidateInputs(layer.rule, inputs).error
    ensures r.Ok? ==> r.value == Tensor(counters.lastConfigurableId, Some(layer.name), LayerKind(layer, inputs))
  {
    var id := counters.NextConfigurableId();
    var valid := ValidateInputs(layer.rule, inputs);
    if valid.Fail? {
      return Fail(valid.error);
    }
    return Ok(Tensor(id, Some(layer.name), LayerKind(layer, inputs)));
  }

  /** A layer tensor built from validated inputs lists exactly those inputs and has the rule's shape. */
  lemma LayerTensorProperties(t: Tensor)
    requires t.kind.LayerKind? && ShapesOf(t.kind.layerInputs).Ok?
    ensures Inputs(t) == t.kind.layerInputs
    ensures ShapeOf(t) == RuleShape(t.kind.layer.rule, ShapesOf(Inputs(t)).value)
  {
    LayerShapeIsRule(t.id, t.givenLabel, t.kind.layer, t.kind.layerInputs);
  }

  // ---------------------------------------------------------------- handles

  /** TensorHandle.Label: the tensor's label, defaulted to its type name and id. */
  function HandleLabel(t: Tensor): (r: string)
    ensures !IsNullOrWhiteSpace(t.givenLabel) ==> r == t.givenLabel.value
    ensures !IsNullOrWhiteSpace(Some(r))
  {
    DefaultedName(t.givenLabel, TypeName(t.kind), t.id)
  }

  /** Two tensors of one kind that were given no label have different handle labels. */
  lemma UnlabelledHandlesDiffer(a: Tensor, b: Tensor)
    requires a.givenLabel.None? && b.givenLabel.None? && TypeName(a.kind) == TypeName(b.kind) && a.id != b.id
    ensures HandleLabel(a) != HandleLabel(b)
  {
    DefaultNamesDiffer(TypeName(a.kind), a.id, b.id);
  }

  /** InputHandle.ToString: the label followed by " (Input)". */
  function InputHandleString(t: Tensor): (r: string)
    ensures |r| == |HandleLabel(t)| + 8 && r[..|HandleLabel(t)|] == HandleLabel(t)
    ensures r[|HandleLabel(t)|..] == " (Input)"
  {
    HandleLabel(t) + " (Input)"
  }

  /** LabelsHandle.ToString: the label, then the label of the output it is the labels for. */
  function LabelsHandleString(t: Tensor, outputTensor: Tensor): (r: string)
    ensures |r| > |HandleLabel(t)| && r[..|HandleLabel(t)|] == HandleLabel(t)
    ensures r[|HandleLabel(t)|..] == " (Labels for " + HandleLabel(outputTensor) + ")"
  {
    var own, suffix := HandleLabel(t), " (Labels for " + HandleLabel(outputTensor) + ")";
    assert (own + suffix)[..|own|] == own && (own + suffix)[|own|..] == suffix;
    own + suffix
  }

  // ---------------------------------------------------------------- reachability

  /** The tensors reachable from t through Inputs, t included. */
  ghost function Reach(t: Tensor): set<Tensor>
    decreases t
  {
    match t.kind
    case LayerKind(_, ins) => {t} + ReachAll(ins)
    case ModelKind(_, _, ins, _) => {t} + ReachAll(ins)
    case _ => {t}
  }

  /** The tensors reachable from any of ts. */
  ghost function ReachAll(ts: seq<Tensor>): set<Tensor>
    decreases ts
  {
    if ts == [] then {} else Reach(ts[0]) + ReachAll(ts[1..])
  }

  lemma ReachOfInputs(t: Tensor)
    ensures Reach(t) == {t} + ReachAll(Inputs(t))
  {
  }

  /** A tensor reaches everything its members' reach, and ReachAll is the union over the members. */
  lemma {:induction false} ReachAllMembers(ts: seq<Tensor>, x: Tensor)
    ensures x in ReachAll(ts) <==> exists i :: 0 <= i < |ts| && x in Reach(ts[i])
    decreases |ts|
  {
    if ts != [] {
      ReachAllMembers(ts[1..], x);
      if x in ReachAll(ts[1..]) {
        var i :| 0 <= i < |ts[1..]| && x in Reach(ts[1..][i]);
        assert x in Reach(ts[i + 1]);
      }
      if exists i :: 0 <= i < |ts| && x in Reach(ts[i]) {
        var i :| 0 <= i < |ts| && x in Reach(ts[i]);
        if i > 0 {
          assert ts[1..][i - 1] == ts[i];
        }
      }
    }
  }

  /** Everything reachable from one of ts is reachable from ts. */
  lemma ReachAllContains(ts: seq<Tensor>, i: int)
    requires 0 <= i < |ts|
    ensures Reach(ts[i]) <= ReachAll(ts)
  {
    forall x | x in Reach(ts[i])
      ensures x in ReachAll(ts)
    {
      ReachAllMembers(ts, x);
    }
  }

  /** A set that holds the roots and every input of its members holds everything reachable. */
  lemma {:induction false} ClosedSetHoldsReach(h: set<Tensor>, t: Tensor)
    requires t in h
    requires forall x, j :: x in h && 0 <= j < |Inputs(x)| ==> Inputs(x)[j] in h
    ensures Reach(t) <= h
    decreases t
  {
    match t.kind
    case LayerKind(_, ins) => ClosedSetHoldsReachAll(h, t, ins);
    case ModelKind(_, _, ins, _) => ClosedSetHoldsReachAll(h, t, ins);
    case _ =>
  }

  lemma {:induction false} ClosedSetHoldsReachAll(h: set<Tensor>, parent: Tensor, ins: seq<Tensor>)
    requires Inputs(parent) == ins && parent in h
    requires forall x, j :: x in h && 0 <= j < |Inputs(x)| ==> Inputs(x)[j] in h
    ensures ReachAll(ins) <= h
    decreases parent, 0
  {
    forall x | x in ReachAll(ins)
      ensures x in h
    {
      ReachAllMembers(ins, x);
      var i :| 0 <= i < |ins| && x in Reach(ins[i]);
      assert ins[i] in h;
      ClosedSetHoldsReach(h, ins[i]);
    }
  }

  /** Everything reachable from an input of t is reachable from t. */
  lemma InputsReachable(t: Tensor, j: int)
    requires 0 <= j < |Inputs(t)|
    ensures Reach(Inputs(t)[j]) <= Reach(t)
  {
    ReachAllContains(Inputs(t), j);
  }
}
