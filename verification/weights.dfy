/**
 * MetalTensors/Weights.cs: the registry of a layer's named parameter vectors
 * (stored on first registration, reused afterwards) and the triple of device
 * vectors an optimizer keeps for each parameter.
 */
module Parameters {
  import opened Common
  import opened Metal

  /**
   * OptimizableVector: the value vector with its momentum and velocity, three
   * distinct device buffers, and a flag that makes Dispose run once.
   */
  class OptimizableVector {
    const value: DeviceVector
    const momentum: DeviceVector
    const velocity: DeviceVector
    var disposed: bool

    ghost predicate Valid()
    {
      value != momentum && value != velocity && momentum != velocity
    }

    /** Keeps the three buffers NewOptimizableVector allocated. */
    constructor (value: DeviceVector, momentum: DeviceVector, velocity: DeviceVector)
      requires value != momentum && value != velocity && momentum != velocity
      ensures Valid() && this.value == value && this.momentum == momentum && this.velocity == velocity
      ensures !disposed
    {
      this.value := value;
      this.momentum := momentum;
      this.velocity := velocity;
      disposed := false;
    }

    /** The first call disposes the three buffers once each; every later call does nothing. */
    method Dispose()
      requires Valid()
      modifies this, value, momentum, velocity
      ensures disposed
      ensures value.data == old(value.data) && momentum.data == old(momentum.data) && velocity.data == old(velocity.data)
      ensures value.disposals == old(value.disposals) + (if old(disposed) then 0 else 1)
      ensures momentum.disposals == old(momentum.disposals) + (if old(disposed) then 0 else 1)
      ensures velocity.disposals == old(velocity.disposals) + (if old(disposed) then 0 else 1)
    {
      if !disposed {
        disposed := true;
        velocity.Dispose();
        momentum.Dispose();
        value.Dispose();
      }
    }

    /** Zero: the value, velocity and momentum buffers all become 0, at their lengths. */
    method Zero()
      requires Valid()
      modifies value, momentum, velocity
      ensures value.data == seq(|old(value.data)|, _ => 0.0)
      ensures momentum.data == seq(|old(momentum.data)|, _ => 0.0)
      ensures velocity.data == seq(|old(velocity.data)|, _ => 0.0)
      ensures value.disposals == old(value.disposals) && momentum.disposals == old(momentum.disposals)
      ensures velocity.disposals == old(velocity.disposals)
    {
      value.Zero();
      velocity.Zero();
      momentum.Zero();
    }
  }

  /**
   * new OptimizableVector(device, descriptor): the byte size is computed
   * first, so an unsized element type is NotSupported; then the value vector
   * is allocated, which rejects a length of zero or less with
   * ArgumentOutOfRange "descriptor".  Momentum and velocity, allocated from
   * the same descriptor, start at 0; the value is left as allocated
   * (modelled as 0).
   */
  method NewOptimizableVector(descriptor: VectorDescriptor) returns (r: Outcome<OptimizableVector>)
    ensures r.Ok? <==> ElementByteSize(descriptor.dataType).Ok? && descriptor.length > 0
    ensures ElementByteSize(descriptor.dataType).Fail? ==> r == Fail(NotSupported)
    ensures ElementByteSize(descriptor.dataType).Ok? && descriptor.length <= 0
      ==> r == Fail(ArgumentOutOfRange("descriptor"))
    ensures r.Ok? ==> (fresh(r.value) && fresh(r.value.value) && fresh(r.value.momentum) && fresh(r.value.velocity)
      && r.value.Valid() && !r.value.disposed
      && |r.value.value.data| == descriptor.length && r.value.value.disposals == 0
      && r.value.momentum.data == seq(descriptor.length, _ => 0.0) && r.value.momentum.disposals == 0
      && r.value.velocity.data == seq(descriptor.length, _ => 0.0) && r.value.velocity.disposals == 0)
  {
    var byteSize := DescriptorByteSize(descriptor);
    if byteSize.Fail? {
      return Fail(byteSize.error);
    }
    var value := NewVector(descriptor, 0.0);
    if value.Fail? {
      return Fail(value.error);
    }
    // the same descriptor has just passed the length check
    var momentum := new DeviceVector(descriptor.length, 0.0);
    var velocity := new DeviceVector(descriptor.length, 0.0);
    var v := new OptimizableVector(value.value, momentum, velocity);
    return Ok(v);
  }

  /** Disposing twice disposes each buffer exactly once. */
  method DisposeTwice(v: OptimizableVector)
    requires v.Valid() && !v.disposed
    modifies v, v.value, v.momentum, v.velocity
    ensures v.value.disposals == old(v.value.disposals) + 1
    ensures v.momentum.disposals == old(v.momentum.disposals) + 1
    ensures v.velocity.disposals == old(v.velocity.disposals) + 1
  {
    v.Dispose();
    v.Dispose();
  }

  /** One call of the buffer writer: a parameter name and the floats of its vector. */
  datatype BufferWrite = BufferWrite(name: string, data: seq<Float>)

  /** The names a sequence of writer calls covers. */
  function NamesOf(calls: seq<BufferWrite>): set<string>
  {
    set c | c in calls :: c.name
  }

  /** Weights: stored parameter values by name, and the device vector registered under each name. */
  class Weights {
    var values: map<string, seq<Float>>
    var vectors: map<string, DeviceVector>
    /** Whether the DataSource property is set (non-null). */
    var hasDataSource: bool
    /** How often WriteBuffers asked the data source to download its weights from the GPU. */
    var downloads: nat

    constructor ()
      ensures values == map[] && vectors == map[] && !hasDataSource && downloads == 0
    {
      values := map[];
      vectors := map[];
      hasDataSource := false;
      downloads := 0;
    }

    /** The DataSource setter: only whether a data source is present is modelled. */
    method SetDataSource(present: bool)
      modifies this
      ensures hasDataSource == present
      ensures values == old(values) && vectors == old(vectors) && downloads == old(downloads)
    {
      hasDataSource := present;
    }

    /**
     * AddParameter(name, vector, initialValue).  A name already stored
     * initialises the vector from its stored values and changes nothing else;
     * a new name fills the vector with the initial value, stores a copy of its
     * contents and registers the vector.
     */
    method AddParameter(name: string, vector: DeviceVector, initialValue: Float)
      modifies this, vector
      ensures name in values
      ensures downloads == old(downloads) && hasDataSource == old(hasDataSource)
      ensures name in old(values) ==> (values == old(values) && vectors == old(vectors)
                                        && vector.data == old(values)[name])
      ensures name !in old(values) ==> (vector.data == seq(|old(vector.data)|, _ => initialValue)
                                         && values == old(values)[name := vector.data]
                                         && vectors == old(vectors)[name := vector])
      ensures vector.disposals == old(vector.disposals)
    {
      if name in values {
        vector.Init(values[name]);
      } else {
        vector.Fill(initialValue);
        values := values[name := vector.data];
        vectors := vectors[name := vector];
      }
    }

    /** AddParameter(name, OptimizableVector, initialValue): the same registration for the value vector. */
    method AddOptimizableParameter(name: string, vectors: OptimizableVector, initialValue: Float)
      modifies this, vectors.value
      ensures name in values
      ensures downloads == old(downloads) && hasDataSource == old(hasDataSource)
      ensures name in old(values) ==> (values == old(values) && this.vectors == old(this.vectors)
                                        && vectors.value.data == old(values)[name])
      ensures name !in old(values) ==> (vectors.value.data == seq(|old(vectors.value.data)|, _ => initialValue)
                                         && values == old(values)[name := vectors.value.data]
                                         && this.vectors == old(this.vectors)[name := vectors.value])
    {
      AddParameter(name, vectors.value, initialValue);
    }

    /**
     * WriteBuffers(writer): nothing at all when no vector is registered;
     * otherwise one download from the GPU when a data source is set, then one
     * writer call per registered vector, each name once, with the vector's
     * current contents.
     */
    method WriteBuffers() returns (calls: seq<BufferWrite>)
      modifies this
      ensures values == old(values) && vectors == old(vectors) && hasDataSource == old(hasDataSource)
      ensures vectors == map[] ==> calls == [] && downloads == old(downloads)
      ensures vectors != map[] ==> downloads == old(downloads) + (if hasDataSource then 1 else 0)
      ensures NamesOf(calls) == vectors.Keys
      ensures forall i, j :: 0 <= i < j < |calls| ==> calls[i].name != calls[j].name
      ensures forall c :: c in calls ==> c.name in vectors && c.data == vectors[c.name].data
    {
      calls := [];
      if vectors == map[] {
        return;
      }
      if hasDataSource {
        downloads := downloads + 1;
      }
      calls := CollectWrites(vectors);
    }
  }

  /** Vectors.ToArray(): the registered names, each once, in some order. */
  method Snapshot(vectors: map<string, DeviceVector>) returns (names: seq<string>)
    ensures forall k :: k in vectors <==> k in names
    ensures forall i, j :: 0 <= i < j < |names| ==> names[i] != names[j]
  {
    names := [];
    var remaining := vectors.Keys;
    while remaining != {}
      invariant forall k :: k in vectors <==> k in remaining || k in names
      invariant forall k :: k in remaining ==> k !in names
      invariant forall i, j :: 0 <= i < j < |names| ==> names[i] != names[j]
      decreases remaining
    {
      var k :| k in remaining;
      names := names + [k];
      remaining := remaining - {k};
    }
  }

  /** One writer call per registered name, each name once, with the vector's contents. */
  method CollectWrites(vectors: map<string, DeviceVector>) returns (calls: seq<BufferWrite>)
    ensures NamesOf(calls) == vectors.Keys
    ensures forall i, j :: 0 <= i < j < |calls| ==> calls[i].name != calls[j].name
    ensures forall c :: c in calls ==> c.name in vectors && c.data == vectors[c.name].data
  {
    var names := Snapshot(vectors);
    calls := [];
    for n := 0 to |names|
      invariant |calls| == n
      invariant forall i :: 0 <= i < n ==> calls[i] == BufferWrite(names[i], vectors[names[i]].data)
    {
      calls := calls + [BufferWrite(names[n], vectors[names[n]].data)];
    }
    assert forall k :: k in NamesOf(calls) <==> k in names by {
      forall k
        ensures k in NamesOf(calls) <==> k in names
      {
        if k in names {
          var i :| 0 <= i < |names| && names[i] == k;
          assert calls[i].name == k;
        }
      }
    }
  }

  /** Adding the same name twice keeps the first registration: the second vector receives the stored values. */
  method AddParameterTwice(w: Weights, name: string, first: DeviceVector, second: DeviceVector, initialValue: Float)
    requires name !in w.values && first != second
    modifies w, first, second
    ensures w.values == old(w.values)[name := seq(|old(first.data)|, _ => initialValue)]
    ensures w.vectors == old(w.vectors)[name := first]
    ensures second.data == first.data
  {
    w.AddParameter(name, first, initialValue);
    w.AddParameter(name, second, 0.0);
  }
}
