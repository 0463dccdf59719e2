/**
 * The device-side helpers of MetalTensors.iOS/MetalExtensions.cs that carry
 * logic of their own: element and descriptor byte sizes, the error check after
 * a Metal call, and the guarded creation of a device vector filled with an
 * initial value.  A device vector (MPSVector) is modelled by the floats it holds.
 */
module Metal {
  import opened Common

  /** MPSDataType: the two element types the library sizes, and any other code. */
  datatype DataType = Unorm8 | Float32 | OtherType(code: int)

  /** GetByteSize(MPSDataType): 1 for Unorm8, 4 for Float32, NotSupported otherwise. */
  function ElementByteSize(t: DataType): (r: Outcome<nat>)
    ensures r.Ok? <==> t == Unorm8 || t == Float32
    ensures r.Fail? ==> r.error == NotSupported
    ensures t == Unorm8 ==> r == Ok(1)
    ensures t == Float32 ==> r == Ok(4)
  {
    match t
    case Unorm8 => Ok(1)
    case Float32 => Ok(4)
    case OtherType(_) => Fail(NotSupported)
  }

  /** MPSVectorDescriptor: a length and an element type. */
  datatype VectorDescriptor = VectorDescriptor(length: int, dataType: DataType)

  /** GetByteSize(MPSVectorDescriptor): the length times the element size. */
  function DescriptorByteSize(d: VectorDescriptor): (r: Outcome<int>)
    ensures r.Ok? <==> ElementByteSize(d.dataType).Ok?
    ensures r.Ok? ==> r.value == d.length * ElementByteSize(d.dataType).value
    ensures d.dataType == Float32 ==> r == Ok(4 * d.length)
  {
    var size :- ElementByteSize(d.dataType);
    Ok(d.length * size)
  }

  /** ValidateNoError: a non-null NSError becomes an exception carrying its text. */
  function ValidateNoError(error: Option<string>): (r: Outcome<()>)
    ensures r.Ok? <==> error.None?
    ensures error.Some? ==> r == Fail(Error(error.value))
  {
    match error
    case None => Ok(())
    case Some(message) => Fail(Error(message))
  }

  /** An MPSVector: the floats of its buffer, and how often it has been disposed. */
  class DeviceVector {
    var data: seq<Float>
    var disposals: nat

    constructor (length: nat, value: Float)
      ensures data == seq(length, _ => value) && disposals == 0
    {
      data := seq(length, _ => value);
      disposals := 0;
    }

    /** Fill: every element becomes the constant, and the length is kept. */
    method Fill(value: Float)
      modifies this
      ensures data == seq(|old(data)|, _ => value) && disposals == old(disposals)
    {
      data := seq(|data|, _ => value);
    }

    /** Zero: Fill with 0. */
    method Zero()
      modifies this
      ensures data == seq(|old(data)|, _ => 0.0) && disposals == old(disposals)
    {
      Fill(0.0);
    }

    /** Init: the vector's elements are replaced by the stored values. */
    method Init(memory: seq<Float>)
      modifies this
      ensures data == memory && disposals == old(disposals)
    {
      data := memory;
    }

    method Dispose()
      modifies this
      ensures data == old(data) && disposals == old(disposals) + 1
    {
      disposals := disposals + 1;
    }
  }

  /**
   * Vector(device, descriptor, initialValue): a length of zero or less is
   * rejected before anything is allocated; an unsized element type is rejected
   * when the byte size is computed.  A Float32 vector holds the initial value
   * in every element.
   */
  method NewVector(descriptor: VectorDescriptor, initialValue: Float) returns (r: Outcome<DeviceVector>)
    ensures r.Ok? <==> descriptor.length > 0 && ElementByteSize(descriptor.dataType).Ok?
    ensures descriptor.length <= 0 ==> r == Fail(ArgumentOutOfRange("descriptor"))
    ensures descriptor.length > 0 && r.Fail? ==> r.error == NotSupported
    ensures r.Ok? ==> fresh(r.value) && r.value.disposals == 0 && |r.value.data| == descriptor.length
    ensures r.Ok? && descriptor.dataType == Float32 ==> r.value.data == seq(descriptor.length, _ => initialValue)
  {
    if descriptor.length <= 0 {
      return Fail(ArgumentOutOfRange("descriptor"));
    }
    var byteSize := DescriptorByteSize(descriptor);
    if byteSize.Fail? {
      return Fail(byteSize.error);
    }
    var v := new DeviceVector(descriptor.length, initialValue);
    return Ok(v);
  }
}
