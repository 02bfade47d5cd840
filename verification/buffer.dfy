/** GPU buffers: choosing a memory type for an allocation, creating a
    buffer over it, and the two ways its bytes change — a host upload
    through a mapping and a device-side copy from another buffer. Memory
    is an abstract byte sequence; handles, mapping and queue submission
    are not modelled. */
module MemoryBuffer {
  import opened Common

  /** `VK_MAX_MEMORY_TYPES`: the size of the memory-type array. */
  const MaxMemoryTypes: nat := 32

  datatype MemoryType = MemoryType(propertyFlags: bv32, heapIndex: nat)

  /** `VkMemoryRequirements` of a buffer: how many bytes, and which memory
      types may back it (bit `i` set for type `i`). */
  datatype MemoryRequirements = MemoryRequirements(size: nat, memoryTypeBits: bv32)

  /** A buffer and its bound memory, with the memory's bytes. */
  datatype Buffer = Buffer(
    size: nat,
    usage: bv32,
    sharingMode: SharingMode,
    allocationSize: nat,
    memoryTypeIndex: nat,
    memory: seq<Byte>)

  /** The buffer fits in its memory: the allocation is at least the
      buffer's size and the byte sequence is the whole allocation. */
  predicate WellFormed(b: Buffer)
  {
    b.size <= b.allocationSize == |b.memory|
  }

  /** The runtime error thrown when no memory type fits. */
  datatype MemoryError = NoSuitableMemoryType

  /** Memory type `i` is allowed by `typeFilter` and has every property in
      `properties`. */
  predicate IsSuitable(memoryTypes: seq<MemoryType>, typeFilter: bv32, properties: bv32, i: nat)
    requires i < |memoryTypes| <= MaxMemoryTypes
  {
    && typeFilter & ((1 as bv32) << i) != 0
    && memoryTypes[i].propertyFlags & properties == properties
  }

  /** `find_memory_type`: the lowest suitable index, or the error. */
  method FindMemoryType(memoryTypes: seq<MemoryType>, typeFilter: bv32, properties: bv32)
    returns (r: Result<nat, MemoryError>)
    requires |memoryTypes| <= MaxMemoryTypes
    ensures r.Success? ==> r.value < |memoryTypes| && IsSuitable(memoryTypes, typeFilter, properties, r.value)
    ensures r.Success? ==> forall j :: 0 <= j < r.value ==> !IsSuitable(memoryTypes, typeFilter, properties, j)
    ensures r.Failure? <==> forall j :: 0 <= j < |memoryTypes| ==> !IsSuitable(memoryTypes, typeFilter, properties, j)
  {
    var i := 0;
    while i < |memoryTypes|
      invariant 0 <= i <= |memoryTypes|
      invariant forall j :: 0 <= j < i ==> !IsSuitable(memoryTypes, typeFilter, properties, j)
    {
      if typeFilter & ((1 as bv32) << i) != 0 && memoryTypes[i].propertyFlags & properties == properties {
        assert IsSuitable(memoryTypes, typeFilter, properties, i);
        return Success(i);
      }
      i := i + 1;
    }
    return Failure(NoSuitableMemoryType);
  }

  /** `vulkan_buffer_create`: an exclusively shared buffer of `size` bytes
      whose memory is `reqs.size` bytes of the lowest suitable type.
      `reqs` is what the driver reports for the new buffer, and `initial`
      the allocation's unspecified initial contents. The driver reports at
      least `size` bytes, and then the buffer is well formed. */
  method CreateBuffer(
    usage: bv32, properties: bv32, size: nat,
    memoryTypes: seq<MemoryType>, reqs: MemoryRequirements, initial: seq<Byte>)
    returns (r: Result<Buffer, MemoryError>)
    requires |memoryTypes| <= MaxMemoryTypes
    requires |initial| == reqs.size
    ensures r.Failure? <==>
              forall j :: 0 <= j < |memoryTypes| ==> !IsSuitable(memoryTypes, reqs.memoryTypeBits, properties, j)
    ensures r.Success? && size <= reqs.size ==> WellFormed(r.value)
    ensures r.Success? ==>
              && r.value.size == size
              && r.value.usage == usage
              && r.value.sharingMode == Exclusive
              && r.value.allocationSize == reqs.size
              && |r.value.memory| == reqs.size
              && r.value.memoryTypeIndex < |memoryTypes|
              && IsSuitable(memoryTypes, reqs.memoryTypeBits, properties, r.value.memoryTypeIndex)
              && forall j :: 0 <= j < r.value.memoryTypeIndex ==>
                   !IsSuitable(memoryTypes, reqs.memoryTypeBits, properties, j)
  {
    var index := FindMemoryType(memoryTypes, reqs.memoryTypeBits, properties);
    match index
    case Failure(e) =>
      return Failure(e);
    case Success(i) =>
      return Success(Buffer(size, usage, Exclusive, reqs.size, i, initial));
  }

  /** `vulkan_buffer_load_data`: the first `size` bytes of the buffer's
      memory become the first `size` bytes of `data`. The mapping always
      starts at 0, so `offset` and `flags` have no effect. */
  function LoadData(buffer: Buffer, offset: int, flags: bv32, size: nat, data: seq<Byte>): (r: Buffer)
    requires size <= |buffer.memory|
    requires size <= |data|
    ensures |r.memory| == |buffer.memory|
    ensures forall i :: 0 <= i < size ==> r.memory[i] == data[i]
    ensures forall i :: size <= i < |buffer.memory| ==> r.memory[i] == buffer.memory[i]
    ensures r.(memory := buffer.memory) == buffer
  {
    buffer.(memory := data[..size] + buffer.memory[size..])
  }

  /** `vulkan_buffer_copy`: the target after a copy of `size` bytes from
      offset 0 of `source` to offset 0 of `target`. The source is a value
      and is not changed. A buffer copy must lie within both buffers. */
  function Copy(source: Buffer, target: Buffer, size: nat): (r: Buffer)
    requires WellFormed(source) && WellFormed(target)
    requires size <= source.size && size <= target.size
    ensures WellFormed(r)
    ensures |r.memory| == |target.memory|
    ensures forall i :: 0 <= i < size ==> r.memory[i] == source.memory[i]
    ensures forall i :: size <= i < |target.memory| ==> r.memory[i] == target.memory[i]
    ensures r.(memory := target.memory) == target
  {
    target.(memory := source.memory[..size] + target.memory[size..])
  }

  /** The staging upload: load `data` into a host-visible buffer, copy it
      into a device buffer. The device buffer then starts with `data`, and
      its other bytes are as before. */
  lemma StagingUpload(staging: Buffer, device: Buffer, data: seq<Byte>, size: nat)
    requires WellFormed(staging) && WellFormed(device)
    requires size <= staging.size && size <= device.size && size <= |data|
    ensures Copy(LoadData(staging, 0, 0, size, data), device, size).memory[..size] == data[..size]
    ensures Copy(LoadData(staging, 0, 0, size, data), device, size).memory[size..] == device.memory[size..]
  {
  }

  /** Copying twice is copying once. */
  lemma CopyIdempotent(source: Buffer, target: Buffer, size: nat)
    requires WellFormed(source) && WellFormed(target)
    requires size <= source.size && size <= target.size
    ensures Copy(source, Copy(source, target, size), size) == Copy(source, target, size)
  {
  }

  /** A second load of the same size replaces all the first one wrote. */
  lemma LoadDataOverwrites(buffer: Buffer, size: nat, first: seq<Byte>, second: seq<Byte>)
    requires size <= |buffer.memory| && size <= |first| && size <= |second|
    ensures LoadData(LoadData(buffer, 0, 0, size, first), 0, 0, size, second) == LoadData(buffer, 0, 0, size, second)
  {
  }
}
