/**
  The create-info structs of the C++ bindings for the Vulkan Memory
  Allocator: each has a constructor taking every field, one fluent setter per
  field that assigns that field and returns the struct itself, and a
  field-wise `operator==` with `operator!=` as its negation. Each struct is a
  class with those fields; `Fields()` reads them into a value, against which
  the setters and the comparisons are stated.
 */
module VmaCreateInfo {
  import opened VmaHandles
  import opened VmaStrings

  /** `uint32_t`, `VkDeviceSize` (uint64_t) and `size_t` (64 bits here). */
  type U32 = x: int | 0 <= x < 0x1_0000_0000
  type U64 = x: int | 0 <= x < 0x1_0000_0000_0000_0000

  /** A `void*` or a Vulkan non-dispatchable handle, compared by address. */
  type Address = nat

  const NULL_ADDRESS: Address := 0

  // ---------------------------------------------------------------------
  // AllocationCreateInfo
  // ---------------------------------------------------------------------

  /**
    The fields of AllocationCreateInfo other than the float `priority`.
    `usage` is the value of a MemoryUsage enumerator. `pool` is the raw
    handle of the Pool wrapper the struct holds by value.
   */
  datatype AllocationCreateFields = AllocationCreateFields(
    flags: Flags, usage: int, requiredFlags: Flags, preferredFlags: Flags,
    memoryTypeBits: U32, pool: RawHandle, pUserData: Address)

  class AllocationCreateInfo {
    var flags: Flags
    var usage: int
    var requiredFlags: Flags
    var preferredFlags: Flags
    var memoryTypeBits: U32
    var pool: RawHandle
    var pUserData: Address

    /**
      The constructor. Every argument but `usage` has the source's default:
      empty flags, no memory-type restriction, a null pool and no user
      data. The default usage is MemoryUsage::eUnknown, whose value comes
      from the C header.
     */
    constructor(flags: Flags := 0, usage: int, requiredFlags: Flags := 0, preferredFlags: Flags := 0,
                memoryTypeBits: U32 := 0, pool: RawHandle := NULL_HANDLE, pUserData: Address := NULL_ADDRESS)
      ensures Fields() == AllocationCreateFields(flags, usage, requiredFlags, preferredFlags,
                                                 memoryTypeBits, pool, pUserData)
    {
      this.flags := flags;
      this.usage := usage;
      this.requiredFlags := requiredFlags;
      this.preferredFlags := preferredFlags;
      this.memoryTypeBits := memoryTypeBits;
      this.pool := pool;
      this.pUserData := pUserData;
    }

    function Fields(): AllocationCreateFields
      reads this
    {
      AllocationCreateFields(flags, usage, requiredFlags, preferredFlags, memoryTypeBits, pool, pUserData)
    }

    method SetFlags(value: Flags) returns (self: AllocationCreateInfo)
      modifies this`flags
      ensures Fields() == old(Fields()).(flags := value) && self == this
    {
      flags := value;
      self := this;
    }

    method SetUsage(value: int) returns (self: AllocationCreateInfo)
      modifies this`usage
      ensures Fields() == old(Fields()).(usage := value) && self == this
    {
      usage := value;
      self := this;
    }

    method SetRequiredFlags(value: Flags) returns (self: AllocationCreateInfo)
      modifies this`requiredFlags
      ensures Fields() == old(Fields()).(requiredFlags := value) && self == this
    {
      requiredFlags := value;
      self := this;
    }

    method SetPreferredFlags(value: Flags) returns (self: AllocationCreateInfo)
      modifies this`preferredFlags
      ensures Fields() == old(Fields()).(preferredFlags := value) && self == this
    {
      preferredFlags := value;
      self := this;
    }

    method SetMemoryTypeBits(value: U32) returns (self: AllocationCreateInfo)
      modifies this`memoryTypeBits
      ensures Fields() == old(Fields()).(memoryTypeBits := value) && self == this
    {
      memoryTypeBits := value;
      self := this;
    }

    /** `setPool` copies the wrapper, that is, its raw handle; the argument is not aliased. */
    method SetPool(value: Pool) returns (self: AllocationCreateInfo)
      modifies this`pool
      ensures Fields() == old(Fields()).(pool := value.Raw()) && self == this
    {
      pool := value.handle;
      self := this;
    }

    method SetPUserData(value: Address) returns (self: AllocationCreateInfo)
      modifies this`pUserData
      ensures Fields() == old(Fields()).(pUserData := value) && self == this
    {
      pUserData := value;
      self := this;
    }

    /** `operator==`: the conjunction of the per-field comparisons. */
    predicate Equals(rhs: AllocationCreateInfo)
      reads this, rhs
    {
      && flags == rhs.flags
      && usage == rhs.usage
      && requiredFlags == rhs.requiredFlags
      && preferredFlags == rhs.preferredFlags
      && memoryTypeBits == rhs.memoryTypeBits
      && pool == rhs.pool
      && pUserData == rhs.pUserData
    }

    /** `operator!=`. */
    predicate NotEquals(rhs: AllocationCreateInfo)
      reads this, rhs
    {
      !Equals(rhs)
    }
  }

  /** `==` holds exactly when every field agrees, and `!=` is its negation. */
  lemma AllocationCreateInfoEquality(a: AllocationCreateInfo, b: AllocationCreateInfo)
    ensures a.Equals(b) <==> a.Fields() == b.Fields()
    ensures a.NotEquals(b) <==> a.Fields() != b.Fields()
  {
  }

  /**
    The `pool` comparison is Pool's `==`: for structs holding copies of the
    wrappers p and q, equal structs hold equal pools, and structs that agree
    everywhere else are equal exactly when the pools are.
   */
  lemma AllocationCreateInfoPoolComparison(a: AllocationCreateInfo, b: AllocationCreateInfo, p: Pool, q: Pool)
    requires a.pool == p.Raw() && b.pool == q.Raw()
    ensures a.Equals(b) ==> p.Equals(q)
    ensures a.Fields().(pool := NULL_HANDLE) == b.Fields().(pool := NULL_HANDLE) ==> (a.Equals(b) <==> p.Equals(q))
  {
  }

  // ---------------------------------------------------------------------
  // AllocationInfo
  // ---------------------------------------------------------------------

  datatype AllocationInfoFields = AllocationInfoFields(
    memoryType: U32, deviceMemory: Address, offset: U64, size: U64, pMappedData: Address, pUserData: Address)

  class AllocationInfo {
    var memoryType: U32
    var deviceMemory: Address
    var offset: U64
    var size: U64
    var pMappedData: Address
    var pUserData: Address

    /** The constructor; every default is zero or null. */
    constructor(memoryType: U32 := 0, deviceMemory: Address := NULL_ADDRESS, offset: U64 := 0, size: U64 := 0,
                pMappedData: Address := NULL_ADDRESS, pUserData: Address := NULL_ADDRESS)
      ensures Fields() == AllocationInfoFields(memoryType, deviceMemory, offset, size, pMappedData, pUserData)
    {
      this.memoryType := memoryType;
      this.deviceMemory := deviceMemory;
      this.offset := offset;
      this.size := size;
      this.pMappedData := pMappedData;
      this.pUserData := pUserData;
    }

    function Fields(): AllocationInfoFields
      reads this
    {
      AllocationInfoFields(memoryType, deviceMemory, offset, size, pMappedData, pUserData)
    }

    method SetMemoryType(value: U32) returns (self: AllocationInfo)
      modifies this`memoryType
      ensures Fields() == old(Fields()).(memoryType := value) && self == this
    {
      memoryType := value;
      self := this;
    }

    method SetDeviceMemory(value: Address) returns (self: AllocationInfo)
      modifies this`deviceMemory
      ensures Fields() == old(Fields()).(deviceMemory := value) && self == this
    {
      deviceMemory := value;
      self := this;
    }

    method SetOffset(value: U64) returns (self: AllocationInfo)
      modifies this`offset
      ensures Fields() == old(Fields()).(offset := value) && self == this
    {
      offset := value;
      self := this;
    }

    method SetSize(value: U64) returns (self: AllocationInfo)
      modifies this`size
      ensures Fields() == old(Fields()).(size := value) && self == this
    {
      size := value;
      self := this;
    }

    method SetPMappedData(value: Address) returns (self: AllocationInfo)
      modifies this`pMappedData
      ensures Fields() == old(Fields()).(pMappedData := value) && self == this
    {
      pMappedData := value;
      self := this;
    }

    method SetPUserData(value: Address) returns (self: AllocationInfo)
      modifies this`pUserData
      ensures Fields() == old(Fields()).(pUserData := value) && self == this
    {
      pUserData := value;
      self := this;
    }

    /** `operator==`. */
    predicate Equals(rhs: AllocationInfo)
      reads this, rhs
    {
      && memoryType == rhs.memoryType
      && deviceMemory == rhs.deviceMemory
      && offset == rhs.offset
      && size == rhs.size
      && pMappedData == rhs.pMappedData
      && pUserData == rhs.pUserData
    }

    /** `operator!=`. */
    predicate NotEquals(rhs: AllocationInfo)
      reads this, rhs
    {
      !Equals(rhs)
    }
  }

  lemma AllocationInfoEquality(a: AllocationInfo, b: AllocationInfo)
    ensures a.Equals(b) <==> a.Fields() == b.Fields()
    ensures a.NotEquals(b) <==> a.Fields() != b.Fields()
  {
  }

  // ---------------------------------------------------------------------
  // PoolCreateInfo
  // ---------------------------------------------------------------------

  /** The fields of PoolCreateInfo other than the float `priority`. */
  datatype PoolCreateFields = PoolCreateFields(
    memoryTypeIndex: U32, flags: Flags, blockSize: U64, minBlockCount: U64, maxBlockCount: U64,
    frameInUseCount: U32, minAllocationAlignment: U64, pMemoryAllocateNext: Address)

  class PoolCreateInfo {
    var memoryTypeIndex: U32
    var flags: Flags
    var blockSize: U64
    var minBlockCount: U64
    var maxBlockCount: U64
    var frameInUseCount: U32
    var minAllocationAlignment: U64
    var pMemoryAllocateNext: Address

    /** The constructor; every default is zero, empty or null. */
    constructor(memoryTypeIndex: U32 := 0, flags: Flags := 0, blockSize: U64 := 0, minBlockCount: U64 := 0,
                maxBlockCount: U64 := 0, frameInUseCount: U32 := 0, minAllocationAlignment: U64 := 0,
                pMemoryAllocateNext: Address := NULL_ADDRESS)
      ensures Fields() == PoolCreateFields(memoryTypeIndex, flags, blockSize, minBlockCount, maxBlockCount,
                                           frameInUseCount, minAllocationAlignment, pMemoryAllocateNext)
    {
      this.memoryTypeIndex := memoryTypeIndex;
      this.flags := flags;
      this.blockSize := blockSize;
      this.minBlockCount := minBlockCount;
      this.maxBlockCount := maxBlockCount;
      this.frameInUseCount := frameInUseCount;
      this.minAllocationAlignment := minAllocationAlignment;
      this.pMemoryAllocateNext := pMemoryAllocateNext;
    }

    function Fields(): PoolCreateFields
      reads this
    {
      PoolCreateFields(memoryTypeIndex, flags, blockSize, minBlockCount, maxBlockCount,
                       frameInUseCount, minAllocationAlignment, pMemoryAllocateNext)
    }

    method SetMemoryTypeIndex(value: U32) returns (self: PoolCreateInfo)
      modifies this`memoryTypeIndex
      ensures Fields() == old(Fields()).(memoryTypeIndex := value) && self == this
    {
      memoryTypeIndex := value;
      self := this;
    }

    method SetFlags(value: Flags) returns (self: PoolCreateInfo)
      modifies this`flags
      ensures Fields() == old(Fields()).(flags := value) && self == this
    {
      flags := value;
      self := this;
    }

    method SetBlockSize(value: U64) returns (self: PoolCreateInfo)
      modifies this`blockSize
      ensures Fields() == old(Fields()).(blockSize := value) && self == this
    {
      blockSize := value;
      self := this;
    }

    method SetMinBlockCount(value: U64) returns (self: PoolCreateInfo)
      modifies this`minBlockCount
      ensures Fields() == old(Fields()).(minBlockCount := value) && self == this
    {
      minBlockCount := value;
      self := this;
    }

    method SetMaxBlockCount(value: U64) returns (self: PoolCreateInfo)
      modifies this`maxBlockCount
      ensures Fields() == old(Fields()).(maxBlockCount := value) && self == this
    {
      maxBlockCount := value;
      self := this;
    }

    method SetFrameInUseCount(value: U32) returns (self: PoolCreateInfo)
      modifies this`frameInUseCount
      ensures Fields() == old(Fields()).(frameInUseCount := value) && self == this
    {
      frameInUseCount := value;
      self := this;
    }

    method SetMinAllocationAlignment(value: U64) returns (self: PoolCreateInfo)
      modifies this`minAllocationAlignment
      ensures Fields() == old(Fields()).(minAllocationAlignment := value) && self == this
    {
      minAllocationAlignment := value;
      self := this;
    }

    method SetPMemoryAllocateNext(value: Address) returns (self: PoolCreateInfo)
      modifies this`pMemoryAllocateNext
      ensures Fields() == old(Fields()).(pMemoryAllocateNext := value) && self == this
    {
      pMemoryAllocateNext := value;
      self := this;
    }

    /** `operator==`. */
    predicate Equals(rhs: PoolCreateInfo)
      reads this, rhs
    {
      && memoryTypeIndex == rhs.memoryTypeIndex
      && flags == rhs.flags
      && blockSize == rhs.blockSize
      && minBlockCount == rhs.minBlockCount
      && maxBlockCount == rhs.maxBlockCount
      && frameInUseCount == rhs.frameInUseCount
      && minAllocationAlignment == rhs.minAllocationAlignment
      && pMemoryAllocateNext == rhs.pMemoryAllocateNext
    }

    /** `operator!=`. */
    predicate NotEquals(rhs: PoolCreateInfo)
      reads this, rhs
    {
      !Equals(rhs)
    }
  }

  lemma PoolCreateInfoEquality(a: PoolCreateInfo, b: PoolCreateInfo)
    ensures a.Equals(b) <==> a.Fields() == b.Fields()
    ensures a.NotEquals(b) <==> a.Fields() != b.Fields()
  {
  }
}
