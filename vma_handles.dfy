/**
  The handle wrappers of the C++ bindings for the Vulkan Memory Allocator:
  `Allocator`, `Pool`, `Allocation` and `DefragmentationContext` each hold one
  raw handle (an opaque pointer of the C library), null by default, and
  compare and test it. The four classes are the same code over different raw
  handle types; here they are one class instantiated with a tag type each.
 */
module VmaHandles {

  /** A raw handle: an opaque pointer, compared by address. */
  type RawHandle = nat

  /** VK_NULL_HANDLE. */
  const NULL_HANDLE: RawHandle := 0

  datatype AllocatorTag = AllocatorTag
  datatype PoolTag = PoolTag
  datatype AllocationTag = AllocationTag
  datatype DefragmentationContextTag = DefragmentationContextTag

  /** A wrapper around one raw handle of the kind `Tag` names. */
  class HandleWrapper<Tag> {
    var handle: RawHandle

    /**
      The default constructor and the `nullptr` constructor: both leave the
      wrapper null. `new HandleWrapper()` and `new HandleWrapper(NULL_HANDLE)`
      are those two; `new HandleWrapper(raw)` is the explicit constructor
      from a raw handle.
     */
    constructor(raw: RawHandle := NULL_HANDLE)
      ensures handle == raw
      ensures raw == NULL_HANDLE ==> !IsValid()
    {
      handle := raw;
    }

    /** `operator=(Raw)`, present when type-safe conversion is enabled. */
    method AssignRaw(raw: RawHandle) returns (self: HandleWrapper<Tag>)
      modifies this`handle
      ensures handle == raw && self == this
    {
      handle := raw;
      self := this;
    }

    /** `operator=(nullptr)`: the wrapper becomes null and is returned. */
    method AssignNull() returns (self: HandleWrapper<Tag>)
      modifies this`handle
      ensures handle == NULL_HANDLE && self == this
      ensures !IsValid() && IsNull()
    {
      handle := NULL_HANDLE;
      self := this;
    }

    /** The conversion back to the raw handle. */
    function Raw(): (raw: RawHandle)
      reads this
    {
      handle
    }

    /** `explicit operator bool`. */
    predicate IsValid()
      reads this
    {
      handle != NULL_HANDLE
    }

    /** `operator!`. */
    predicate IsNull()
      reads this
    {
      handle == NULL_HANDLE
    }

    /** `operator==`. */
    predicate Equals(rhs: HandleWrapper<Tag>)
      reads this, rhs
    {
      handle == rhs.handle
    }

    /** `operator!=`. */
    predicate NotEquals(rhs: HandleWrapper<Tag>)
      reads this, rhs
    {
      handle != rhs.handle
    }

    /** `operator<`. */
    predicate Less(rhs: HandleWrapper<Tag>)
      reads this, rhs
    {
      handle < rhs.handle
    }
  }

  type Allocator = HandleWrapper<AllocatorTag>
  type Pool = HandleWrapper<PoolTag>
  type Allocation = HandleWrapper<AllocationTag>
  type DefragmentationContext = HandleWrapper<DefragmentationContextTag>

  /** `operator!` is the negation of `operator bool`, and both speak of the null handle only. */
  lemma NullTest<Tag>(a: HandleWrapper<Tag>)
    ensures a.IsNull() <==> !a.IsValid()
    ensures a.IsValid() <==> a.Raw() != NULL_HANDLE
  {
  }

  /** `!=` is the negation of `==`, and `==` is equality of the raw handles. */
  lemma EqualityOfHandles<Tag>(a: HandleWrapper<Tag>, b: HandleWrapper<Tag>)
    ensures a.NotEquals(b) <==> !a.Equals(b)
    ensures a.Equals(b) <==> a.Raw() == b.Raw()
    ensures a.Equals(b) ==> (a.IsValid() <==> b.IsValid())
  {
  }

  /** `==` is an equivalence: reflexive, symmetric and transitive. */
  lemma EqualsIsEquivalence<Tag>(a: HandleWrapper<Tag>, b: HandleWrapper<Tag>, c: HandleWrapper<Tag>)
    ensures a.Equals(a)
    ensures a.Equals(b) ==> b.Equals(a)
    ensures a.Equals(b) && b.Equals(c) ==> a.Equals(c)
  {
  }

  /**
    `<` is a strict total order consistent with `==`: irreflexive, transitive,
    and exactly one of a < b, a == b, b < a holds.
   */
  lemma LessIsStrictTotalOrder<Tag>(a: HandleWrapper<Tag>, b: HandleWrapper<Tag>, c: HandleWrapper<Tag>)
    ensures !a.Less(a)
    ensures a.Less(b) && b.Less(c) ==> a.Less(c)
    ensures a.Less(b) ==> !b.Less(a) && !a.Equals(b)
    ensures a.Less(b) || a.Equals(b) || b.Less(a)
  {
  }

  /** The null handle is the least: no wrapper is below a null one, and a null wrapper is below every valid one. */
  lemma NullIsLeast<Tag>(a: HandleWrapper<Tag>, b: HandleWrapper<Tag>)
    requires a.IsNull()
    ensures !b.Less(a)
    ensures b.IsValid() <==> a.Less(b)
  {
  }
}
