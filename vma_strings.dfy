/**
  The `to_string` overloads of the C++ bindings for the Vulkan Memory
  Allocator. Each enum has a switch that names its enumerators; each flags
  type has a formatter that lists the names of the bits a value has set.
  The numeric enumerator values come from the C header, which is not part of
  this model, so they are parameters here, in declaration order.
 */
module VmaStrings {

  /** `VkFlags` (uint32_t) and the flag-bit enumerators built on it. */
  type Flags = bv32

  /** `std::string::size_type` wraps modulo 2^64. */
  const SIZE_MODULUS: int := 0x1_0000_0000_0000_0000

  predicate Distinct<T(==)>(xs: seq<T>) {
    forall i, j :: 0 <= i < j < |xs| ==> xs[i] != xs[j]
  }

  // ---------------------------------------------------------------------
  // The single-enumerator switches
  // ---------------------------------------------------------------------

  /**
    A generated switch: `case values[k]: return names[k]` for each k in
    order, `default: return "invalid"`. The first matching case wins.
   */
  function SwitchToString<V(==)>(names: seq<string>, values: seq<V>, value: V): (s: string)
    requires |names| == |values|
    ensures value !in values ==> s == "invalid"
    ensures value in values ==> exists k :: 0 <= k < |values| && values[k] == value && s == names[k]
    ensures Distinct(values) ==> forall k :: 0 <= k < |values| && values[k] == value ==> s == names[k]
  {
    if |values| == 0 then "invalid"
    else if values[0] == value then names[0]
    else
      var s := SwitchToString(names[1..], values[1..], value);
      assert forall k :: 1 <= k < |values| ==> values[1..][k - 1] == values[k];
      s
  }

  const MEMORY_USAGE_NAMES: seq<string> :=
    ["Unknown", "GpuOnly", "CpuOnly", "CpuToGpu", "GpuToCpu", "CpuCopy", "GpuLazilyAllocated"]

  /** The 15 bits the AllocationCreateFlags formatter tests; its switch names the first 12. */
  const ALLOCATION_CREATE_FLAG_NAMES: seq<string> :=
    ["DedicatedMemory", "NeverAllocate", "Mapped", "CanBecomeLost", "CanMakeOtherLost",
     "UserDataCopyString", "UpperAddress", "DontBind", "WithinBudget", "StrategyBestFit",
     "StrategyWorstFit", "StrategyFirstFit", "StrategyMinMemory", "StrategyMinTime",
     "StrategyMinFragmentation"]

  /** AllocationCreateFlagBits declares 16 enumerators: the 15 above and StrategyMask. */
  const ALLOCATION_CREATE_ENUMERATORS: nat := 16

  const ALLOCATION_CREATE_SWITCH_CASES: nat := 12

  const ALLOCATOR_CREATE_FLAG_NAMES: seq<string> :=
    ["ExternallySynchronized", "KhrDedicatedAllocation", "KhrBindMemory2", "ExtMemoryBudget",
     "AmdDeviceCoherentMemory", "BufferDeviceAddress", "ExtMemoryPriority"]

  const DEFRAGMENTATION_FLAG_NAMES: seq<string> := ["Incremental"]

  /** The switch names all four PoolCreateFlagBits; the formatter tests only the first three. */
  const POOL_CREATE_FLAG_NAMES: seq<string> :=
    ["IgnoreBufferImageGranularity", "LinearAlgorithm", "BuddyAlgorithm", "AlgorithmMask"]

  const RECORD_FLAG_NAMES: seq<string> := ["FlushAfterCall"]

  /** to_string(MemoryUsage), given the values of the seven enumerators. */
  function MemoryUsageToString(enumerators: seq<int>, value: int): (s: string)
    requires |enumerators| == |MEMORY_USAGE_NAMES|
    ensures s in MEMORY_USAGE_NAMES || s == "invalid"
    ensures value !in enumerators ==> s == "invalid"
    ensures Distinct(enumerators) ==>
      forall k :: 0 <= k < |enumerators| && enumerators[k] == value ==> s == MEMORY_USAGE_NAMES[k]
  {
    SwitchToString(MEMORY_USAGE_NAMES, enumerators, value)
  }

  /**
    to_string(AllocationCreateFlagBits), given the values of the 16
    enumerators: only the first 12 have a case, so the strategy aliases and
    StrategyMask fall through to "invalid" unless their value equals an
    earlier one.
   */
  function AllocationCreateFlagBitsToString(enumerators: seq<Flags>, value: Flags): (s: string)
    requires |enumerators| == ALLOCATION_CREATE_ENUMERATORS
    ensures s in ALLOCATION_CREATE_FLAG_NAMES[..ALLOCATION_CREATE_SWITCH_CASES] || s == "invalid"
    ensures value !in enumerators[..ALLOCATION_CREATE_SWITCH_CASES] ==> s == "invalid"
    ensures Distinct(enumerators[..ALLOCATION_CREATE_SWITCH_CASES]) ==>
      forall k :: 0 <= k < ALLOCATION_CREATE_SWITCH_CASES && enumerators[k] == value ==> s == ALLOCATION_CREATE_FLAG_NAMES[k]
  {
    SwitchToString(ALLOCATION_CREATE_FLAG_NAMES[..ALLOCATION_CREATE_SWITCH_CASES],
                   enumerators[..ALLOCATION_CREATE_SWITCH_CASES], value)
  }

  function AllocatorCreateFlagBitsToString(enumerators: seq<Flags>, value: Flags): (s: string)
    requires |enumerators| == |ALLOCATOR_CREATE_FLAG_NAMES|
    ensures s in ALLOCATOR_CREATE_FLAG_NAMES || s == "invalid"
    ensures value !in enumerators ==> s == "invalid"
    ensures Distinct(enumerators) ==>
      forall k :: 0 <= k < |enumerators| && enumerators[k] == value ==> s == ALLOCATOR_CREATE_FLAG_NAMES[k]
  {
    SwitchToString(ALLOCATOR_CREATE_FLAG_NAMES, enumerators, value)
  }

  function DefragmentationFlagBitsToString(incremental: Flags, value: Flags): (s: string)
    ensures s == (if value == incremental then "Incremental" else "invalid")
  {
    SwitchToString(DEFRAGMENTATION_FLAG_NAMES, [incremental], value)
  }

  function PoolCreateFlagBitsToString(enumerators: seq<Flags>, value: Flags): (s: string)
    requires |enumerators| == |POOL_CREATE_FLAG_NAMES|
    ensures s in POOL_CREATE_FLAG_NAMES || s == "invalid"
    ensures value !in enumerators ==> s == "invalid"
    ensures Distinct(enumerators) ==>
      forall k :: 0 <= k < |enumerators| && enumerators[k] == value ==> s == POOL_CREATE_FLAG_NAMES[k]
  {
    SwitchToString(POOL_CREATE_FLAG_NAMES, enumerators, value)
  }

  function RecordFlagBitsToString(flushAfterCall: Flags, value: Flags): (s: string)
    ensures s == (if value == flushAfterCall then "FlushAfterCall" else "invalid")
  {
    SwitchToString(RECORD_FLAG_NAMES, [flushAfterCall], value)
  }

  // ---------------------------------------------------------------------
  // The flags formatters
  // ---------------------------------------------------------------------

  /** One `if ( value & Bits::eName ) result += "Name | ";` line of a formatter. */
  datatype FlagBit = FlagBit(name: string, mask: Flags)

  /** Pairs each name with the enumerator value at the same position. */
  function Table(names: seq<string>, masks: seq<Flags>): (bits: seq<FlagBit>)
    requires |masks| >= |names|
    ensures |bits| == |names|
    ensures forall k :: 0 <= k < |bits| ==> bits[k] == FlagBit(names[k], masks[k])
  {
    seq(|names|, k requires 0 <= k < |names| => FlagBit(names[k], masks[k]))
  }

  /** The test of one formatter line: the value has a bit of the mask. */
  predicate Intersects(value: Flags, mask: Flags) {
    value & mask != 0
  }

  /** The names of the bits the value intersects, in table order. */
  function Selected(bits: seq<FlagBit>, value: Flags): seq<string> {
    if bits == [] then []
    else
      var last := bits[|bits| - 1];
      Selected(bits[..|bits| - 1], value) + (if Intersects(value, last.mask) then [last.name] else [])
  }

  /** The names separated by " | ". */
  function Joined(names: seq<string>): string {
    if names == [] then ""
    else if |names| == 1 then names[0]
    else Joined(names[..|names| - 1]) + " | " + names[|names| - 1]
  }

  /** What the `+=` lines accumulate: every name followed by " | ". */
  function Suffixed(names: seq<string>): string {
    if names == [] then ""
    else Suffixed(names[..|names| - 1]) + names[|names| - 1] + " | "
  }

  /** `a - b` on `size_t`. */
  function SizeMinus(a: nat, b: nat): (r: nat)
    requires a < SIZE_MODULUS && b < SIZE_MODULUS
    ensures r < SIZE_MODULUS
    ensures b <= a ==> r == a - b
    ensures a < b ==> r == SIZE_MODULUS + a - b && r >= SIZE_MODULUS - b
  {
    (a - b) % SIZE_MODULUS
  }

  /** std::string::substr(pos, count): the min(count, size() - pos) characters from `pos`. */
  function Substr(s: string, pos: nat, count: nat): (r: string)
    requires pos <= |s|
    ensures |r| == if count < |s| - pos then count else |s| - pos
    ensures r == s[pos..pos + |r|]
    ensures count >= |s| - pos ==> r == s[pos..]
  {
    if count < |s| - pos then s[pos..pos + count] else s[pos..]
  }

  /** The documented output: "{}" for no bits, otherwise the selected names between braces. */
  function FormatFlags(bits: seq<FlagBit>, value: Flags): string {
    if value == 0 then "{}" else "{ " + Joined(Selected(bits, value)) + " }"
  }

  lemma {:induction false} SuffixedIsJoinedPlusSeparator(names: seq<string>)
    requires names != []
    ensures Suffixed(names) == Joined(names) + " | "
    decreases |names|
  {
    if |names| > 1 {
      var init := names[..|names| - 1];
      SuffixedIsJoinedPlusSeparator(init);
    } else {
      assert names[..0] == [];
    }
  }

  /** Dropping the last three characters of the accumulated string leaves the joined names. */
  lemma TrimmedSuffixIsJoined(names: seq<string>)
    requires |Suffixed(names)| < SIZE_MODULUS
    ensures Substr(Suffixed(names), 0, SizeMinus(|Suffixed(names)|, 3)) == Joined(names)
  {
    var r := Suffixed(names);
    if names == [] {
      assert SizeMinus(|r|, 3) >= SIZE_MODULUS - 3;
    } else {
      SuffixedIsJoinedPlusSeparator(names);
      assert r[..|r| - 3] == Joined(names);
    }
  }

  /**
    A flags `to_string`: "{}" for zero; otherwise appends "Name | " for each
    tested bit the value intersects, in table order, and returns the
    accumulated string without its last three characters, between "{ " and
    " }". For a string shorter than three, `size() - 3` wraps around and
    `substr` keeps everything.
   */
  method FlagsToString(bits: seq<FlagBit>, value: Flags) returns (s: string)
    requires |Suffixed(Selected(bits, value))| < SIZE_MODULUS
    ensures s == FormatFlags(bits, value)
  {
    if value == 0 {
      return "{}";
    }
    var result := "";
    var i := 0;
    while i < |bits|
      invariant 0 <= i <= |bits|
      invariant result == Suffixed(Selected(bits[..i], value))
    {
      SuffixedSelectedStep(bits, i, value);
      if value & bits[i].mask != 0 {
        result := result + bits[i].name + " | ";
      }
      i := i + 1;
    }
    assert bits[..i] == bits;
    TrimmedSuffixIsJoined(Selected(bits, value));
    s := "{ " + Substr(result, 0, SizeMinus(|result|, 3)) + " }";
  }

  /** One more formatter line appends "Name | " exactly when its test passes. */
  lemma SuffixedSelectedStep(bits: seq<FlagBit>, i: nat, value: Flags)
    requires i < |bits|
    ensures Suffixed(Selected(bits[..i + 1], value)) ==
      Suffixed(Selected(bits[..i], value)) + (if Intersects(value, bits[i].mask) then bits[i].name + " | " else "")
  {
    assert bits[..i + 1][..i] == bits[..i];
    var before := Selected(bits[..i], value);
    if Intersects(value, bits[i].mask) {
      assert Selected(bits[..i + 1], value) == before + [bits[i].name];
      SuffixedAppend(before, bits[i].name);
    } else {
      assert Selected(bits[..i + 1], value) == before + [];
      assert before + [] == before;
    }
  }

  /** Every listed name belongs to a tested bit that the value intersects. */
  lemma {:induction false} SelectedSound(bits: seq<FlagBit>, value: Flags)
    ensures forall nm :: nm in Selected(bits, value) ==>
      exists k :: 0 <= k < |bits| && bits[k].name == nm && Intersects(value, bits[k].mask)
  {
    if bits != [] {
      var init := bits[..|bits| - 1];
      SelectedSound(init, value);
      forall nm | nm in Selected(bits, value)
        ensures exists k :: 0 <= k < |bits| && bits[k].name == nm && Intersects(value, bits[k].mask)
      {
        if nm in Selected(init, value) {
          var k :| 0 <= k < |init| && init[k].name == nm && Intersects(value, init[k].mask);
          assert bits[k] == init[k];
        } else {
          assert bits[|bits| - 1].name == nm;
        }
      }
    }
  }

  /** Every tested bit that the value intersects has its name listed. */
  lemma {:induction false} SelectedComplete(bits: seq<FlagBit>, value: Flags)
    ensures forall k :: 0 <= k < |bits| && Intersects(value, bits[k].mask) ==> bits[k].name in Selected(bits, value)
  {
    if bits != [] {
      var init := bits[..|bits| - 1];
      SelectedComplete(init, value);
      forall k | 0 <= k < |bits| && Intersects(value, bits[k].mask) ensures bits[k].name in Selected(bits, value) {
        if k < |init| {
          assert init[k] == bits[k];
        }
      }
    }
  }

  /** A value that intersects none of the tested masks has no names. */
  lemma {:induction false} NothingSelected(bits: seq<FlagBit>, value: Flags)
    requires forall k :: 0 <= k < |bits| ==> !Intersects(value, bits[k].mask)
    ensures Selected(bits, value) == []
  {
    if bits != [] {
      NothingSelected(bits[..|bits| - 1], value);
    }
  }

  /** A nonzero value that intersects none of the tested masks prints as "{  }". */
  lemma NoKnownBitFormat(bits: seq<FlagBit>, value: Flags)
    requires value != 0
    requires forall k :: 0 <= k < |bits| ==> !Intersects(value, bits[k].mask)
    ensures FormatFlags(bits, value) == "{  }"
  {
    NothingSelected(bits, value);
  }

  /**
    With disjoint masks, a value equal to one mask lists exactly that name.
   */
  lemma {:induction false} SingleBitSelected(bits: seq<FlagBit>, k: nat)
    requires k < |bits| && bits[k].mask != 0
    requires forall i :: 0 <= i < |bits| && i != k ==> bits[i].mask & bits[k].mask == 0
    ensures Selected(bits, bits[k].mask) == [bits[k].name]
  {
    var init := bits[..|bits| - 1];
    if k == |bits| - 1 {
      NothingSelected(init, bits[k].mask);
    } else {
      SingleBitSelected(init, k);
      assert bits[|bits| - 1].mask & bits[k].mask == 0;
      assert bits[k].mask & bits[|bits| - 1].mask == 0 by {
        BitAndCommutes(bits[k].mask, bits[|bits| - 1].mask);
      }
    }
  }

  lemma BitAndCommutes(a: Flags, b: Flags)
    ensures a & b == b & a
  {
  }

  /** Hence a single flag prints as "{ Name }". */
  lemma SingleBitFormat(bits: seq<FlagBit>, k: nat)
    requires k < |bits| && bits[k].mask != 0
    requires forall i :: 0 <= i < |bits| && i != k ==> bits[i].mask & bits[k].mask == 0
    ensures FormatFlags(bits, bits[k].mask) == "{ " + bits[k].name + " }"
  {
    SingleBitSelected(bits, k);
  }

  /**
    Two tested enumerators with the same value (as the strategy aliases of
    AllocationCreateFlagBits are) are both listed whenever the value has that
    bit.
   */
  lemma AliasesBothListed(bits: seq<FlagBit>, i: nat, j: nat, value: Flags)
    requires i < j < |bits| && bits[i].mask == bits[j].mask
    requires Intersects(value, bits[i].mask)
    ensures bits[i].name in Selected(bits, value) && bits[j].name in Selected(bits, value)
  {
    SelectedComplete(bits, value);
  }

  // ---------------------------------------------------------------------
  // The five flags overloads
  // ---------------------------------------------------------------------

  function AllocationCreateFlagTable(enumerators: seq<Flags>): (bits: seq<FlagBit>)
    requires |enumerators| == ALLOCATION_CREATE_ENUMERATORS
  {
    Table(ALLOCATION_CREATE_FLAG_NAMES, enumerators)
  }

  function PoolCreateFlagTable(enumerators: seq<Flags>): (bits: seq<FlagBit>)
    requires |enumerators| == |POOL_CREATE_FLAG_NAMES|
  {
    Table(POOL_CREATE_FLAG_NAMES[..3], enumerators)
  }

  /** The accumulated string is bounded by the table: far below 2^64 for the formatters' tables. */
  lemma {:induction false} SuffixedBound(bits: seq<FlagBit>, value: Flags, bound: nat)
    requires forall k :: 0 <= k < |bits| ==> |bits[k].name| <= bound
    ensures |Suffixed(Selected(bits, value))| <= |bits| * (bound + 3)
  {
    if bits != [] {
      var init := bits[..|bits| - 1];
      assert forall k :: 0 <= k < |init| ==> init[k] == bits[k];
      SuffixedBound(init, value, bound);
      var last := bits[|bits| - 1];
      if Intersects(value, last.mask) {
        assert Selected(bits, value) == Selected(init, value) + [last.name];
        SuffixedAppend(Selected(init, value), last.name);
      } else {
        assert Selected(bits, value) == Selected(init, value) + [];
        assert Selected(init, value) + [] == Selected(init, value);
      }
      MulStep(|init|, bound + 3);
    }
  }

  lemma MulStep(n: nat, c: nat)
    ensures (n + 1) * c == n * c + c
  {
  }

  lemma SuffixedAppend(names: seq<string>, name: string)
    ensures Suffixed(names + [name]) == Suffixed(names) + name + " | "
  {
    assert (names + [name])[..|names|] == names;
  }

  method AllocationCreateFlagsToString(enumerators: seq<Flags>, value: Flags) returns (s: string)
    requires |enumerators| == ALLOCATION_CREATE_ENUMERATORS
    ensures s == FormatFlags(AllocationCreateFlagTable(enumerators), value)
  {
    SuffixedBound(AllocationCreateFlagTable(enumerators), value, 24);
    s := FlagsToString(AllocationCreateFlagTable(enumerators), value);
  }

  method AllocatorCreateFlagsToString(enumerators: seq<Flags>, value: Flags) returns (s: string)
    requires |enumerators| == |ALLOCATOR_CREATE_FLAG_NAMES|
    ensures s == FormatFlags(Table(ALLOCATOR_CREATE_FLAG_NAMES, enumerators), value)
  {
    SuffixedBound(Table(ALLOCATOR_CREATE_FLAG_NAMES, enumerators), value, 23);
    s := FlagsToString(Table(ALLOCATOR_CREATE_FLAG_NAMES, enumerators), value);
  }

  method DefragmentationFlagsToString(incremental: Flags, value: Flags) returns (s: string)
    ensures s == FormatFlags([FlagBit("Incremental", incremental)], value)
  {
    SuffixedBound([FlagBit("Incremental", incremental)], value, 11);
    s := FlagsToString([FlagBit("Incremental", incremental)], value);
  }

  method PoolCreateFlagsToString(enumerators: seq<Flags>, value: Flags) returns (s: string)
    requires |enumerators| == |POOL_CREATE_FLAG_NAMES|
    ensures s == FormatFlags(PoolCreateFlagTable(enumerators), value)
  {
    SuffixedBound(PoolCreateFlagTable(enumerators), value, 28);
    s := FlagsToString(PoolCreateFlagTable(enumerators), value);
  }

  method RecordFlagsToString(flushAfterCall: Flags, value: Flags) returns (s: string)
    ensures s == FormatFlags([FlagBit("FlushAfterCall", flushAfterCall)], value)
  {
    SuffixedBound([FlagBit("FlushAfterCall", flushAfterCall)], value, 14);
    s := FlagsToString([FlagBit("FlushAfterCall", flushAfterCall)], value);
  }

  /**
    The Pool formatter never lists "AlgorithmMask", although the Pool switch
    names that enumerator when its value is distinct from the others.
   */
  lemma PoolFlagsOmitAlgorithmMask(enumerators: seq<Flags>, value: Flags)
    requires |enumerators| == |POOL_CREATE_FLAG_NAMES|
    ensures "AlgorithmMask" !in Selected(PoolCreateFlagTable(enumerators), value)
    ensures Distinct(enumerators) ==> PoolCreateFlagBitsToString(enumerators, enumerators[3]) == "AlgorithmMask"
  {
    SelectedSound(PoolCreateFlagTable(enumerators), value);
  }
}
