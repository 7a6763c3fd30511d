/**
  The queue-family scan of TS_VkSelectQueueFamily: one pass over the families
  of the chosen device that records, independently, a family with graphics
  capability and a family that can present to the window surface, and stops
  after the first family at which both have been found.
 */
module QueueFamilyScan {
  import opened VkTypes

  /** vk::QueueFlagBits::eGraphics (VK_QUEUE_GRAPHICS_BIT in the Vulkan specification). */
  const QUEUE_GRAPHICS_BIT: bv32 := 1

  datatype Capability = Graphics | Present

  /** The test applied to each family: at least one queue, and the capability. */
  predicate Qualifies(qf: QueueFamily, c: Capability) {
    qf.queueCount > 0 &&
    match c
    case Graphics => qf.queueFlags & QUEUE_GRAPHICS_BIT != 0
    case Present => qf.presentSupport
  }

  /** The largest index below n whose family qualifies for c, or -1 if there is none. */
  function LastQualifying(fams: seq<QueueFamily>, c: Capability, n: nat): (r: int)
    requires n <= |fams|
    ensures -1 <= r < n
  {
    if n == 0 then -1
    else if Qualifies(fams[n - 1], c) then n - 1
    else LastQualifying(fams, c, n - 1)
  }

  /** After examining the first n families, both indices are set. */
  predicate BothFound(fams: seq<QueueFamily>, n: nat)
    requires n <= |fams|
  {
    LastQualifying(fams, Graphics, n) != -1 && LastQualifying(fams, Present, n) != -1
  }

  /** How many families the scan examines when it has already examined n of them without stopping. */
  function ExaminedFrom(fams: seq<QueueFamily>, n: nat): (e: nat)
    requires n <= |fams|
    ensures n <= e <= |fams|
    decreases |fams| - n
  {
    if n == |fams| then n
    else if BothFound(fams, n + 1) then n + 1
    else ExaminedFrom(fams, n + 1)
  }

  /** How many families the scan examines before it breaks out (or reaches the end). */
  function Examined(fams: seq<QueueFamily>): nat {
    ExaminedFrom(fams, 0)
  }

  /** The (graphics, present) pair the scan produces. */
  function ScanResult(fams: seq<QueueFamily>): (int, int) {
    var e := Examined(fams);
    (LastQualifying(fams, Graphics, e), LastQualifying(fams, Present, e))
  }

  /** The loop of TS_VkSelectQueueFamily, on its local variables. */
  method ScanQueueFamilies(fams: seq<QueueFamily>) returns (graphicIndex: int, presentIndex: int)
    ensures (graphicIndex, presentIndex) == ScanResult(fams)
  {
    graphicIndex := -1;
    presentIndex := -1;
    var i := 0;
    while i < |fams|
      invariant 0 <= i <= |fams|
      invariant ExaminedFrom(fams, i) == Examined(fams)
      invariant graphicIndex == LastQualifying(fams, Graphics, i)
      invariant presentIndex == LastQualifying(fams, Present, i)
    {
      var qf := fams[i];
      if qf.queueCount > 0 && qf.queueFlags & QUEUE_GRAPHICS_BIT != 0 {
        graphicIndex := i;
      }
      var presentSupport := qf.presentSupport;
      if qf.queueCount > 0 && presentSupport {
        presentIndex := i;
      }
      if graphicIndex != -1 && presentIndex != -1 {
        break;
      }
      i := i + 1;
    }
  }

  /**
    A non-negative result names a qualifying family and is the last qualifying
    one below n; -1 means that no family below n qualifies.
   */
  lemma {:induction false} LastQualifyingMeaning(fams: seq<QueueFamily>, c: Capability, n: nat)
    requires n <= |fams|
    ensures var r := LastQualifying(fams, c, n);
      && (r >= 0 ==> Qualifies(fams[r], c) && forall j :: r < j < n ==> !Qualifies(fams[j], c))
      && (r == -1 <==> forall j :: 0 <= j < n ==> !Qualifies(fams[j], c))
  {
    if n > 0 && !Qualifies(fams[n - 1], c) {
      LastQualifyingMeaning(fams, c, n - 1);
    }
  }

  lemma {:induction false} ExaminedFromStops(fams: seq<QueueFamily>, n: nat)
    requires n <= |fams|
    requires forall m :: 0 <= m <= n ==> !BothFound(fams, m)
    ensures var e := ExaminedFrom(fams, n);
      && (e == |fams| || BothFound(fams, e))
      && forall m :: 0 <= m < e ==> !BothFound(fams, m)
    decreases |fams| - n
  {
    if n < |fams| && !BothFound(fams, n + 1) {
      ExaminedFromStops(fams, n + 1);
    }
  }

  /**
    The scan examines families up to the first prefix after which both
    indices are set, and all of them if that never happens.
   */
  lemma ExaminedIsFirstStop(fams: seq<QueueFamily>)
    ensures var e := Examined(fams);
      && e <= |fams|
      && (e == |fams| || BothFound(fams, e))
      && forall m :: 0 <= m < e ==> !BothFound(fams, m)
  {
    ExaminedFromStops(fams, 0);
  }

  /**
    The scan results: each non-negative index names a family with queues and
    the capability, -1 only when no examined family had it, and each index is
    the last qualifying one among the examined families.
   */
  lemma ScanResultMeaning(fams: seq<QueueFamily>)
    ensures var (g, p) := ScanResult(fams); var e := Examined(fams);
      && -1 <= g < e && -1 <= p < e
      && (g >= 0 ==> Qualifies(fams[g], Graphics) && forall j :: g < j < e ==> !Qualifies(fams[j], Graphics))
      && (p >= 0 ==> Qualifies(fams[p], Present) && forall j :: p < j < e ==> !Qualifies(fams[j], Present))
      && (g == -1 <==> forall j :: 0 <= j < e ==> !Qualifies(fams[j], Graphics))
      && (p == -1 <==> forall j :: 0 <= j < e ==> !Qualifies(fams[j], Present))
  {
    ExaminedIsFirstStop(fams);
    LastQualifyingMeaning(fams, Graphics, Examined(fams));
    LastQualifyingMeaning(fams, Present, Examined(fams));
  }

  /**
    When the scan breaks out after family k, at least one of the two results
    is k itself (the family that completed the pair).
   */
  lemma StopFamilyIsUsed(fams: seq<QueueFamily>)
    requires BothFound(fams, Examined(fams))
    ensures var (g, p) := ScanResult(fams);
      Examined(fams) >= 1 && (g == Examined(fams) - 1 || p == Examined(fams) - 1)
  {
    var e := Examined(fams);
    ExaminedIsFirstStop(fams);
    assert e != 0;
    assert !BothFound(fams, e - 1);
  }

  /** When no prefix ever has both capabilities, every family is examined. */
  lemma NoStopScansAll(fams: seq<QueueFamily>)
    requires forall m :: 0 <= m < |fams| ==> !BothFound(fams, m)
    ensures Examined(fams) == |fams|
  {
    ExaminedIsFirstStop(fams);
  }
}
