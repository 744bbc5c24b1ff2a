/** find_queue_families: the scan of a device's queue families for one that
    can do graphics and one that can present to the window's surface. */
module QueueFamilies {
  import opened Wrappers
  import opened Vulkan

  /** queue_family_indices_t: the family index recorded for graphics and the
      one recorded for presentation, each possibly absent. */
  datatype QueueFamilyIndices = QueueFamilyIndices(graphicsFamily: Option<nat>, presentFamily: Option<nat>)
  {
    /** is_complete: both indices have been recorded. */
    predicate IsComplete() {
      graphicsFamily.Some? && presentFamily.Some?
    }
  }

  predicate HasGraphics(family: QueueFamily) {
    family.queueFlags & QUEUE_GRAPHICS_BIT != 0
  }

  predicate SupportsPresent(family: QueueFamily) {
    family.presentSupport
  }

  /** The last index below n whose family satisfies p, if there is one. */
  function LastWhere(families: seq<QueueFamily>, n: nat, p: QueueFamily -> bool): (last: Option<nat>)
    requires n <= |families|
    ensures last.Some? ==> last.value < n
    decreases n
  {
    if n == 0 then None
    else if p(families[n - 1]) then Some(n - 1)
    else LastWhere(families, n - 1, p)
  }

  /** LastWhere finds a qualifying index with none after it below n, and
      finds nothing exactly when no index below n qualifies. */
  lemma {:induction false} LastWhereIsLast(families: seq<QueueFamily>, n: nat, p: QueueFamily -> bool)
    requires n <= |families|
    ensures var last := LastWhere(families, n, p);
      && (last.Some? ==> p(families[last.value]) && forall j :: last.value < j < n ==> !p(families[j]))
      && (last.None? <==> forall j :: 0 <= j < n ==> !p(families[j]))
    decreases n
  {
    if n > 0 && !p(families[n - 1]) {
      LastWhereIsLast(families, n - 1, p);
    }
  }

  /** What the scan has recorded once it has looked at the first n families:
      every qualifying family overwrites the index before it. */
  function IndicesAfter(families: seq<QueueFamily>, n: nat): QueueFamilyIndices
    requires n <= |families|
  {
    QueueFamilyIndices(LastWhere(families, n, HasGraphics), LastWhere(families, n, SupportsPresent))
  }

  /** How many families the scan has looked at when it stops, given that it
      has looked at n of them and was not complete after any of them. */
  function ScanEnd(families: seq<QueueFamily>, n: nat): (end: nat)
    requires n <= |families|
    ensures n <= end <= |families|
    decreases |families| - n
  {
    if n == |families| then n
    else if IndicesAfter(families, n + 1).IsComplete() then n + 1
    else ScanEnd(families, n + 1)
  }

  /** The scan ends at the end of the list or after a complete prefix, and
      no prefix it passed on the way was complete. */
  lemma {:induction false} ScanEndIsFirstComplete(families: seq<QueueFamily>, n: nat)
    requires n <= |families|
    ensures var end := ScanEnd(families, n);
      && (end == |families| || IndicesAfter(families, end).IsComplete())
      && (forall m :: n < m < end ==> !IndicesAfter(families, m).IsComplete())
    decreases |families| - n
  {
    if n < |families| && !IndicesAfter(families, n + 1).IsComplete() {
      ScanEndIsFirstComplete(families, n + 1);
    }
  }

  /** One step of the scan: the family at index i overwrites the present
      index if it can present, then the graphics index if it has the
      graphics bit. */
  function Record(indices: QueueFamilyIndices, family: QueueFamily, i: nat): QueueFamilyIndices {
    var withPresent := if SupportsPresent(family) then indices.(presentFamily := Some(i)) else indices;
    if HasGraphics(family) then withPresent.(graphicsFamily := Some(i)) else withPresent
  }

  /** The scan from index i on, with indices recorded so far: record the
      family at i, and stop once both indices are recorded or the list
      ends. */
  function ScanFrom(families: seq<QueueFamily>, i: nat, indices: QueueFamilyIndices): QueueFamilyIndices
    requires i <= |families|
    decreases |families| - i
  {
    if i == |families| then indices
    else
      var next := Record(indices, families[i], i);
      if next.IsComplete() then next else ScanFrom(families, i + 1, next)
  }

  /** The value find_queue_families returns: a recorded graphics index names
      a family of the device with the graphics bit, a recorded present index
      one that can present. */
  function QueueFamilyScan(families: seq<QueueFamily>): (indices: QueueFamilyIndices)
    ensures indices.graphicsFamily.Some? ==>
              indices.graphicsFamily.value < |families| && HasGraphics(families[indices.graphicsFamily.value])
    ensures indices.presentFamily.Some? ==>
              indices.presentFamily.value < |families| && SupportsPresent(families[indices.presentFamily.value])
  {
    ScanMatchesPrefixSpec(families);
    LastWhereIsLast(families, ScanEnd(families, 0), HasGraphics);
    LastWhereIsLast(families, ScanEnd(families, 0), SupportsPresent);
    ScanFrom(families, 0, QueueFamilyIndices(None, None))
  }

  /** Recording the family at index n after the first n families gives what
      the first n + 1 families give. */
  lemma RecordExtendsPrefix(families: seq<QueueFamily>, n: nat)
    requires n < |families|
    ensures Record(IndicesAfter(families, n), families[n], n) == IndicesAfter(families, n + 1)
  {
  }

  /** Started after a prefix of n families that it has recorded and passed,
      the scan returns the indices of the prefix at which ScanEnd stops. */
  lemma {:induction false} ScanFromMatchesPrefixSpec(families: seq<QueueFamily>, n: nat)
    requires n <= |families|
    ensures ScanFrom(families, n, IndicesAfter(families, n)) == IndicesAfter(families, ScanEnd(families, n))
    decreases |families| - n
  {
    if n < |families| {
      RecordExtendsPrefix(families, n);
      if !IndicesAfter(families, n + 1).IsComplete() {
        ScanFromMatchesPrefixSpec(families, n + 1);
      }
    }
  }

  /** The scan returns the indices of the prefix it stops after: each index
      is the last qualifying one in that prefix. */
  lemma ScanMatchesPrefixSpec(families: seq<QueueFamily>)
    ensures ScanFrom(families, 0, QueueFamilyIndices(None, None)) == IndicesAfter(families, ScanEnd(families, 0))
  {
    ScanFromMatchesPrefixSpec(families, 0);
  }

  /** find_queue_families (the driver's family list and surface-support answers
      are the input): look at each family in turn, record it as the present
      family if it can present and as the graphics family if it has the
      graphics bit, and stop as soon as both have been recorded. */
  method FindQueueFamilies(families: seq<QueueFamily>) returns (indices: QueueFamilyIndices)
    ensures indices == QueueFamilyScan(families)
    ensures indices.graphicsFamily.Some? ==>
              indices.graphicsFamily.value < |families| && HasGraphics(families[indices.graphicsFamily.value])
    ensures indices.presentFamily.Some? ==>
              indices.presentFamily.value < |families| && SupportsPresent(families[indices.presentFamily.value])
  {
    indices := QueueFamilyIndices(None, None);
    var i := 0;
    while i < |families|
      invariant 0 <= i <= |families|
      invariant ScanFrom(families, i, indices) == QueueFamilyScan(families)
    {
      if families[i].presentSupport {
        indices := indices.(presentFamily := Some(i));
      }
      if families[i].queueFlags & QUEUE_GRAPHICS_BIT != 0 {
        indices := indices.(graphicsFamily := Some(i));
      }
      if indices.IsComplete() {
        break;
      }
      i := i + 1;
    }
  }

  /** The scan stops after the first prefix of the family list in which both a
      graphics family and a present family occur, or at the end of the list;
      within that prefix each recorded index is the LAST qualifying one, and
      an index stays empty only if no family in the prefix qualifies. */
  lemma ScanStopsAtFirstComplete(families: seq<QueueFamily>)
    ensures var end := ScanEnd(families, 0);
            var indices := QueueFamilyScan(families);
      && end <= |families|
      && (forall m :: 0 <= m < end ==> !IndicesAfter(families, m).IsComplete())
      && (end < |families| ==> indices.IsComplete())
      && (indices.graphicsFamily.Some? ==>
            && indices.graphicsFamily.value < end
            && HasGraphics(families[indices.graphicsFamily.value])
            && forall j :: indices.graphicsFamily.value < j < end ==> !HasGraphics(families[j]))
      && (indices.presentFamily.Some? ==>
            && indices.presentFamily.value < end
            && SupportsPresent(families[indices.presentFamily.value])
            && forall j :: indices.presentFamily.value < j < end ==> !SupportsPresent(families[j]))
      && (indices.graphicsFamily.None? <==> forall j :: 0 <= j < end ==> !HasGraphics(families[j]))
      && (indices.presentFamily.None? <==> forall j :: 0 <= j < end ==> !SupportsPresent(families[j]))
  {
    var end := ScanEnd(families, 0);
    ScanMatchesPrefixSpec(families);
    ScanEndIsFirstComplete(families, 0);
    LastWhereIsLast(families, end, HasGraphics);
    LastWhereIsLast(families, end, SupportsPresent);
  }

  /** After the first n families, the scan is complete exactly when one of
      them has the graphics bit and one of them can present. */
  lemma {:induction false} CompleteAfterIff(families: seq<QueueFamily>, n: nat)
    requires n <= |families|
    ensures IndicesAfter(families, n).IsComplete() <==>
              (exists i :: 0 <= i < n && HasGraphics(families[i])) &&
              (exists j :: 0 <= j < n && SupportsPresent(families[j]))
  {
    var g := LastWhere(families, n, HasGraphics);
    var p := LastWhere(families, n, SupportsPresent);
    LastWhereIsLast(families, n, HasGraphics);
    LastWhereIsLast(families, n, SupportsPresent);
    if g.Some? && p.Some? {
      assert HasGraphics(families[g.value]);
      assert SupportsPresent(families[p.value]);
    }
  }

  /** Some family of the device has the graphics bit. */
  predicate HasGraphicsFamily(families: seq<QueueFamily>) {
    exists i :: 0 <= i < |families| && HasGraphics(families[i])
  }

  /** Some family of the device can present to the surface. */
  predicate HasPresentFamily(families: seq<QueueFamily>) {
    exists j :: 0 <= j < |families| && SupportsPresent(families[j])
  }

  /** find_queue_families yields both indices exactly when the device has a
      graphics-capable family and a family that can present. */
  lemma ScanCompleteIff(families: seq<QueueFamily>)
    ensures QueueFamilyScan(families).IsComplete() <==> HasGraphicsFamily(families) && HasPresentFamily(families)
  {
    var end := ScanEnd(families, 0);
    ScanMatchesPrefixSpec(families);
    ScanEndIsFirstComplete(families, 0);
    CompleteAfterIff(families, end);
    CompleteAfterIff(families, |families|);
  }

  /** With no graphics-capable family, the graphics index stays empty. */
  lemma NoGraphicsFamilyLeavesGraphicsEmpty(families: seq<QueueFamily>)
    requires forall i :: 0 <= i < |families| ==> !HasGraphics(families[i])
    ensures QueueFamilyScan(families).graphicsFamily == None
    ensures !QueueFamilyScan(families).IsComplete()
  {
    ScanMatchesPrefixSpec(families);
    LastWhereIsLast(families, ScanEnd(families, 0), HasGraphics);
  }

  /** The recorded indices are the last qualifying ones, not the first: with a
      graphics-only family, a second graphics-only family and then a
      present-only family, graphics is recorded as family 1. */
  lemma OverwriteKeepsLastGraphicsFamily()
    ensures var families := [QueueFamily(QUEUE_GRAPHICS_BIT, false),
                             QueueFamily(QUEUE_GRAPHICS_BIT, false),
                             QueueFamily(0, true)];
      QueueFamilyScan(families) == QueueFamilyIndices(Some(1), Some(2))
  {
    var families := [QueueFamily(QUEUE_GRAPHICS_BIT, false),
                     QueueFamily(QUEUE_GRAPHICS_BIT, false),
                     QueueFamily(0, true)];
    var none := QueueFamilyIndices(None, None);
    assert ScanFrom(families, 2, QueueFamilyIndices(Some(1), None)) == QueueFamilyIndices(Some(1), Some(2));
    assert ScanFrom(families, 1, QueueFamilyIndices(Some(0), None)) == QueueFamilyIndices(Some(1), Some(2));
    assert ScanFrom(families, 0, none) == QueueFamilyIndices(Some(1), Some(2));
  }
}
