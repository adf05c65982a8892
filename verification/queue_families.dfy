/**
 * Queue family discovery (find_queue_families) and the per-family queue
 * requests built from it (get_queue_create_infos).
 */
module QueueFamilies {
  import opened VkTypes

  /** QueueFamilyIndices: an optional index for each role the renderer needs. */
  datatype QueueFamilyIndices = QueueFamilyIndices(graphicsFamily: Option<nat>, presentFamily: Option<nat>) {
    predicate IsComplete() {
      graphicsFamily.Some? && presentFamily.Some?
    }
  }

  /** One iteration of the scan: a capable family overwrites whatever was recorded before. */
  function ScanStep(acc: QueueFamilyIndices, f: QueueFamily, i: nat): QueueFamilyIndices {
    QueueFamilyIndices(
      if SupportsGraphics(f) then Some(i) else acc.graphicsFamily,
      if f.presentSupport then Some(i) else acc.presentFamily)
  }

  /** The indices after the scan has looked at families 0 .. n-1 without stopping. */
  function IndicesAfter(families: seq<QueueFamily>, n: nat): QueueFamilyIndices
    requires n <= |families|
  {
    if n == 0 then QueueFamilyIndices(None, None)
    else ScanStep(IndicesAfter(families, n - 1), families[n - 1], n - 1)
  }

  /** Where the scan stops when it has already looked at k families. */
  function StopFrom(families: seq<QueueFamily>, k: nat): (n: nat)
    requires k <= |families|
    decreases |families| - k
  {
    if k == |families| then k
    else if IndicesAfter(families, k + 1).IsComplete() then k + 1
    else StopFrom(families, k + 1)
  }

  /** How many families find_queue_families looks at before it breaks out or runs out. */
  function ScanLength(families: seq<QueueFamily>): nat {
    StopFrom(families, 0)
  }

  /** What find_queue_families returns for the families a device reports. */
  function QueueFamiliesOf(families: seq<QueueFamily>): QueueFamilyIndices {
    StopFromBounds(families, 0);
    IndicesAfter(families, ScanLength(families))
  }

  lemma {:induction false} StopFromBounds(families: seq<QueueFamily>, k: nat)
    requires k <= |families|
    ensures k <= StopFrom(families, k) <= |families|
    decreases |families| - k
  {
    if k < |families| && !IndicesAfter(families, k + 1).IsComplete() {
      StopFromBounds(families, k + 1);
    }
  }

  /**
   * find_queue_families: scans the families in order, recording each
   * graphics-capable and each present-capable index, and stops after the
   * first family at which both roles are filled.
   */
  method FindQueueFamilies(families: seq<QueueFamily>) returns (indices: QueueFamilyIndices)
    ensures indices == QueueFamiliesOf(families)
  {
    StopFromBounds(families, 0);
    indices := QueueFamilyIndices(None, None);
    var i := 0;
    while i < |families|
      invariant i <= |families|
      invariant indices == IndicesAfter(families, i)
      invariant StopFrom(families, i) == ScanLength(families)
    {
      var family := families[i];
      if SupportsGraphics(family) {
        indices := indices.(graphicsFamily := Some(i));
      }
      if family.presentSupport {
        indices := indices.(presentFamily := Some(i));
      }
      if indices.IsComplete() {
        return;
      }
      i := i + 1;
    }
  }

  /**
   * The scan stops at the first family at which both roles are filled: no
   * earlier prefix was complete, and unless it ran off the end, the indices
   * it returns are complete.
   */
  lemma {:induction false} ScanStopsAtFirstComplete(families: seq<QueueFamily>)
    ensures ScanLength(families) <= |families|
    ensures forall m :: 0 <= m < ScanLength(families) ==> !IndicesAfter(families, m).IsComplete()
    ensures ScanLength(families) < |families| ==> QueueFamiliesOf(families).IsComplete()
  {
    StopFromFirst(families, 0);
  }

  lemma {:induction false} StopFromFirst(families: seq<QueueFamily>, k: nat)
    requires k <= |families|
    requires forall m :: 0 <= m <= k ==> !IndicesAfter(families, m).IsComplete()
    ensures StopFrom(families, k) <= |families|
    ensures forall m :: 0 <= m < StopFrom(families, k) ==> !IndicesAfter(families, m).IsComplete()
    ensures StopFrom(families, k) < |families| ==> IndicesAfter(families, StopFrom(families, k)).IsComplete()
    decreases |families| - k
  {
    if k < |families| && !IndicesAfter(families, k + 1).IsComplete() {
      StopFromFirst(families, k + 1);
    }
  }

  /**
   * Each role holds the LAST capable family among the first n (later families
   * overwrite earlier ones), and is empty exactly when none of them is capable.
   */
  lemma {:induction false} IndicesAfterAreLastCapable(families: seq<QueueFamily>, n: nat)
    requires n <= |families|
    ensures var r := IndicesAfter(families, n);
      && (r.graphicsFamily.Some? ==>
            var g := r.graphicsFamily.value;
            g < n && SupportsGraphics(families[g]) &&
            forall j :: g < j < n ==> !SupportsGraphics(families[j]))
      && (r.graphicsFamily.None? <==> forall j :: 0 <= j < n ==> !SupportsGraphics(families[j]))
      && (r.presentFamily.Some? ==>
            var p := r.presentFamily.value;
            p < n && families[p].presentSupport &&
            forall j :: p < j < n ==> !families[j].presentSupport)
      && (r.presentFamily.None? <==> forall j :: 0 <= j < n ==> !families[j].presentSupport)
  {
    if n > 0 {
      IndicesAfterAreLastCapable(families, n - 1);
    }
  }

  /**
   * Any role find_queue_families fills names a family, below the family count,
   * that has that capability.
   */
  lemma FilledRolesAreCapable(families: seq<QueueFamily>)
    ensures var r := QueueFamiliesOf(families);
      && (r.graphicsFamily.Some? ==>
            r.graphicsFamily.value < |families| && SupportsGraphics(families[r.graphicsFamily.value]))
      && (r.presentFamily.Some? ==>
            r.presentFamily.value < |families| && families[r.presentFamily.value].presentSupport)
  {
    ScanStopsAtFirstComplete(families);
    IndicesAfterAreLastCapable(families, ScanLength(families));
  }

  /**
   * The indices are complete exactly when the device has some graphics-capable
   * family and some family that can present to the surface.
   */
  lemma CompleteIffBothRolesExist(families: seq<QueueFamily>)
    ensures QueueFamiliesOf(families).IsComplete() <==>
      (exists i :: 0 <= i < |families| && SupportsGraphics(families[i])) &&
      (exists j :: 0 <= j < |families| && families[j].presentSupport)
  {
    ScanStopsAtFirstComplete(families);
    var n := ScanLength(families);
    IndicesAfterAreLastCapable(families, n);
    if n == |families| {
      IndicesAfterAreLastCapable(families, |families|);
    } else {
      assert QueueFamiliesOf(families).IsComplete();
    }
  }

  /** A graphics family, a second graphics family and a present family: the second graphics family is recorded, not the first. */
  lemma GraphicsFamilyIsOverwritten()
    ensures QueueFamiliesOf([QueueFamily(QUEUE_GRAPHICS_BIT, false),
                             QueueFamily(QUEUE_GRAPHICS_BIT, false),
                             QueueFamily(0, true)])
            == QueueFamilyIndices(Some(1), Some(2))
  {
    var fs := [QueueFamily(QUEUE_GRAPHICS_BIT, false), QueueFamily(QUEUE_GRAPHICS_BIT, false), QueueFamily(0, true)];
    assert SupportsGraphics(fs[0]) && SupportsGraphics(fs[1]) && !SupportsGraphics(fs[2]);
    assert IndicesAfter(fs, 1) == QueueFamilyIndices(Some(0), None);
    assert IndicesAfter(fs, 2) == QueueFamilyIndices(Some(1), None);
    assert IndicesAfter(fs, 3) == QueueFamilyIndices(Some(1), Some(2));
    assert StopFrom(fs, 2) == 3;
    assert StopFrom(fs, 1) == 3;
  }

  // ------------------------------------------------- get_queue_create_infos

  /** The fields of VkDeviceQueueCreateInfo the renderer sets that vary. */
  datatype QueueCreateInfo = QueueCreateInfo(queueFamilyIndex: nat, queueCount: nat)

  /**
   * get_queue_create_infos: one request for a single queue per distinct family
   * among {graphics, present}, in the ascending order in which std::set yields
   * them. `.value()` on an empty role throws, so both roles must be filled.
   */
  function QueueCreateInfos(indices: QueueFamilyIndices): (r: seq<QueueCreateInfo>)
    requires indices.IsComplete()
    ensures var g, p := indices.graphicsFamily.value, indices.presentFamily.value;
      && |r| == |{g, p}|
      && (set i | 0 <= i < |r| :: r[i].queueFamilyIndex) == {g, p}
      && (forall i, j :: 0 <= i < j < |r| ==> r[i].queueFamilyIndex < r[j].queueFamilyIndex)
      && (forall i :: 0 <= i < |r| ==> r[i].queueCount == 1)
  {
    var g, p := indices.graphicsFamily.value, indices.presentFamily.value;
    var r :=
      if g == p then [QueueCreateInfo(g, 1)]
      else if g < p then [QueueCreateInfo(g, 1), QueueCreateInfo(p, 1)]
      else [QueueCreateInfo(p, 1), QueueCreateInfo(g, 1)];
    var used := set i | 0 <= i < |r| :: r[i].queueFamilyIndex;
    assert forall x :: x in used <==> x == g || x == p by {
      assert r[0].queueFamilyIndex in {g, p} && r[|r| - 1].queueFamilyIndex in {g, p};
    }
    r
  }
}
