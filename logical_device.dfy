/** The queue set-up of create_logical_device: one queue create-info per
    distinct queue family. */
module LogicalDevice {
  import opened Vulkan
  import opened QueueFamilies

  /** The elements of the std::set {graphics, present}, in the set's
      ascending order. */
  function UniqueQueueFamilies(graphics: nat, present: nat): (families: seq<nat>)
    ensures |families| == (if graphics == present then 1 else 2)
    ensures forall f :: f in families <==> f == graphics || f == present
    ensures forall k, m :: 0 <= k < m < |families| ==> families[k] < families[m]
  {
    if graphics == present then [graphics]
    else if graphics < present then [graphics, present]
    else [present, graphics]
  }

  /** One queue create-info per distinct family of {graphics, present}, each
      asking for a single queue, in ascending family order. */
  ghost predicate OneQueuePerUniqueFamily(infos: seq<QueueCreateInfo>, graphics: nat, present: nat) {
    && |infos| == (if graphics == present then 1 else 2)
    && (forall k :: 0 <= k < |infos| ==> infos[k].queueCount == 1)
    && (forall k :: 0 <= k < |infos| ==> infos[k].queueFamilyIndex == graphics || infos[k].queueFamilyIndex == present)
    && (exists k :: 0 <= k < |infos| && infos[k].queueFamilyIndex == graphics)
    && (exists k :: 0 <= k < |infos| && infos[k].queueFamilyIndex == present)
    && (forall k, m :: 0 <= k < m < |infos| ==> infos[k].queueFamilyIndex < infos[m].queueFamilyIndex)
  }

  /** The queue create-infos of create_logical_device: one push per element
      of the set of unique families. The .value() calls on the two indices
      need both to be present. */
  method BuildQueueCreateInfos(indices: QueueFamilyIndices) returns (infos: seq<QueueCreateInfo>)
    requires indices.IsComplete()
    ensures OneQueuePerUniqueFamily(infos, indices.graphicsFamily.value, indices.presentFamily.value)
  {
    var uniqueQueueFamilies := UniqueQueueFamilies(indices.graphicsFamily.value, indices.presentFamily.value);
    infos := [];
    for k := 0 to |uniqueQueueFamilies|
      invariant |infos| == k
      invariant forall m :: 0 <= m < k ==> infos[m] == QueueCreateInfo(uniqueQueueFamilies[m], 1)
    {
      infos := infos + [QueueCreateInfo(uniqueQueueFamilies[k], 1)];
    }
    assert uniqueQueueFamilies[0] == infos[0].queueFamilyIndex;
    assert uniqueQueueFamilies[|infos| - 1] == infos[|infos| - 1].queueFamilyIndex;
  }
}
