/** The choices that turn a device's surface report into a swapchain
    configuration, and the image sharing mode that goes with the logical
    device's queues. */
module Swapchain {
  import opened Wrappers
  import opened Vulkan
  import opened QueueFamilies
  import opened LogicalDevice

  /** The surface format pick_sc_surface_format looks for. */
  const PREFERRED_SURFACE_FORMAT: SurfaceFormat := SurfaceFormat(FORMAT_B8G8R8_SRGB, COLOR_SPACE_SRGB_NONLINEAR)

  /** The loop of pick_sc_surface_format: the first entry whose format is
      B8G8R8_SRGB and whose colour space is SRGB_NONLINEAR, if any. */
  function FindPreferredFormat(formats: seq<SurfaceFormat>): (found: Option<SurfaceFormat>)
    ensures found.Some? <==> PREFERRED_SURFACE_FORMAT in formats
    ensures found.Some? ==> found.value == PREFERRED_SURFACE_FORMAT
  {
    if formats == [] then None
    else if formats[0].format == FORMAT_B8G8R8_SRGB && formats[0].colorSpace == COLOR_SPACE_SRGB_NONLINEAR then
      Some(formats[0])
    else
      FindPreferredFormat(formats[1..])
  }

  /** pick_sc_surface_format: the preferred sRGB entry when the device offers
      it, otherwise the first entry the device reported. Indexing element 0
      of an empty list is undefined in the source, so the list must not be
      empty; device suitability guarantees that it is not. */
  function PickSurfaceFormat(formats: seq<SurfaceFormat>): (chosen: SurfaceFormat)
    requires |formats| > 0
    ensures chosen in formats
    ensures PREFERRED_SURFACE_FORMAT in formats ==> chosen == PREFERRED_SURFACE_FORMAT
    ensures PREFERRED_SURFACE_FORMAT !in formats ==> chosen == formats[0]
  {
    match FindPreferredFormat(formats)
    case Some(f) => f
    case None => formats[0]
  }

  /** pick_sc_present_format: MAILBOX when the device offers it, otherwise
      FIFO, which every implementation must support. No other mode is ever
      chosen, whatever the list holds. */
  function PickPresentMode(modes: seq<PresentMode>): (mode: PresentMode)
    ensures mode == PRESENT_MODE_MAILBOX <==> PRESENT_MODE_MAILBOX in modes
    ensures mode == PRESENT_MODE_MAILBOX || mode == PRESENT_MODE_FIFO
  {
    if modes == [] then PRESENT_MODE_FIFO
    else if modes[0] == PRESENT_MODE_MAILBOX then modes[0]
    else PickPresentMode(modes[1..])
  }

  /** MAILBOX wins in either order, and FIFO is returned whenever MAILBOX is
      missing, even from a list that does not offer FIFO. */
  lemma PresentModeExamples()
    ensures PickPresentMode([PRESENT_MODE_FIFO]) == PRESENT_MODE_FIFO
    ensures PickPresentMode([PRESENT_MODE_FIFO, PRESENT_MODE_MAILBOX]) == PRESENT_MODE_MAILBOX
    ensures PickPresentMode([PRESENT_MODE_MAILBOX, PRESENT_MODE_FIFO]) == PRESENT_MODE_MAILBOX
    ensures PickPresentMode([PRESENT_MODE_IMMEDIATE, PRESENT_MODE_FIFO_RELAXED]) == PRESENT_MODE_FIFO
  {
  }

  /** static_cast<uint32_t> of an int: reduction modulo 2^32. */
  function ToU32(x: i32): (r: u32)
    ensures x >= 0 ==> r == x
    ensures x < 0 ==> r == x + 0x1_0000_0000
  {
    x % 0x1_0000_0000
  }

  /** std::max(lo, std::min(hi, x)). */
  function Clamp(lo: u32, hi: u32, x: u32): (r: u32)
    ensures lo <= r
    ensures lo <= hi ==> r <= hi
    ensures lo <= x <= hi ==> r == x
    ensures lo <= hi && x < lo ==> r == lo
    ensures lo <= hi && hi < x ==> r == hi
    ensures hi < lo ==> r == lo
  {
    var m := if hi < x then hi else x;
    if lo < m then m else lo
  }

  /** choose_swap_extent (the framebuffer size is the input): the surface's
      current extent, unless its width is the UINT32_MAX sentinel that lets
      the window decide; then the framebuffer size, with width and height
      each clamped into the surface's [min, max] extent. */
  function ChooseSwapExtent(capabilities: SurfaceCapabilities, framebufferWidth: i32, framebufferHeight: i32): (extent: Extent2D)
    ensures capabilities.currentExtent.width != UINT32_MAX ==> extent == capabilities.currentExtent
    ensures capabilities.currentExtent.width == UINT32_MAX ==>
              extent.width >= capabilities.minImageExtent.width &&
              extent.height >= capabilities.minImageExtent.height
    ensures capabilities.currentExtent.width == UINT32_MAX &&
            capabilities.minImageExtent.width <= capabilities.maxImageExtent.width ==>
              extent.width <= capabilities.maxImageExtent.width
    ensures capabilities.currentExtent.width == UINT32_MAX &&
            capabilities.minImageExtent.height <= capabilities.maxImageExtent.height ==>
              extent.height <= capabilities.maxImageExtent.height
    ensures capabilities.currentExtent.width == UINT32_MAX &&
            capabilities.minImageExtent.width <= framebufferWidth <= capabilities.maxImageExtent.width ==>
              extent.width == framebufferWidth
    ensures capabilities.currentExtent.width == UINT32_MAX &&
            capabilities.minImageExtent.height <= framebufferHeight <= capabilities.maxImageExtent.height ==>
              extent.height == framebufferHeight
  {
    if capabilities.currentExtent.width != UINT32_MAX then
      capabilities.currentExtent
    else
      var actual := Extent2D(ToU32(framebufferWidth), ToU32(framebufferHeight));
      Extent2D(Clamp(capabilities.minImageExtent.width, capabilities.maxImageExtent.width, actual.width),
               Clamp(capabilities.minImageExtent.height, capabilities.maxImageExtent.height, actual.height))
  }

  /** Width and height are clamped independently: the framebuffer height has
      no effect on the chosen width, nor the width on the height. */
  lemma ExtentAxesIndependent(capabilities: SurfaceCapabilities, w1: i32, h1: i32, w2: i32, h2: i32)
    ensures w1 == w2 ==> ChooseSwapExtent(capabilities, w1, h1).width == ChooseSwapExtent(capabilities, w2, h2).width
    ensures h1 == h2 ==> ChooseSwapExtent(capabilities, w1, h1).height == ChooseSwapExtent(capabilities, w2, h2).height
  {
  }

  /** Out-of-range framebuffer values in the window-decides case: too narrow
      gives the minimum; when the bounds do not cross, too wide gives the
      maximum, and so does a negative value, which the cast to uint32_t turns
      into a value of at least 2^31, whenever the maximum is below 2^31. The
      same holds for the height. */
  lemma ExtentOutOfRange(capabilities: SurfaceCapabilities, framebufferWidth: i32, framebufferHeight: i32)
    requires capabilities.currentExtent.width == UINT32_MAX
    ensures var extent := ChooseSwapExtent(capabilities, framebufferWidth, framebufferHeight);
            var lo := capabilities.minImageExtent;
            var hi := capabilities.maxImageExtent;
      && (lo.width <= hi.width < framebufferWidth ==> extent.width == hi.width)
      && (0 <= framebufferWidth < lo.width ==> extent.width == lo.width)
      && (framebufferWidth < 0 ==> extent.width == Clamp(lo.width, hi.width, framebufferWidth + 0x1_0000_0000))
      && (framebufferWidth < 0 && lo.width <= hi.width < 0x8000_0000 ==> extent.width == hi.width)
      && (lo.height <= hi.height < framebufferHeight ==> extent.height == hi.height)
      && (0 <= framebufferHeight < lo.height ==> extent.height == lo.height)
      && (framebufferHeight < 0 ==> extent.height == Clamp(lo.height, hi.height, framebufferHeight + 0x1_0000_0000))
      && (framebufferHeight < 0 && lo.height <= hi.height < 0x8000_0000 ==> extent.height == hi.height)
  {
  }

  /** The window-decides case at the program's own window size. */
  lemma SentinelExtentExample()
    ensures ChooseSwapExtent(SurfaceCapabilities(2, 8, Extent2D(UINT32_MAX, UINT32_MAX), Extent2D(1, 1),
                                                 Extent2D(4096, 4096), 1), 1280, 720)
            == Extent2D(1280, 720)
  {
  }

  /** uint32 addition of one: UINT32_MAX wraps to 0. */
  function WrappingIncrement(x: u32): (r: u32)
    ensures x < UINT32_MAX ==> r == x + 1
    ensures x == UINT32_MAX ==> r == 0
  {
    (x + 1) % 0x1_0000_0000
  }

  /** The image count create_swap_chain asks for: one more than the minimum
      (in uint32 arithmetic), brought down to the maximum when there is one,
      a maximum of 0 meaning no limit. */
  function ImageCount(capabilities: SurfaceCapabilities): (count: u32)
    ensures capabilities.maxImageCount == 0 ==> count == WrappingIncrement(capabilities.minImageCount)
    ensures capabilities.maxImageCount > 0 ==> count <= capabilities.maxImageCount
    ensures capabilities.maxImageCount > 0 && WrappingIncrement(capabilities.minImageCount) > capabilities.maxImageCount ==>
              count == capabilities.maxImageCount
    ensures capabilities.minImageCount < capabilities.maxImageCount ==> count == capabilities.minImageCount + 1
    ensures capabilities.minImageCount < UINT32_MAX &&
            (capabilities.maxImageCount == 0 || capabilities.minImageCount <= capabilities.maxImageCount) ==>
              capabilities.minImageCount <= count
  {
    var count := WrappingIncrement(capabilities.minImageCount);
    if capabilities.maxImageCount > 0 && count > capabilities.maxImageCount then capabilities.maxImageCount else count
  }

  /** The increment is not guarded: a minimum of UINT32_MAX asks for zero
      images, whatever the maximum. */
  lemma ImageCountWrapsAtMaximumMinimum(capabilities: SurfaceCapabilities)
    requires capabilities.minImageCount == UINT32_MAX
    ensures ImageCount(capabilities) == 0
  {
  }

  /** imageSharingMode with the queue family indices handed to the swapchain
      (their count is queueFamilyIndexCount). */
  datatype ImageSharing = ImageSharing(mode: SharingMode, queueFamilyIndices: seq<nat>)

  /** The sharing-mode decision of create_swap_chain: concurrent between the
      two families when they differ, exclusive with no family list when they
      are the same. The .value() calls need both indices to be present. */
  function ImageSharingFor(indices: QueueFamilyIndices): (sharing: ImageSharing)
    requires indices.IsComplete()
    ensures sharing.mode == Exclusive <==> indices.graphicsFamily.value == indices.presentFamily.value
    ensures sharing.mode == Exclusive ==> sharing.queueFamilyIndices == []
    ensures sharing.mode == Concurrent ==>
              sharing.queueFamilyIndices == [indices.graphicsFamily.value, indices.presentFamily.value]
  {
    var queueFamilyIndices := [indices.graphicsFamily.value, indices.presentFamily.value];
    if indices.graphicsFamily != indices.presentFamily then ImageSharing(Concurrent, queueFamilyIndices)
    else ImageSharing(Exclusive, [])
  }

  /** The swapchain shares its images concurrently exactly when the logical
      device was given two queue families, and then between those two. */
  lemma SharingAgreesWithQueueCreateInfos(indices: QueueFamilyIndices, infos: seq<QueueCreateInfo>)
    requires indices.IsComplete()
    requires OneQueuePerUniqueFamily(infos, indices.graphicsFamily.value, indices.presentFamily.value)
    ensures ImageSharingFor(indices).mode == Concurrent <==> |infos| == 2
    ensures ImageSharingFor(indices).mode == Concurrent ==>
              forall f :: f in ImageSharingFor(indices).queueFamilyIndices <==>
                exists k :: 0 <= k < |infos| && infos[k].queueFamilyIndex == f
  {
  }

  /** The fields of VkSwapchainCreateInfoKHR that depend on the device (the
      rest are constants). */
  datatype SwapchainCreateInfo = SwapchainCreateInfo(
    minImageCount: u32,
    imageFormat: Format,
    imageColorSpace: ColorSpace,
    imageExtent: Extent2D,
    sharing: ImageSharing,
    preTransform: u32,
    presentMode: PresentMode)

  /** The configuration create_swap_chain derives from a device's surface
      report, its queue families and the framebuffer size. */
  function SwapchainInfoFor(support: SwapChainSupportDetails, indices: QueueFamilyIndices,
                            framebufferWidth: i32, framebufferHeight: i32): (info: SwapchainCreateInfo)
    requires |support.formats| > 0 && indices.IsComplete()
    ensures SurfaceFormat(info.imageFormat, info.imageColorSpace) in support.formats
    ensures info.presentMode == PRESENT_MODE_MAILBOX || info.presentMode == PRESENT_MODE_FIFO
    ensures support.capabilities.maxImageCount > 0 ==> info.minImageCount <= support.capabilities.maxImageCount
  {
    var surfaceFormat := PickSurfaceFormat(support.formats);
    SwapchainCreateInfo(
      ImageCount(support.capabilities),
      surfaceFormat.format,
      surfaceFormat.colorSpace,
      ChooseSwapExtent(support.capabilities, framebufferWidth, framebufferHeight),
      ImageSharingFor(indices),
      support.capabilities.currentTransform,
      PickPresentMode(support.presentModes))
  }
}
