/** The part of the Vulkan API that the device and swapchain negotiation reads:
    fixed-width integers, the enumerants it compares against, and the records
    the driver fills in. */
module Vulkan {

  const UINT32_MAX: int := 0xFFFF_FFFF

  /** uint32_t */
  type u32 = x: int | 0 <= x <= 0xFFFF_FFFF

  /** int, as glfwGetFramebufferSize reports the framebuffer size */
  type i32 = x: int | -0x8000_0000 <= x <= 0x7FFF_FFFF

  /** VkFormat, VkColorSpaceKHR and VkPresentModeKHR are C enumerations;
      a driver may report any value of them. */
  type Format = int
  type ColorSpace = int
  type PresentMode = int

  const FORMAT_UNDEFINED: Format := 0
  const FORMAT_B8G8R8_SRGB: Format := 36
  const COLOR_SPACE_SRGB_NONLINEAR: ColorSpace := 0

  const PRESENT_MODE_IMMEDIATE: PresentMode := 0
  const PRESENT_MODE_MAILBOX: PresentMode := 1
  const PRESENT_MODE_FIFO: PresentMode := 2
  const PRESENT_MODE_FIFO_RELAXED: PresentMode := 3

  /** VK_QUEUE_GRAPHICS_BIT of VkQueueFlags */
  const QUEUE_GRAPHICS_BIT: bv32 := 0x1

  const SWAPCHAIN_EXTENSION_NAME: string := "VK_KHR_swapchain"
  const DEBUG_UTILS_EXTENSION_NAME: string := "VK_EXT_debug_utils"
  const DEBUG_REPORT_EXTENSION_NAME: string := "VK_EXT_debug_report"

  /** VkExtent2D */
  datatype Extent2D = Extent2D(width: u32, height: u32)

  /** The fields of VkSurfaceCapabilitiesKHR that the swapchain set-up reads. */
  datatype SurfaceCapabilities = SurfaceCapabilities(
    minImageCount: u32,
    maxImageCount: u32,
    currentExtent: Extent2D,
    minImageExtent: Extent2D,
    maxImageExtent: Extent2D,
    currentTransform: u32)

  /** VkSurfaceFormatKHR */
  datatype SurfaceFormat = SurfaceFormat(format: Format, colorSpace: ColorSpace)

  /** One queue family of a device: the queueFlags of its
      VkQueueFamilyProperties, and the answer vkGetPhysicalDeviceSurfaceSupportKHR
      gives for it and the window's surface. */
  datatype QueueFamily = QueueFamily(queueFlags: bv32, presentSupport: bool)

  /** swap_chain_support_details_t: what the three surface queries report. An
      empty list stands for a count of zero. */
  datatype SwapChainSupportDetails = SwapChainSupportDetails(
    capabilities: SurfaceCapabilities,
    formats: seq<SurfaceFormat>,
    presentModes: seq<PresentMode>)

  /** Everything the driver answers about one physical device. */
  datatype PhysicalDevice = PhysicalDevice(
    queueFamilies: seq<QueueFamily>,
    extensions: seq<string>,
    swapChainSupport: SwapChainSupportDetails)

  /** The fields of VkDeviceQueueCreateInfo that the code sets (the queue
      priority, a float, is left out). */
  datatype QueueCreateInfo = QueueCreateInfo(queueFamilyIndex: nat, queueCount: nat)

  /** VkSharingMode */
  datatype SharingMode = Exclusive | Concurrent
}
