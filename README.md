# Vulkan triangle boilerplate: device and swapchain negotiation

This project models the decision logic of `Vk_Wrapper` in the Vulkan
"hello triangle" boilerplate, and proves properties of it. The model covers:

- how the program scans a physical device's queue families;
- how it checks device extensions and instance validation layers;
- how it builds the instance extension list;
- how it decides whether a device is suitable, and picks the first suitable device;
- how it chooses the swapchain's surface format, present mode, extent and image count;
- how it builds the queue create-infos of the logical device, and decides the swapchain's image sharing mode.

Every answer the driver or the window system gives becomes an input:

- a device's queue families, with their flags and present support;
- its extension names and its surface report;
- the installed layers;
- the window system's extension list;
- the framebuffer size;
- whether each creation call succeeds.

The modules:

- `Vulkan` holds the API values the code reads: `uint32_t` and `int` as the subset types `u32` and `i32`, the enumerant values, and the driver records.
- `QueueFamilies` holds `find_queue_families` and `is_complete`.
- `DeviceSupport` holds the extension and layer checks and the instance extension list.
- `LogicalDevice` holds the queue create-infos of `create_logical_device`.
- `Swapchain` holds the surface-format, present-mode, extent and image-count choices and the sharing mode.
- `Boilerplate` holds `device_is_suitable` and the class `VkWrapper`:
  - its fields are those that the initialisation steps set;
  - its methods are `create_instance`, `device_is_suitable` (`DeviceIsSuitable`), `pick_physical_device`, the decision part of `create_logical_device`, the decision part of `create_swap_chain`, and `init`;
  - `init` runs its steps through three methods, each covering a run of them: `CreateInstanceAndSurface` (instance, debug messenger, surface), `SetUpDevice` (device pick, then the rest) and `CreateDeviceAndSwapChain` (logical device, then swapchain);
  - a ghost log records, in order, the per-device queries `device_is_suitable` makes while `pick_physical_device` tests devices, so the order of evaluation can be stated. The later queries of the selected device, in `create_logical_device` and `create_swap_chain`, are not logged;
  - the model follows the source file `triangle/src/vulkan_boilerplate.cc` and not the header, which is out of date with it.

How integers are modelled:

- `int` becomes `i32`.
- The cast of the framebuffer size to `uint32_t` is reduction modulo 2^32.
- `minImageCount + 1` is uint32 addition, so it wraps to 0 at `UINT32_MAX`.

## Model

| member | source | states |
|---|---|---|
| QueueFamilies.QueueFamilyScan | triangle/src/vulkan_boilerplate.cc:47-63 | The value `find_queue_families` returns. A recorded graphics index names a family of the device with the graphics bit, and a recorded present index names one that can present. |
| QueueFamilies.ScanFromMatchesPrefixSpec | triangle/src/vulkan_boilerplate.cc:47-63 | Run from a prefix it has already recorded, the step-by-step scan returns the indices of the prefix at which the scan stops. |
| QueueFamilies.ScanMatchesPrefixSpec | triangle/src/vulkan_boilerplate.cc:47-63 | The scan's result equals the reference definition: in the prefix it stops after, each index is the last qualifying one. |
| QueueFamilies.FindQueueFamilies | triangle/src/vulkan_boilerplate.cc:37-64 | The loop returns the value of the scan. A recorded graphics index is below the family count and names a family with the graphics bit. A recorded present index is below the count and names a family that can present. |
| QueueFamilies.LastWhereIsLast | triangle/src/vulkan_boilerplate.cc:47-58 | Overwriting an index on every qualifying family leaves the last qualifying index of the prefix, with no qualifying family after it. The index stays empty exactly when no family in the prefix qualifies. |
| QueueFamilies.ScanEndIsFirstComplete | triangle/src/vulkan_boilerplate.cc:59-62 | The scan stops either at the end of the list or after a complete prefix, and no shorter prefix it passed was complete. |
| QueueFamilies.ScanStopsAtFirstComplete | triangle/src/vulkan_boilerplate.cc:47-63 | The scan stops at the first prefix in which both a graphics family and a present family occur. It is complete whenever it stops early. Within the prefix, each recorded index is the last qualifying one, and each is empty iff no family in the prefix qualifies. |
| QueueFamilies.CompleteAfterIff | triangle/src/vulkan_boilerplate.cc:178-181 | `is_complete` holds after n families iff some family among them has the graphics bit and some family among them can present. |
| QueueFamilies.ScanCompleteIff | triangle/src/vulkan_boilerplate.cc:47-63 | The returned indices are complete iff the device has a graphics-capable family and a family that can present. |
| QueueFamilies.NoGraphicsFamilyLeavesGraphicsEmpty | triangle/src/vulkan_boilerplate.cc:55-57 | With no graphics-capable family, `graphics_family` stays empty and the indices are incomplete. |
| QueueFamilies.OverwriteKeepsLastGraphicsFamily | triangle/src/vulkan_boilerplate.cc:53-56 | Given graphics, graphics, present, the graphics index is 1, not 0. |
| DeviceSupport.CheckDeviceExtensionSupport | triangle/src/vulkan_boilerplate.cc:66-82 | Erasing every available name from the required set empties it iff every required name is available. |
| DeviceSupport.CheckValidationLayerSupport | triangle/src/vulkan_boilerplate.cc:85-107 | The flag is true iff at least one requested layer is among the available layers. It is therefore false for an empty request list. |
| DeviceSupport.RequiredExtensions | triangle/src/vulkan_boilerplate.cc:112-127 | The result is the window-system list, extended exactly when validation is on by the debug-utils and debug-report names in that order. A name is in the result iff it came from one of those sources. |
| DeviceSupport.SingleLayerAnyIsAll | triangle/src/vulkan_boilerplate.cc:26-29 | With the program's single validation layer, "any requested layer is available" is the same as "all requested layers are available". |
| DeviceSupport.AnyLayerIsNotAllLayers | triangle/src/vulkan_boilerplate.cc:94-105 | With two requested layers of which one is installed, the check passes although not all requested layers are available. |
| Swapchain.FindPreferredFormat | triangle/src/vulkan_boilerplate.cc:258-265 | The search finds an entry iff the preferred sRGB format is in the list, and the entry it finds is that format. |
| Swapchain.PickSurfaceFormat | triangle/src/vulkan_boilerplate.cc:256-267 | For a non-empty list, the choice is a member of the list. It is the preferred (B8G8R8_SRGB, SRGB_NONLINEAR) entry when the list has one, and element 0 otherwise. |
| Swapchain.PickPresentMode | triangle/src/vulkan_boilerplate.cc:269-279 | The mode is MAILBOX iff MAILBOX is offered. It is FIFO otherwise, and never any other mode. |
| Swapchain.PresentModeExamples | triangle/src/vulkan_boilerplate.cc:269-279 | [FIFO] gives FIFO; [FIFO, MAILBOX] and [MAILBOX, FIFO] give MAILBOX; [IMMEDIATE, FIFO_RELAXED] gives FIFO, although FIFO is not offered. |
| Swapchain.ToU32 | triangle/src/vulkan_boilerplate.cc:193-196 | `static_cast<uint32_t>` keeps a non-negative int and adds 2^32 to a negative one. |
| Swapchain.Clamp | triangle/src/vulkan_boilerplate.cc:197-200 | `max(lo, min(hi, x))` is at least lo. It is at most hi when lo <= hi, and equals x when x is in range. Otherwise it is the bound that x passed, or lo when the bounds cross. |
| Swapchain.ChooseSwapExtent | triangle/src/vulkan_boilerplate.cc:184-203 | Without the UINT32_MAX sentinel, the result is the current extent, whatever the framebuffer size. With the sentinel, each axis is at least the minimum, at most the maximum when min <= max, and equal to the framebuffer value when that is in range. |
| Swapchain.ExtentAxesIndependent | triangle/src/vulkan_boilerplate.cc:197-200 | The chosen width does not depend on the framebuffer height, and the chosen height does not depend on the width. |
| Swapchain.ExtentOutOfRange | triangle/src/vulkan_boilerplate.cc:193-200 | With the sentinel, a non-negative framebuffer value below the minimum gives the minimum, and, when min <= max, a value above the maximum gives the maximum. A negative value is cast to value + 2^32 before clamping, so when min <= max and the maximum is below 2^31 it gives the maximum. |
| Swapchain.SentinelExtentExample | triangle/src/vulkan_boilerplate.cc:186-201 | With the sentinel, min (1,1), max (4096,4096) and framebuffer (1280,720), the extent is (1280,720). |
| Swapchain.WrappingIncrement | triangle/src/vulkan_boilerplate.cc:498 | uint32 `+ 1` adds one below UINT32_MAX and wraps to 0 at UINT32_MAX. |
| Swapchain.ImageCount | triangle/src/vulkan_boilerplate.cc:497-503 | A maximum of 0 never clamps. Under a positive maximum, the count is at most the maximum. The count equals the maximum when min+1 exceeds it, and is min+1 when min < max. Without wrap-around, and when the maximum is 0 or at least the minimum, the count is at least the minimum. |
| Swapchain.ImageCountWrapsAtMaximumMinimum | triangle/src/vulkan_boilerplate.cc:498-503 | A minimum of UINT32_MAX asks for zero images. |
| LogicalDevice.UniqueQueueFamilies | triangle/src/vulkan_boilerplate.cc:396-399 | The set {graphics, present} lists the two families in ascending order: one element if they are equal, two if they differ. |
| LogicalDevice.BuildQueueCreateInfos | triangle/src/vulkan_boilerplate.cc:392-411 | The loop builds one create-info per distinct family of {graphics, present}, each with queueCount 1, in ascending order. That is one create-info when the families are equal and two when they differ, and both families are covered. |
| Swapchain.ImageSharingFor | triangle/src/vulkan_boilerplate.cc:516-530 | The mode is EXCLUSIVE, with no family list, iff graphics == present. Otherwise it is CONCURRENT with exactly [graphics, present]. |
| Swapchain.SharingAgreesWithQueueCreateInfos | triangle/src/vulkan_boilerplate.cc:396-530 | Relates the queue create-infos of lines 396-411 to the sharing decision of lines 516-530. Sharing is concurrent iff the logical device got two queue create-infos. The shared families are then exactly the families of those create-infos. |
| Swapchain.SwapchainInfoFor | triangle/src/vulkan_boilerplate.cc:488-536 | The swapchain format is one the surface reported, the present mode is MAILBOX or FIFO, and a positive maximum image count is respected. |
| Boilerplate.Suitable | triangle/src/vulkan_boilerplate.cc:205-218 | A device is suitable iff it has a graphics family and a present family, offers the swapchain extension, and reports a non-empty format list and a non-empty present-mode list. A suitable device has both queue family indices recorded, which `create_logical_device` relies on. |
| Boilerplate.NoGraphicsFamilyNotSuitable | triangle/src/vulkan_boilerplate.cc:205-218 | A device without a graphics-capable family is never suitable. |
| Boilerplate.ScanQueriesStayInPrefix | triangle/src/vulkan_boilerplate.cc:473-480 | Testing the first n devices queries no device from position n on. |
| Boilerplate.SurfaceQueriedIffExtensions | triangle/src/vulkan_boilerplate.cc:209-216 | A device's surface report is queried iff the device has the required extensions, so the query is skipped when they are missing. |
| Boilerplate.FirstSuitableFrom | triangle/src/vulkan_boilerplate.cc:473-480 | Finds a suitable device with none suitable before it, or nothing exactly when no device is suitable. |
| Boilerplate.FirstSuitableIsFirst | triangle/src/vulkan_boilerplate.cc:473-480 | A suitable device with no suitable device before it is the one the first-fit search returns. |
| Boilerplate.VkWrapper.DeviceIsSuitable | triangle/src/vulkan_boilerplate.cc:205-218 | The answer is the suitability predicate. The log gains the queue-family and extension queries, then the surface query only if the extensions are supported. |
| Boilerplate.VkWrapper.PickPhysicalDevice | triangle/src/vulkan_boilerplate.cc:460-486 | With zero devices, it fails with "no GPUs" before any test. Otherwise the selection is the first suitable device and only devices up to it are queried. If no device qualifies, it fails with "no suitable GPU" after testing all of them. |
| Boilerplate.VkWrapper.CreateInstance | triangle/src/vulkan_boilerplate.cc:327-373 | With validation on and no validation layer installed, it fails before creating anything. Otherwise the instance gets the required extensions and, with validation, the validation layers. A driver failure leaves the state unchanged. |
| Boilerplate.VkWrapper.CreateLogicalDevice | triangle/src/vulkan_boilerplate.cc:392-440 | If the driver creates the device, the create-info has one queue per unique family, the swapchain extension and the enabled layers, and the recorded queue families are the graphics and present families (corrected, see Findings). Otherwise it fails with "failed to create logical device" and records nothing. |
| Boilerplate.VkWrapper.CreateSwapChain | triangle/src/vulkan_boilerplate.cc:488-551 | If the driver creates the swapchain, the recorded create-info, format and extent are those of the swapchain configuration function. Otherwise it fails with "failed to create swap chain" and they are unchanged. |
| Boilerplate.VkWrapper.CreateInstanceAndSurface | triangle/src/vulkan_boilerplate.cc:284-286 | Passes iff the layers are available and the instance, the debug messenger (only with validation on) and the surface are all created. Otherwise it returns the error of the first of those steps that fails. The instance create-info is recorded iff the instance is created. |
| Boilerplate.VkWrapper.CreateDeviceAndSwapChain | triangle/src/vulkan_boilerplate.cc:288-289 | Fails with the logical-device error if the device is not created, with the swapchain error if only the swapchain is not, and passes otherwise. Each step's state is recorded exactly when it succeeds. |
| Boilerplate.VkWrapper.SetUpDevice | triangle/src/vulkan_boilerplate.cc:287-289 | The result is "no GPUs", "no suitable GPU", the logical-device error, the swapchain error or success, in that order of checks. The selected device is the first suitable one, and only devices up to it are queried. |
| Boilerplate.VkWrapper.Init | triangle/src/vulkan_boilerplate.cc:281-290 | The steps run in order and the result names the first that fails: missing layers, instance, debug messenger, surface, no GPUs, no suitable GPU, logical device, swapchain. A failure before the device pick queries no device and changes no device state. The instance, device and swapchain state is recorded exactly for the steps that succeeded, and on success the selected device is the first suitable one. |
| Boilerplate.DeviceQueueFamiliesAsWritten | triangle/src/vulkan_boilerplate.cc:439-440 | As written, both queues come from one family. That family can present and is the last one able to present among the families the scan looked at; nothing makes it graphics-capable. |
| Boilerplate.GraphicsQueueFromPresentFamilyAsWritten | triangle/src/vulkan_boilerplate.cc:439 | As written, a device with a graphics-only family 0 and a present-only family 1 gets its graphics queue from family 1, which has no graphics bit. |
| Boilerplate.DeviceQueueFamilies | triangle/src/vulkan_boilerplate.cc:439-440 | Corrected: the graphics queue's family has the graphics bit and the present queue's family can present. Each is the last such family among those the scan looked at. |
| Boilerplate.DeviceQueuesHaveTheirCapabilities | triangle/src/vulkan_boilerplate.cc:396-411 | On a suitable device, the corrected graphics queue family has the graphics bit and the present queue family can present. Each is a family the logical device creates a queue on. |

## Left out

- Window creation, the GLFW event loop and `cleanup` teardown are not modelled. They are calls into GLFW and Vulkan with no decisions.
- The debug messenger (`debug_callback`, `CreateDebugUtilsMessengerEXT`, `DestroyDebugUtilsMessengerEXT`, `populate_dbg_msgr_create_info`) is not modelled. Its creation is reduced to a success flag, because it is function-pointer lookup and struct filling.
- `vkCreateInstance`, `glfwCreateWindowSurface`, `vkCreateDevice` and `vkCreateSwapchainKHR` are each reduced to a success or failure input, because they are foreign calls.
- The `vkGetSwapchainImagesKHR` two-call pattern and `sc_images` are not modelled, because they only retrieve handles.
- The driver enumeration calls are not modelled: each driver query becomes part of an input record.
  - That record holds the per-device queue families, extensions and surface report.
  - `query_swap_chain_support` is therefore a field read, and the log records only that it was made.
- `glfwGetRequiredInstanceExtensions` and `glfwGetFramebufferSize` are inputs.
- The query log holds only the queries made while devices are tested for suitability. The selected device is queried again by `find_queue_families` and `query_swap_chain_support` in `create_logical_device` and `create_swap_chain`; those queries return the same input record and are not logged.
- `enable_validation_layers` is a parameter of the object rather than a build-time constant.
- The queue priority is not modelled, because it is a float constant passed through.
- The constant fields of the swapchain and instance create-infos are not modelled, because they are fixed values with no decision. These are the application info, `imageArrayLayers`, `imageUsage`, `compositeAlpha`, `clipped` and `oldSwapchain`.
- Queue family indices are `nat`, not `uint32_t`, because a driver reports fewer than 2^32 families.
- The queue-family scan records the LAST qualifying index of the scanned prefix, not the first, because every qualifying family overwrites the index before it. The model does what the code does.
- `triangle/src/vulkan_boilerplate.h` is not part of this model. Its `queue_family_indices_t` and its `find_queue_families` signature do not match the source file; the model follows the source file.
- `VK_FORMAT_B8G8R8_SRGB` is the Vulkan enumerant 36: the preferred format is B8G8R8_SRGB as written, not B8G8R8A8_SRGB.
- Swapchain.SwapchainInfoFor: its contract states only the format membership, the present-mode range and the maximum bound. The individual choices are stated by the contracts of the functions it composes.
- Boilerplate.VkWrapper.CreateLogicalDevice: the class records the corrected queue families, with the graphics queue from the graphics family. Line 439 fetches it from the present family; that choice is modelled by `DeviceQueueFamiliesAsWritten`.

## Findings

| source | as written | input that shows it | evidently intended | confidence | as-written member | corrected member |
|---|---|---|---|---|---|---|
| triangle/src/vulkan_boilerplate.cc:439 | `graphics_queue` is fetched from `indices.present_family` | a device whose family 0 has only the graphics bit and whose family 1 can only present: the graphics queue comes from family 1, which cannot do graphics | fetch `graphics_queue` from `indices.graphics_family` | not executed | Boilerplate.GraphicsQueueFromPresentFamilyAsWritten | Boilerplate.DeviceQueuesHaveTheirCapabilities |
