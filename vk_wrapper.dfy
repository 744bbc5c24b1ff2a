/** Vk_Wrapper: the initialisation sequence that picks a physical device,
    sets up its queues and derives the swapchain, with the driver's and the
    window system's answers given as inputs. */
module Boilerplate {
  import opened Wrappers
  import opened Vulkan
  import opened QueueFamilies
  import opened DeviceSupport
  import opened LogicalDevice
  import opened Swapchain

  /** The runtime errors the sequence throws. */
  datatype InitError =
    | ValidationLayersUnavailable
    | InstanceCreationFailed
    | DebugMessengerFailed
    | SurfaceCreationFailed
    | NoDevicesFound
    | NoSuitableDevice
    | LogicalDeviceCreationFailed
    | SwapchainCreationFailed

  /** Whether each creation call the driver or the window system is asked to
      make succeeds; their inner workings are not modelled. */
  datatype DriverResults = DriverResults(
    instance: bool,
    debugMessenger: bool,
    surface: bool,
    logicalDevice: bool,
    swapchain: bool)

  /** A per-device driver query made while testing suitability; the device is
      named by its position in enumeration order. */
  datatype DriverQuery =
    | QueueFamilyQuery(device: nat)
    | ExtensionQuery(device: nat)
    | SwapChainSupportQuery(device: nat)

  /** The layer and extension lists vkCreateInstance is given. */
  datatype InstanceCreateInfo = InstanceCreateInfo(enabledExtensions: seq<string>, enabledLayers: seq<string>)

  /** The lists vkCreateDevice is given (the feature struct is empty). */
  datatype DeviceCreateInfo = DeviceCreateInfo(
    queueCreateInfos: seq<QueueCreateInfo>,
    enabledExtensions: seq<string>,
    enabledLayers: seq<string>)

  /** The layers enabled on the instance and the device. */
  function EnabledLayers(enableValidation: bool): seq<string> {
    if enableValidation then VALIDATION_LAYERS else []
  }

  /** device_is_suitable: queue families complete, required extensions
      present and, only when they are, a non-empty format list and a
      non-empty present-mode list. A device is suitable exactly when it has a
      graphics-capable family and a family that can present, offers the
      swapchain extension, and reports at least one surface format and one
      present mode; both queue families are then recorded, which is what
      create_logical_device relies on. */
  predicate Suitable(device: PhysicalDevice)
    ensures Suitable(device) <==>
              && HasGraphicsFamily(device.queueFamilies)
              && HasPresentFamily(device.queueFamilies)
              && SWAPCHAIN_EXTENSION_NAME in device.extensions
              && |device.swapChainSupport.formats| > 0
              && |device.swapChainSupport.presentModes| > 0
    ensures Suitable(device) ==> QueueFamilyScan(device.queueFamilies).IsComplete()
  {
    ScanCompleteIff(device.queueFamilies);
    var indices := QueueFamilyScan(device.queueFamilies);
    var extensionSupported := ExtensionsSupported(DEVICE_EXTENSIONS, device.extensions);
    var swapChain := if extensionSupported then
                       |device.swapChainSupport.formats| > 0 && |device.swapChainSupport.presentModes| > 0
                     else false;
    indices.IsComplete() && extensionSupported && swapChain
  }

  /** A device without a graphics-capable family is never suitable. */
  lemma NoGraphicsFamilyNotSuitable(device: PhysicalDevice)
    requires forall i :: 0 <= i < |device.queueFamilies| ==> !HasGraphics(device.queueFamilies[i])
    ensures !Suitable(device)
  {
    NoGraphicsFamilyLeavesGraphicsEmpty(device.queueFamilies);
  }

  /** The driver queries device_is_suitable makes for the device at position
      index: queue families, then extensions, then the surface report only if
      the extensions are supported. */
  function SuitabilityQueries(device: PhysicalDevice, index: nat): seq<DriverQuery> {
    [QueueFamilyQuery(index), ExtensionQuery(index)] +
    (if ExtensionsSupported(DEVICE_EXTENSIONS, device.extensions) then [SwapChainSupportQuery(index)] else [])
  }

  /** The driver queries made while testing the first n devices in order. */
  function ScanQueries(devices: seq<PhysicalDevice>, n: nat): seq<DriverQuery>
    requires n <= |devices|
  {
    if n == 0 then [] else ScanQueries(devices, n - 1) + SuitabilityQueries(devices[n - 1], n - 1)
  }

  /** Testing the first n devices queries no device from position n on. */
  lemma {:induction false} ScanQueriesStayInPrefix(devices: seq<PhysicalDevice>, n: nat)
    requires n <= |devices|
    ensures forall q :: q in ScanQueries(devices, n) ==> q.device < n
  {
    if n > 0 {
      ScanQueriesStayInPrefix(devices, n - 1);
      var last := SuitabilityQueries(devices[n - 1], n - 1);
      assert forall q :: q in last ==> q.device == n - 1;
    }
  }

  /** While the first n devices are tested, a device's surface report is
      asked for exactly when it has the required extensions. */
  lemma {:induction false} SurfaceQueriedIffExtensions(devices: seq<PhysicalDevice>, n: nat, i: nat)
    requires i < n <= |devices|
    ensures SwapChainSupportQuery(i) in ScanQueries(devices, n) <==>
              ExtensionsSupported(DEVICE_EXTENSIONS, devices[i].extensions)
  {
    var last := SuitabilityQueries(devices[n - 1], n - 1);
    assert ScanQueries(devices, n) == ScanQueries(devices, n - 1) + last;
    if i < n - 1 {
      SurfaceQueriedIffExtensions(devices, n - 1, i);
      assert SwapChainSupportQuery(i) !in last;
    } else {
      ScanQueriesStayInPrefix(devices, n - 1);
      assert SwapChainSupportQuery(i) !in ScanQueries(devices, n - 1);
    }
  }

  /** The first suitable device from position start on, in enumeration order. */
  function FirstSuitableFrom(devices: seq<PhysicalDevice>, start: nat): (first: Option<nat>)
    requires start <= |devices|
    ensures first.Some? ==> start <= first.value < |devices| && Suitable(devices[first.value])
    ensures first.Some? ==> forall j :: start <= j < first.value ==> !Suitable(devices[j])
    ensures first.None? <==> forall j :: start <= j < |devices| ==> !Suitable(devices[j])
    decreases |devices| - start
  {
    if start == |devices| then None
    else if Suitable(devices[start]) then Some(start)
    else FirstSuitableFrom(devices, start + 1)
  }

  /** A suitable device with no suitable device before it is the first one. */
  lemma {:induction false} FirstSuitableIsFirst(devices: seq<PhysicalDevice>, start: nat, k: nat)
    requires start <= k < |devices| && Suitable(devices[k])
    requires forall j :: start <= j < k ==> !Suitable(devices[j])
    ensures FirstSuitableFrom(devices, start) == Some(k)
  {
  }

  /** The families whose queue 0 create_logical_device fetches, as
      (graphics_queue, present_queue), AS WRITTEN: both queues come from one
      family, the last family able to present among those the scan looked
      at. */
  function DeviceQueueFamiliesAsWritten(families: seq<QueueFamily>): (queues: (nat, nat))
    requires QueueFamilyScan(families).IsComplete()
    ensures queues.0 == queues.1
    ensures queues.0 < ScanEnd(families, 0) && SupportsPresent(families[queues.0])
    ensures forall j :: queues.0 < j < ScanEnd(families, 0) ==> !SupportsPresent(families[j])
  {
    ScanStopsAtFirstComplete(families);
    var indices := QueueFamilyScan(families);
    (indices.presentFamily.value, indices.presentFamily.value)
  }

  /** As written, the "graphics" queue can come from a family without the
      graphics bit: a device whose family 0 only does graphics and whose
      family 1 only presents gets its graphics queue from family 1. */
  lemma GraphicsQueueFromPresentFamilyAsWritten()
    ensures var families := [QueueFamily(QUEUE_GRAPHICS_BIT, false), QueueFamily(0, true)];
      && QueueFamilyScan(families).IsComplete()
      && !HasGraphics(families[DeviceQueueFamiliesAsWritten(families).0])
  {
    var families := [QueueFamily(QUEUE_GRAPHICS_BIT, false), QueueFamily(0, true)];
    assert ScanFrom(families, 1, QueueFamilyIndices(Some(0), None)) == QueueFamilyIndices(Some(0), Some(1));
    assert QueueFamilyScan(families) == QueueFamilyIndices(Some(0), Some(1));
    assert !HasGraphics(families[1]);
  }

  /** The families the queues are evidently meant to come from: the graphics
      queue from the last graphics-capable family and the present queue from
      the last family able to present among those the scan looked at. */
  function DeviceQueueFamilies(families: seq<QueueFamily>): (queues: (nat, nat))
    requires QueueFamilyScan(families).IsComplete()
    ensures queues.0 < ScanEnd(families, 0) && HasGraphics(families[queues.0])
    ensures queues.1 < ScanEnd(families, 0) && SupportsPresent(families[queues.1])
    ensures forall j :: queues.0 < j < ScanEnd(families, 0) ==> !HasGraphics(families[j])
    ensures forall j :: queues.1 < j < ScanEnd(families, 0) ==> !SupportsPresent(families[j])
  {
    ScanStopsAtFirstComplete(families);
    var indices := QueueFamilyScan(families);
    (indices.graphicsFamily.value, indices.presentFamily.value)
  }

  /** On a suitable device the corrected graphics queue comes from a
      graphics-capable family and the present queue from one that can
      present, and the create-infos the logical device is built with ask for
      a queue on each of them. */
  lemma DeviceQueuesHaveTheirCapabilities(device: PhysicalDevice, infos: seq<QueueCreateInfo>)
    requires Suitable(device)
    requires OneQueuePerUniqueFamily(infos, QueueFamilyScan(device.queueFamilies).graphicsFamily.value,
                                            QueueFamilyScan(device.queueFamilies).presentFamily.value)
    ensures var queues := DeviceQueueFamilies(device.queueFamilies);
      && HasGraphics(device.queueFamilies[queues.0])
      && SupportsPresent(device.queueFamilies[queues.1])
      && (exists k :: 0 <= k < |infos| && infos[k].queueFamilyIndex == queues.0 && infos[k].queueCount == 1)
      && (exists k :: 0 <= k < |infos| && infos[k].queueFamilyIndex == queues.1 && infos[k].queueCount == 1)
  {
    var queues := DeviceQueueFamilies(device.queueFamilies);
    var k0 :| 0 <= k0 < |infos| && infos[k0].queueFamilyIndex == queues.0;
    var k1 :| 0 <= k1 < |infos| && infos[k1].queueFamilyIndex == queues.1;
    assert infos[k0].queueCount == 1 && infos[k1].queueCount == 1;
  }

  /** Vk_Wrapper. The driver's answers (installed layers, window-system
      extensions, enumerated devices, creation outcomes) and the framebuffer
      size are fixed when the object is made; the fields are what the
      initialisation steps set. */
  class VkWrapper {
    const enableValidation: bool
    const availableLayers: seq<string>
    const windowExtensions: seq<string>
    const devices: seq<PhysicalDevice>
    const framebufferWidth: i32
    const framebufferHeight: i32
    const driver: DriverResults

    var instanceInfo: Option<InstanceCreateInfo>
    /** physical_device; None is VK_NULL_HANDLE, Some(i) the i-th enumerated device */
    var physicalDevice: Option<nat>
    var deviceInfo: Option<DeviceCreateInfo>
    var graphicsQueueFamily: Option<nat>
    var presentQueueFamily: Option<nat>
    var swapchainInfo: Option<SwapchainCreateInfo>
    var scImageFormat: Format
    var scExtent: Extent2D
    /** the per-device driver queries made so far, in order */
    ghost var queries: seq<DriverQuery>

    /** A selected device is an enumerated device that passed the test. */
    ghost predicate Valid()
      reads this
    {
      physicalDevice.Some? ==> physicalDevice.value < |devices| && Suitable(devices[physicalDevice.value])
    }

    constructor (enableValidation: bool, availableLayers: seq<string>, windowExtensions: seq<string>,
                 devices: seq<PhysicalDevice>, framebufferWidth: i32, framebufferHeight: i32,
                 driver: DriverResults)
      ensures Valid()
      ensures this.enableValidation == enableValidation && this.availableLayers == availableLayers
      ensures this.windowExtensions == windowExtensions && this.devices == devices
      ensures this.framebufferWidth == framebufferWidth && this.framebufferHeight == framebufferHeight
      ensures this.driver == driver
      ensures instanceInfo == None && physicalDevice == None && deviceInfo == None
      ensures graphicsQueueFamily == None && presentQueueFamily == None && swapchainInfo == None
      ensures queries == []
    {
      this.enableValidation := enableValidation;
      this.availableLayers := availableLayers;
      this.windowExtensions := windowExtensions;
      this.devices := devices;
      this.framebufferWidth := framebufferWidth;
      this.framebufferHeight := framebufferHeight;
      this.driver := driver;
      instanceInfo := None;
      physicalDevice := None;
      deviceInfo := None;
      graphicsQueueFamily := None;
      presentQueueFamily := None;
      swapchainInfo := None;
      scImageFormat := FORMAT_UNDEFINED;
      scExtent := Extent2D(0, 0);
      queries := [];
    }

    /** create_instance: with validation enabled, at least one of the
        validation layers must be installed; the instance is then created
        with the required extensions and, with validation, the validation
        layers. */
    method CreateInstance() returns (result: Outcome<InitError>)
      modifies this`instanceInfo
      ensures enableValidation && (forall i :: 0 <= i < |VALIDATION_LAYERS| ==> VALIDATION_LAYERS[i] !in availableLayers) ==>
                result == Fail(ValidationLayersUnavailable) && instanceInfo == old(instanceInfo)
      ensures (!enableValidation || exists i :: 0 <= i < |VALIDATION_LAYERS| && VALIDATION_LAYERS[i] in availableLayers) ==>
                if driver.instance then
                  result == Pass &&
                  instanceInfo == Some(InstanceCreateInfo(RequiredExtensions(windowExtensions, enableValidation),
                                                          EnabledLayers(enableValidation)))
                else
                  result == Fail(InstanceCreationFailed) && instanceInfo == old(instanceInfo)
    {
      if enableValidation {
        var supported := CheckValidationLayerSupport(VALIDATION_LAYERS, availableLayers);
        if !supported {
          return Fail(ValidationLayersUnavailable);
        }
      }
      var extensions := RequiredExtensions(windowExtensions, enableValidation);
      var layers := EnabledLayers(enableValidation);
      if !driver.instance {
        return Fail(InstanceCreationFailed);
      }
      instanceInfo := Some(InstanceCreateInfo(extensions, layers));
      return Pass;
    }

    /** device_is_suitable for the enumerated device at position index,
        making the driver queries it makes, in its order. */
    method DeviceIsSuitable(index: nat) returns (suitable: bool)
      requires index < |devices|
      modifies this`queries
      ensures suitable == Suitable(devices[index])
      ensures queries == old(queries) + SuitabilityQueries(devices[index], index)
    {
      var device := devices[index];
      queries := queries + [QueueFamilyQuery(index)];
      var indices := FindQueueFamilies(device.queueFamilies);
      queries := queries + [ExtensionQuery(index)];
      var extensionSupported := CheckDeviceExtensionSupport(DEVICE_EXTENSIONS, device.extensions);
      var swapChain := false;
      if extensionSupported {
        queries := queries + [SwapChainSupportQuery(index)];
        var support := device.swapChainSupport;
        swapChain := |support.formats| > 0 && |support.presentModes| > 0;
      }
      suitable := indices.IsComplete() && extensionSupported && swapChain;
    }

    /** pick_physical_device: no devices is an error before any device is
        tested; otherwise the devices are tested in enumeration order until
        one is suitable, and none after it is tested; if none is, that is a
        second error. */
    method PickPhysicalDevice() returns (result: Outcome<InitError>)
      modifies this`physicalDevice, this`queries
      ensures Valid()
      ensures physicalDevice == FirstSuitableFrom(devices, 0)
      ensures |devices| == 0 ==> result == Fail(NoDevicesFound) && queries == old(queries)
      ensures |devices| > 0 && physicalDevice.None? ==>
                result == Fail(NoSuitableDevice) && queries == old(queries) + ScanQueries(devices, |devices|)
      ensures physicalDevice.Some? ==>
                result == Pass && queries == old(queries) + ScanQueries(devices, physicalDevice.value + 1)
    {
      physicalDevice := None;
      if |devices| == 0 {
        return Fail(NoDevicesFound);
      }
      var i := 0;
      while i < |devices|
        invariant 0 <= i <= |devices|
        invariant physicalDevice == None
        invariant forall j :: 0 <= j < i ==> !Suitable(devices[j])
        invariant queries == old(queries) + ScanQueries(devices, i)
      {
        ghost var before := queries;
        var suitable := DeviceIsSuitable(i);
        assert queries == old(queries) + ScanQueries(devices, i + 1) by {
          assert ScanQueries(devices, i + 1) == ScanQueries(devices, i) + SuitabilityQueries(devices[i], i);
        }
        if suitable {
          physicalDevice := Some(i);
          break;
        }
        assert !Suitable(devices[i]);
        i := i + 1;
      }
      if physicalDevice == None {
        return Fail(NoSuitableDevice);
      }
      FirstSuitableIsFirst(devices, 0, i);
      return Pass;
    }

    /** The decision part of create_logical_device: one queue per unique
        family, the swapchain extension, the validation layers when enabled,
        then the queues fetched once the driver has created the device. */
    method CreateLogicalDevice() returns (result: Outcome<InitError>)
      requires Valid() && physicalDevice.Some?
      modifies this`deviceInfo, this`graphicsQueueFamily, this`presentQueueFamily
      ensures driver.logicalDevice ==> result == Pass && LogicalDeviceCreated()
      ensures !driver.logicalDevice ==>
                && result == Fail(LogicalDeviceCreationFailed)
                && deviceInfo == old(deviceInfo)
                && graphicsQueueFamily == old(graphicsQueueFamily)
                && presentQueueFamily == old(presentQueueFamily)
    {
      var device := devices[physicalDevice.value];
      var indices := FindQueueFamilies(device.queueFamilies);
      var queueCreateInfos := BuildQueueCreateInfos(indices);
      var layers := EnabledLayers(enableValidation);
      if !driver.logicalDevice {
        return Fail(LogicalDeviceCreationFailed);
      }
      deviceInfo := Some(DeviceCreateInfo(queueCreateInfos, DEVICE_EXTENSIONS, layers));
      var queues := DeviceQueueFamilies(device.queueFamilies);
      graphicsQueueFamily := Some(queues.0);
      presentQueueFamily := Some(queues.1);
      return Pass;
    }

    /** create_swap_chain: pick the format, present mode and extent, compute
        the image count, decide the sharing mode, and record the format and
        extent once the driver has created the swapchain. */
    method CreateSwapChain() returns (result: Outcome<InitError>)
      requires Valid() && physicalDevice.Some?
      modifies this`swapchainInfo, this`scImageFormat, this`scExtent
      ensures driver.swapchain ==> result == Pass && SwapChainCreated()
      ensures !driver.swapchain ==>
                && result == Fail(SwapchainCreationFailed)
                && swapchainInfo == old(swapchainInfo)
                && scImageFormat == old(scImageFormat)
                && scExtent == old(scExtent)
    {
      var support := devices[physicalDevice.value].swapChainSupport;
      var surfaceFormat := PickSurfaceFormat(support.formats);
      var presentMode := PickPresentMode(support.presentModes);
      var extent := ChooseSwapExtent(support.capabilities, framebufferWidth, framebufferHeight);

      var imageCount := WrappingIncrement(support.capabilities.minImageCount);
      if support.capabilities.maxImageCount > 0 && imageCount > support.capabilities.maxImageCount {
        imageCount := support.capabilities.maxImageCount;
      }

      var indices := FindQueueFamilies(devices[physicalDevice.value].queueFamilies);
      var sharing := ImageSharingFor(indices);
      var info := SwapchainCreateInfo(imageCount, surfaceFormat.format, surfaceFormat.colorSpace, extent,
                                      sharing, support.capabilities.currentTransform, presentMode);
      if !driver.swapchain {
        return Fail(SwapchainCreationFailed);
      }
      swapchainInfo := Some(info);
      scImageFormat := surfaceFormat.format;
      scExtent := extent;
      return Pass;
    }

    /** With validation enabled, at least one validation layer is installed. */
    ghost predicate LayersAvailable()
    {
      !enableValidation || exists i :: 0 <= i < |VALIDATION_LAYERS| && VALIDATION_LAYERS[i] in availableLayers
    }

    /** The steps before any device is looked at all succeed: the validation
        layer check, instance creation, the debug messenger (only with
        validation) and the window surface. */
    ghost predicate EarlyStepsSucceed()
    {
      && LayersAvailable()
      && driver.instance
      && (!enableValidation || driver.debugMessenger)
      && driver.surface
    }

    /** The early steps succeed, a suitable device is found and the driver
        creates the logical device on it. */
    ghost predicate DeviceStepSucceeds()
    {
      EarlyStepsSucceed() && FirstSuitableFrom(devices, 0).Some? && driver.logicalDevice
    }

    /** How many devices pick_physical_device tests: up to and including the
        first suitable one, or all of them. */
    ghost function DevicesTested(): (n: nat)
      ensures n <= |devices|
    {
      match FirstSuitableFrom(devices, 0)
      case Some(k) => k + 1
      case None => |devices|
    }

    /** The outcome of the last three steps of init: the error of the first
        one that fails, or Pass when none does. */
    ghost function DeviceOutcome(): Outcome<InitError> {
      if |devices| == 0 then Fail(NoDevicesFound)
      else if FirstSuitableFrom(devices, 0).None? then Fail(NoSuitableDevice)
      else if !driver.logicalDevice then Fail(LogicalDeviceCreationFailed)
      else if !driver.swapchain then Fail(SwapchainCreationFailed)
      else Pass
    }

    /** The outcome of init: the error of the first step that fails, in the
        order the steps run, or Pass when none does. */
    ghost function InitOutcome(): Outcome<InitError> {
      if !LayersAvailable() then Fail(ValidationLayersUnavailable)
      else if !driver.instance then Fail(InstanceCreationFailed)
      else if enableValidation && !driver.debugMessenger then Fail(DebugMessengerFailed)
      else if !driver.surface then Fail(SurfaceCreationFailed)
      else DeviceOutcome()
    }

    /** The instance was created with the required extensions and, with
        validation, the validation layers. */
    ghost predicate InstanceCreated()
      reads this`instanceInfo
    {
      instanceInfo == Some(InstanceCreateInfo(RequiredExtensions(windowExtensions, enableValidation),
                                              EnabledLayers(enableValidation)))
    }

    /** The logical device of the selected device was created with one queue
        per unique family, the swapchain extension and the enabled layers,
        and its queues were fetched from the graphics and present families. */
    ghost predicate LogicalDeviceCreated()
      reads this`physicalDevice, this`deviceInfo, this`graphicsQueueFamily, this`presentQueueFamily
    {
      && physicalDevice.Some? && physicalDevice.value < |devices|
      && var device := devices[physicalDevice.value];
         var indices := QueueFamilyScan(device.queueFamilies);
         && indices.IsComplete()
         && deviceInfo.Some?
         && OneQueuePerUniqueFamily(deviceInfo.value.queueCreateInfos,
                                    indices.graphicsFamily.value, indices.presentFamily.value)
         && deviceInfo.value.enabledExtensions == DEVICE_EXTENSIONS
         && deviceInfo.value.enabledLayers == EnabledLayers(enableValidation)
         && graphicsQueueFamily == Some(DeviceQueueFamilies(device.queueFamilies).0)
         && presentQueueFamily == Some(DeviceQueueFamilies(device.queueFamilies).1)
    }

    /** The swapchain of the selected device was created with the
        configuration derived from its surface report, and its format and
        extent were recorded. */
    ghost predicate SwapChainCreated()
      reads this`physicalDevice, this`swapchainInfo, this`scImageFormat, this`scExtent
    {
      && physicalDevice.Some? && physicalDevice.value < |devices|
      && var device := devices[physicalDevice.value];
         var indices := QueueFamilyScan(device.queueFamilies);
         && |device.swapChainSupport.formats| > 0 && indices.IsComplete()
         && var info := SwapchainInfoFor(device.swapChainSupport, indices, framebufferWidth, framebufferHeight);
            swapchainInfo == Some(info) && scImageFormat == info.imageFormat && scExtent == info.imageExtent
    }

    /** The first three steps of init (create_instance, setup_debug_messenger
        and surface_init): the layer check and the instance, then the debug
        messenger when validation is enabled, then the window surface. */
    method CreateInstanceAndSurface() returns (result: Outcome<InitError>)
      modifies this`instanceInfo
      ensures result == Pass <==> EarlyStepsSucceed()
      ensures result.Fail? ==> result == InitOutcome()
      ensures LayersAvailable() && driver.instance ==> InstanceCreated()
      ensures !(LayersAvailable() && driver.instance) ==> instanceInfo == old(instanceInfo)
    {
      result := CreateInstance();
      if result.Fail? {
        return;
      }
      if enableValidation && !driver.debugMessenger {
        return Fail(DebugMessengerFailed);
      }
      if !driver.surface {
        return Fail(SurfaceCreationFailed);
      }
    }

    /** The last two steps of init (create_logical_device and
        create_swap_chain) on the selected device, stopping at the first that
        throws. */
    method CreateDeviceAndSwapChain() returns (result: Outcome<InitError>)
      requires Valid() && physicalDevice.Some?
      modifies this`deviceInfo, this`graphicsQueueFamily, this`presentQueueFamily,
               this`swapchainInfo, this`scImageFormat, this`scExtent
      ensures !driver.logicalDevice ==> result == Fail(LogicalDeviceCreationFailed)
      ensures driver.logicalDevice && !driver.swapchain ==> result == Fail(SwapchainCreationFailed)
      ensures driver.logicalDevice && driver.swapchain ==> result == Pass
      ensures driver.logicalDevice ==> LogicalDeviceCreated()
      ensures !driver.logicalDevice ==>
                deviceInfo == old(deviceInfo) && graphicsQueueFamily == old(graphicsQueueFamily) &&
                presentQueueFamily == old(presentQueueFamily)
      ensures result == Pass ==> SwapChainCreated()
      ensures result.Fail? ==>
                swapchainInfo == old(swapchainInfo) && scImageFormat == old(scImageFormat) && scExtent == old(scExtent)
    {
      result := CreateLogicalDevice();
      if result.Fail? {
        return;
      }
      result := CreateSwapChain();
    }

    /** The last three steps of init (pick_physical_device,
        create_logical_device and create_swap_chain), stopping at the first
        that throws. */
    method SetUpDevice() returns (result: Outcome<InitError>)
      requires Valid()
      modifies this`physicalDevice, this`queries, this`deviceInfo, this`graphicsQueueFamily,
               this`presentQueueFamily, this`swapchainInfo, this`scImageFormat, this`scExtent
      ensures Valid()
      ensures result == DeviceOutcome()
      ensures physicalDevice == FirstSuitableFrom(devices, 0)
      ensures queries == old(queries) + ScanQueries(devices, DevicesTested())
      ensures physicalDevice.Some? && driver.logicalDevice ==> LogicalDeviceCreated()
      ensures !(physicalDevice.Some? && driver.logicalDevice) ==>
                deviceInfo == old(deviceInfo) && graphicsQueueFamily == old(graphicsQueueFamily) &&
                presentQueueFamily == old(presentQueueFamily)
      ensures result == Pass ==> SwapChainCreated()
      ensures result.Fail? ==>
                swapchainInfo == old(swapchainInfo) && scImageFormat == old(scImageFormat) && scExtent == old(scExtent)
    {
      result := PickPhysicalDevice();
      if result.Fail? {
        return;
      }
      result := CreateDeviceAndSwapChain();
    }

    /** init: instance, debug messenger, surface, physical device, logical
        device, swapchain, stopping at the first step that throws; each
        failing step throws its own error and leaves the fields of later
        steps as they were. */
    method Init() returns (result: Outcome<InitError>)
      requires Valid()
      modifies this
      ensures Valid()
      ensures result == InitOutcome()
      ensures LayersAvailable() && driver.instance ==> InstanceCreated()
      ensures !(LayersAvailable() && driver.instance) ==> instanceInfo == old(instanceInfo)
      ensures !EarlyStepsSucceed() ==>
                && physicalDevice == old(physicalDevice) && queries == old(queries)
                && deviceInfo == old(deviceInfo) && graphicsQueueFamily == old(graphicsQueueFamily)
                && presentQueueFamily == old(presentQueueFamily) && swapchainInfo == old(swapchainInfo)
      ensures EarlyStepsSucceed() ==>
                && physicalDevice == FirstSuitableFrom(devices, 0)
                && queries == old(queries) + ScanQueries(devices, DevicesTested())
      ensures DeviceStepSucceeds() ==> LogicalDeviceCreated()
      ensures !DeviceStepSucceeds() ==>
                deviceInfo == old(deviceInfo) && graphicsQueueFamily == old(graphicsQueueFamily) &&
                presentQueueFamily == old(presentQueueFamily)
      ensures result == Pass ==> SwapChainCreated()
      ensures result.Fail? ==>
                swapchainInfo == old(swapchainInfo) && scImageFormat == old(scImageFormat) && scExtent == old(scExtent)
    {
      result := CreateInstanceAndSurface();
      if result.Fail? {
        return;
      }
      result := SetUpDevice();
    }
  }
}
