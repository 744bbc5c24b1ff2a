/** The name-list checks: device extensions, instance validation layers, and
    the instance extension list. */
module DeviceSupport {
  import opened Vulkan

  /** validation_layers */
  const VALIDATION_LAYERS: seq<string> := ["VK_LAYER_KHRONOS_validation"]

  /** device_extenstions */
  const DEVICE_EXTENSIONS: seq<string> := [SWAPCHAIN_EXTENSION_NAME]

  /** Every required name occurs among the available ones. */
  predicate ExtensionsSupported(required: seq<string>, available: seq<string>) {
    forall name :: name in required ==> name in available
  }

  /** The required names that are not available: what is left in the set once
      every available name has been erased from it. */
  function MissingExtensions(required: seq<string>, available: seq<string>): set<string> {
    set name | name in required && name !in available
  }

  /** check_dev_ext_support (the device's extension list is the input): start
      from the set of required names, erase each available name, and report
      whether the set ended up empty. */
  method CheckDeviceExtensionSupport(required: seq<string>, available: seq<string>) returns (supported: bool)
    ensures supported <==> MissingExtensions(required, available) == {}
    ensures supported <==> ExtensionsSupported(required, available)
  {
    var remaining := set name | name in required;
    for k := 0 to |available|
      invariant remaining == MissingExtensions(required, available[..k])
    {
      assert available[..k + 1] == available[..k] + [available[k]];
      remaining := remaining - {available[k]};
    }
    assert available[..|available|] == available;
    supported := remaining == {};
    if supported {
      assert forall name :: name in required ==> name in available || name in remaining;
    } else {
      var name :| name in remaining;
      assert name in required && name !in available;
    }
  }

  /** check_validation_layer_support (the instance's layer list is the input):
      for each requested name, look through the available layers and set the
      flag when the name is found. The flag is never reset, so the answer is
      whether ANY requested layer is available, not whether all are. */
  method CheckValidationLayerSupport(requested: seq<string>, available: seq<string>) returns (layerFound: bool)
    ensures layerFound <==> exists i :: 0 <= i < |requested| && requested[i] in available
  {
    layerFound := false;
    for i := 0 to |requested|
      invariant layerFound <==> exists a :: 0 <= a < i && requested[a] in available
    {
      var j := 0;
      while j < |available|
        invariant 0 <= j <= |available|
        invariant layerFound <==> exists a :: 0 <= a < i && requested[a] in available
        invariant forall b :: 0 <= b < j ==> available[b] != requested[i]
      {
        if requested[i] == available[j] {
          layerFound := true;
          break;
        }
        j := j + 1;
      }
    }
  }

  /** get_required_extensions (the window system's list is the input): the
      window system's instance extensions, followed by the two debug
      extensions when validation is enabled. */
  function RequiredExtensions(windowExtensions: seq<string>, enableValidation: bool): (extensions: seq<string>)
    ensures |extensions| == |windowExtensions| + (if enableValidation then 2 else 0)
    ensures extensions[..|windowExtensions|] == windowExtensions
    ensures enableValidation ==>
              extensions[|windowExtensions|] == DEBUG_UTILS_EXTENSION_NAME &&
              extensions[|windowExtensions| + 1] == DEBUG_REPORT_EXTENSION_NAME
    ensures forall name :: name in extensions <==>
              name in windowExtensions ||
              (enableValidation && (name == DEBUG_UTILS_EXTENSION_NAME || name == DEBUG_REPORT_EXTENSION_NAME))
  {
    if enableValidation then
      windowExtensions + [DEBUG_UTILS_EXTENSION_NAME, DEBUG_REPORT_EXTENSION_NAME]
    else
      windowExtensions
  }

  /** With a single requested layer, as the program has, "any requested layer
      is available" is the same as "all requested layers are available". */
  lemma SingleLayerAnyIsAll(available: seq<string>)
    ensures (exists i :: 0 <= i < |VALIDATION_LAYERS| && VALIDATION_LAYERS[i] in available) <==>
              ExtensionsSupported(VALIDATION_LAYERS, available)
  {
    if VALIDATION_LAYERS[0] in available {
      assert 0 < |VALIDATION_LAYERS| && VALIDATION_LAYERS[0] in available;
    }
  }

  /** For a longer request list the two differ: a list asking for two layers
      of which only one is installed passes the check. */
  lemma AnyLayerIsNotAllLayers()
    ensures var requested := ["VK_LAYER_KHRONOS_validation", "VK_LAYER_LUNARG_api_dump"];
            var available := ["VK_LAYER_KHRONOS_validation"];
      (exists i :: 0 <= i < |requested| && requested[i] in available) &&
      !ExtensionsSupported(requested, available)
  {
    var requested := ["VK_LAYER_KHRONOS_validation", "VK_LAYER_LUNARG_api_dump"];
    var available := ["VK_LAYER_KHRONOS_validation"];
    assert requested[0] in available;
    assert requested[1] !in available;
  }
}
