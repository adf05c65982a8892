/**
 * Instance setup and GPU selection: the validation-layer and extension checks,
 * the suitability test for a physical device, the choice among the devices
 * found, and the search for a memory type.
 */
module DeviceSelection {
  import opened VkTypes
  import opened QueueFamilies
  import opened SwapchainSupport

  const REQUIRED_VALIDATION_LAYERS: seq<Name> := ["VK_LAYER_KHRONOS_validation"]

  /** VK_EXT_DEBUG_UTILS_EXTENSION_NAME, appended to what GLFW asks for. */
  const REQUIRED_INSTANCE_EXTENSION_NAMES: seq<Name> := ["VK_EXT_debug_utils"]

  /** VK_KHR_SWAPCHAIN_EXTENSION_NAME. */
  const REQUIRED_DEVICE_EXTENSION_NAMES: seq<Name> := ["VK_KHR_swapchain"]

  // ------------------------------------------------------------ name lookups

  /** Every required name is among the available ones. */
  predicate HasAll(required: seq<Name>, available: seq<Name>) {
    forall i :: 0 <= i < |required| ==> required[i] in available
  }

  /** The required names that are not available, in the order they are required. */
  function MissingNames(required: seq<Name>, available: seq<Name>): (m: seq<Name>)
    ensures forall x :: x in m <==> x in required && x !in available
    ensures |m| <= |required|
    ensures |m| == 0 <==> HasAll(required, available)
  {
    if |required| == 0 then []
    else
      var rest := MissingNames(required[..|required| - 1], available);
      var last := required[|required| - 1];
      assert required == required[..|required| - 1] + [last];
      rest + (if last in available then [] else [last])
  }

  /** The inner loop of every name check: strcmp against each available name, stopping at a match. */
  method FindName(name: Name, available: seq<Name>) returns (found: bool)
    ensures found <==> name in available
  {
    found := false;
    var k := 0;
    while k < |available|
      invariant k <= |available|
      invariant name !in available[..k]
    {
      if name == available[k] {
        found := true;
        break;
      }
      assert available[..k + 1] == available[..k] + [available[k]];
      k := k + 1;
    }
    if !found {
      assert available[..k] == available;
    }
  }

  /**
   * checkValidationLayerSupport: looks up every required layer without
   * stopping early, warns once for each missing one, and reports whether
   * none was missing.
   */
  method CheckValidationLayerSupport(required: seq<Name>, availableLayers: seq<Name>)
    returns (result: bool, warned: seq<Name>)
    ensures warned == MissingNames(required, availableLayers)
    ensures result <==> HasAll(required, availableLayers)
  {
    result := true;
    warned := [];
    var i := 0;
    while i < |required|
      invariant i <= |required|
      invariant warned == MissingNames(required[..i], availableLayers)
      invariant result <==> HasAll(required[..i], availableLayers)
    {
      var layerFound := FindName(required[i], availableLayers);
      assert required[..i + 1][..i] == required[..i];
      if !layerFound {
        warned := warned + [required[i]];
        result := false;
      }
      i := i + 1;
    }
    assert required[..i] == required;
  }

  /**
   * does_physical_device_have_required_extensions: looks up the required
   * device extensions in order and gives up at the first one missing.
   */
  method DoesPhysicalDeviceHaveRequiredExtensions(required: seq<Name>, deviceExtensions: seq<Name>)
    returns (hasAllExtensions: bool)
    ensures hasAllExtensions <==> HasAll(required, deviceExtensions)
  {
    hasAllExtensions := true;
    var i := 0;
    while i < |required|
      invariant i <= |required|
      invariant HasAll(required[..i], deviceExtensions)
      invariant hasAllExtensions
    {
      var hasRequiredExtension := FindName(required[i], deviceExtensions);
      if !hasRequiredExtension {
        hasAllExtensions := false;
        break;
      }
      assert required[..i + 1][..i] == required[..i];
      i := i + 1;
    }
    if hasAllExtensions {
      assert required[..i] == required;
    }
  }

  // ------------------------------------------------------------ createInstance

  /** get_required_instance_extensions: GLFW's extensions followed by the debug-utils extension. */
  method GetRequiredInstanceExtensions(glfwExtensions: seq<Name>) returns (names: seq<Name>)
    ensures |names| == |glfwExtensions| + |REQUIRED_INSTANCE_EXTENSION_NAMES|
    ensures names[..|glfwExtensions|] == glfwExtensions
    ensures names[|glfwExtensions|..] == REQUIRED_INSTANCE_EXTENSION_NAMES
  {
    names := [];
    for i := 0 to |glfwExtensions|
      invariant names == glfwExtensions[..i]
    {
      names := names + [glfwExtensions[i]];
    }
    assert glfwExtensions[..|glfwExtensions|] == glfwExtensions;
    for i := 0 to |REQUIRED_INSTANCE_EXTENSION_NAMES|
      invariant names == glfwExtensions + REQUIRED_INSTANCE_EXTENSION_NAMES[..i]
    {
      names := names + [REQUIRED_INSTANCE_EXTENSION_NAMES[i]];
    }
  }

  /** The first 256 characters: what `strncmp(a, b, 256)` looks at. */
  function Prefix256(s: Name): Name {
    if |s| <= 256 then s else s[..256]
  }

  /** `strncmp(a, b, 256)` is non-zero: the names differ within their first 256 characters. */
  predicate Strncmp256Differs(a: Name, b: Name) {
    Prefix256(a) != Prefix256(b)
  }

  /**
   * The instance-extension names the check in createInstance warns about as
   * written: it treats a non-zero strncmp (a mismatch) as a match, so it
   * warns about a name only when every supported name equals it.
   */
  function InstanceExtensionWarningsAsWrittenOf(required: seq<Name>, supported: seq<Name>): (w: seq<Name>)
    ensures forall x :: x in w ==> x in required
  {
    if |required| == 0 then []
    else
      var last := required[|required| - 1];
      var noneDiffers := forall k :: 0 <= k < |supported| ==> !Strncmp256Differs(last, supported[k]);
      InstanceExtensionWarningsAsWrittenOf(required[..|required| - 1], supported) + (if noneDiffers then [last] else [])
  }

  /**
   * The extension check in createInstance as written: for each required name
   * the inner loop stops at the first supported name that DIFFERS from it,
   * and only a name with no such supported name is reported.
   */
  method CheckInstanceExtensionsAsWritten(required: seq<Name>, supported: seq<Name>) returns (warned: seq<Name>)
    requires |required| <= |supported|
    ensures warned == InstanceExtensionWarningsAsWrittenOf(required, supported)
  {
    warned := [];
    var i := 0;
    while i < |required|
      invariant i <= |required|
      invariant warned == InstanceExtensionWarningsAsWrittenOf(required[..i], supported)
    {
      var supports := false;
      var k := 0;
      while k < |supported|
        invariant k <= |supported|
        invariant forall j :: 0 <= j < k ==> !Strncmp256Differs(required[i], supported[j])
      {
        if Strncmp256Differs(required[i], supported[k]) {
          supports := true;
          break;
        }
        k := k + 1;
      }
      assert required[..i + 1][..i] == required[..i];
      if !supports {
        warned := warned + [required[i]];
      }
      i := i + 1;
    }
    assert required[..i] == required;
  }

  /**
   * As written the check never warns once the driver reports two different
   * extension names, whatever is required.
   */
  lemma {:induction false} AsWrittenSilentWithTwoDistinctNames(required: seq<Name>, supported: seq<Name>, a: nat, b: nat)
    requires a < |supported| && b < |supported|
    requires Strncmp256Differs(supported[a], supported[b])
    ensures InstanceExtensionWarningsAsWrittenOf(required, supported) == []
  {
    if |required| > 0 {
      AsWrittenSilentWithTwoDistinctNames(required[..|required| - 1], supported, a, b);
      var last := required[|required| - 1];
      if Strncmp256Differs(last, supported[a]) {
      } else {
        assert Strncmp256Differs(last, supported[b]);
      }
    }
  }

  /**
   * Two inputs that show the inverted test. A driver reporting
   * "VK_KHR_surface" and "VK_EXT_debug_utils" lacks "VK_KHR_wayland_surface":
   * as written nothing is reported, the corrected check reports it. A driver
   * reporting exactly the required "VK_KHR_surface": as written it is reported
   * as unsupported, the corrected check reports nothing.
   */
  lemma InstanceExtensionCheckWitness()
    ensures InstanceExtensionWarningsAsWrittenOf(["VK_KHR_wayland_surface"], ["VK_KHR_surface", "VK_EXT_debug_utils"]) == []
    ensures MissingNames(["VK_KHR_wayland_surface"], ["VK_KHR_surface", "VK_EXT_debug_utils"]) == ["VK_KHR_wayland_surface"]
    ensures InstanceExtensionWarningsAsWrittenOf(["VK_KHR_surface"], ["VK_KHR_surface"]) == ["VK_KHR_surface"]
    ensures MissingNames(["VK_KHR_surface"], ["VK_KHR_surface"]) == []
  {
    AsWrittenSilentWithTwoDistinctNames(["VK_KHR_wayland_surface"], ["VK_KHR_surface", "VK_EXT_debug_utils"], 0, 1);
    var single: seq<Name> := ["VK_KHR_surface"];
    assert single[..0] == [];
    assert !Strncmp256Differs(single[0], single[0]);
  }

  /**
   * The extension check in createInstance with the comparison it evidently
   * intends (`strncmp(...) == 0`): a warning for exactly the required names
   * the driver does not report.
   */
  method CheckInstanceExtensions(required: seq<Name>, supported: seq<Name>) returns (warned: seq<Name>)
    requires |required| <= |supported|
    ensures warned == MissingNames(required, supported)
    ensures |warned| == 0 <==> HasAll(required, supported)
  {
    warned := [];
    var i := 0;
    while i < |required|
      invariant i <= |required|
      invariant warned == MissingNames(required[..i], supported)
    {
      var supports := FindName(required[i], supported);
      assert required[..i + 1][..i] == required[..i];
      if !supports {
        warned := warned + [required[i]];
      }
      i := i + 1;
    }
    assert required[..i] == required;
  }

  /**
   * The parts of VkInstanceCreateInfo chosen by createInstance, and the
   * warnings it logs: one per missing layer, the summary warning that some
   * layers are unsupported, and one per extension the check reports.
   */
  datatype InstanceSetup = InstanceSetup(
    enabledLayers: seq<Name>,
    enabledExtensions: seq<Name>,
    layerWarnings: seq<Name>,
    layerSummaryWarned: bool,
    extensionWarnings: seq<Name>)

  /**
   * createInstance: enables the validation layers only when all are
   * available, enables GLFW's extensions plus debug utils, and (after the
   * instance exists) runs the extension check as written, which warns about
   * an enabled extension only when no supported name differs from it.
   * It asserts the driver reports at least as many extensions as it enables.
   */
  method CreateInstance(glfwExtensions: seq<Name>, availableLayers: seq<Name>, supportedExtensions: seq<Name>)
    returns (setup: InstanceSetup)
    requires |glfwExtensions| + |REQUIRED_INSTANCE_EXTENSION_NAMES| <= |supportedExtensions|
    ensures setup.enabledLayers ==
      (if HasAll(REQUIRED_VALIDATION_LAYERS, availableLayers) then REQUIRED_VALIDATION_LAYERS else [])
    ensures setup.layerWarnings == MissingNames(REQUIRED_VALIDATION_LAYERS, availableLayers)
    ensures setup.layerSummaryWarned <==> !HasAll(REQUIRED_VALIDATION_LAYERS, availableLayers)
    ensures setup.enabledExtensions == glfwExtensions + REQUIRED_INSTANCE_EXTENSION_NAMES
    ensures setup.extensionWarnings == InstanceExtensionWarningsAsWrittenOf(setup.enabledExtensions, supportedExtensions)
    ensures (exists a, b :: 0 <= a < b < |supportedExtensions| && Strncmp256Differs(supportedExtensions[a], supportedExtensions[b]))
      ==> setup.extensionWarnings == []
  {
    var layersSupported, layerWarnings := CheckValidationLayerSupport(REQUIRED_VALIDATION_LAYERS, availableLayers);
    var enabledLayerCount := if layersSupported then |REQUIRED_VALIDATION_LAYERS| else 0;
    var extensions := GetRequiredInstanceExtensions(glfwExtensions);
    assert extensions == extensions[..|glfwExtensions|] + extensions[|glfwExtensions|..];
    var extensionWarnings := CheckInstanceExtensionsAsWritten(extensions, supportedExtensions);
    if a, b :| 0 <= a < b < |supportedExtensions| && Strncmp256Differs(supportedExtensions[a], supportedExtensions[b]) {
      AsWrittenSilentWithTwoDistinctNames(extensions, supportedExtensions, a, b);
    }
    setup := InstanceSetup(REQUIRED_VALIDATION_LAYERS[..enabledLayerCount], extensions, layerWarnings, !layersSupported, extensionWarnings);
  }

  // ---------------------------------------------------------- physical device

  /** What the renderer learns about one GPU from the driver. */
  datatype PhysicalDevice = PhysicalDevice(
    deviceType: nat,
    queueFamilies: seq<QueueFamily>,
    extensions: seq<Name>,
    surfaceSupport: SurfaceSupport)

  /** swapchain_adequate: queried only with the swapchain extension present; needs a format and a present mode. */
  predicate SwapchainAdequate(d: PhysicalDevice) {
    && HasAll(REQUIRED_DEVICE_EXTENSION_NAMES, d.extensions)
    && |d.surfaceSupport.formats| > 0
    && |d.surfaceSupport.presentModes| > 0
  }

  /** The suitability test: a discrete GPU with both queue roles, the required extensions and an adequate swapchain. */
  predicate Suitable(d: PhysicalDevice) {
    && d.deviceType == PHYSICAL_DEVICE_TYPE_DISCRETE_GPU
    && QueueFamiliesOf(d.queueFamilies).IsComplete()
    && HasAll(REQUIRED_DEVICE_EXTENSION_NAMES, d.extensions)
    && SwapchainAdequate(d)
  }

  /** is_physical_device_suitable. */
  method IsPhysicalDeviceSuitable(d: PhysicalDevice) returns (suitable: bool)
    ensures suitable == Suitable(d)
  {
    var indices := FindQueueFamilies(d.queueFamilies);
    var deviceHasRequiredExtensions := DoesPhysicalDeviceHaveRequiredExtensions(REQUIRED_DEVICE_EXTENSION_NAMES, d.extensions);
    var swapchainAdequate := false;
    if deviceHasRequiredExtensions {
      var support := d.surfaceSupport;
      swapchainAdequate := |support.formats| > 0 && |support.presentModes| > 0;
    }
    var isDedicatedGpu := d.deviceType == PHYSICAL_DEVICE_TYPE_DISCRETE_GPU;
    suitable := isDedicatedGpu && indices.IsComplete() && deviceHasRequiredExtensions && swapchainAdequate;
  }

  /**
   * Suitability in terms of what the driver reports: a discrete GPU with some
   * graphics-capable family, some family that can present, the swapchain
   * extension, and at least one surface format and one present mode.
   */
  lemma SuitableIff(d: PhysicalDevice)
    ensures Suitable(d) <==>
      && d.deviceType == PHYSICAL_DEVICE_TYPE_DISCRETE_GPU
      && (exists i :: 0 <= i < |d.queueFamilies| && SupportsGraphics(d.queueFamilies[i]))
      && (exists j :: 0 <= j < |d.queueFamilies| && d.queueFamilies[j].presentSupport)
      && "VK_KHR_swapchain" in d.extensions
      && |d.surfaceSupport.formats| > 0
      && |d.surfaceSupport.presentModes| > 0
  {
    CompleteIffBothRolesExist(d.queueFamilies);
    assert REQUIRED_DEVICE_EXTENSION_NAMES[0] == "VK_KHR_swapchain";
  }

  /**
   * find_physical_device: the first suitable device in the order the driver
   * lists them; none (VK_NULL_HANDLE) when the list is empty or no device is
   * suitable.
   */
  method FindPhysicalDevice(devices: seq<PhysicalDevice>) returns (chosen: Option<nat>)
    ensures chosen.None? <==> forall j :: 0 <= j < |devices| ==> !Suitable(devices[j])
    ensures chosen.Some? ==>
      && chosen.value < |devices|
      && Suitable(devices[chosen.value])
      && forall j :: 0 <= j < chosen.value ==> !Suitable(devices[j])
  {
    if |devices| == 0 {
      return None;
    }
    chosen := None;
    var i := 0;
    while i < |devices|
      invariant i <= |devices|
      invariant forall j :: 0 <= j < i ==> !Suitable(devices[j])
    {
      var suitable := IsPhysicalDeviceSuitable(devices[i]);
      if suitable {
        chosen := Some(i);
        break;
      }
      i := i + 1;
    }
  }

  // -------------------------------------------------------------- memory type

  /** Memory type i is allowed by the filter bit mask and has every requested property flag. */
  predicate MemoryTypeMatches(typeFilter: bv32, properties: bv32, memoryTypes: seq<bv32>, i: nat)
    requires i < |memoryTypes| <= MAX_MEMORY_TYPES
  {
    && typeFilter & ((1 as bv32) << i) != 0
    && memoryTypes[i] & properties == properties
  }

  /**
   * find_memory_type: the lowest index of a memory type that the filter
   * allows and that has all requested properties; U32_INVALID_ID when there
   * is none.
   */
  method FindMemoryType(typeFilter: bv32, properties: bv32, memoryTypes: seq<bv32>) returns (r: u32)
    requires |memoryTypes| <= MAX_MEMORY_TYPES
    ensures r == U32_INVALID_ID <==>
      forall j :: 0 <= j < |memoryTypes| ==> !MemoryTypeMatches(typeFilter, properties, memoryTypes, j)
    ensures r != U32_INVALID_ID ==>
      && r < |memoryTypes|
      && MemoryTypeMatches(typeFilter, properties, memoryTypes, r)
      && forall j :: 0 <= j < r ==> !MemoryTypeMatches(typeFilter, properties, memoryTypes, j)
  {
    var i := 0;
    while i < |memoryTypes|
      invariant i <= |memoryTypes|
      invariant forall j :: 0 <= j < i ==> !MemoryTypeMatches(typeFilter, properties, memoryTypes, j)
    {
      var memPropertiesSupported := memoryTypes[i] & properties == properties;
      if typeFilter & ((1 as bv32) << i) != 0 && memPropertiesSupported {
        assert MemoryTypeMatches(typeFilter, properties, memoryTypes, i);
        return i;
      }
      i := i + 1;
    }
    return U32_INVALID_ID;
  }
}
