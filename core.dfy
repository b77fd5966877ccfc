// src/renderer/core.rs: the device-selection rules of engine start-up.
// `find_queue_families` repeats the scan of queue_family_indices.rs over a
// struct with public fields; the device's answers to the Vulkan queries
// (queue families, extension names, surface formats and present modes) are
// parameters, and each query that can fail is a `Result`.

module Core {
  import opened Vk
  import QFI = QueueFamilyIndices

  const SWAPCHAIN_EXTENSION: string := "VK_KHR_swapchain"
  const PORTABILITY_SUBSET_EXTENSION: string := "VK_KHR_portability_subset"
  const KHRONOS_VALIDATION_LAYER: string := "VK_LAYER_KHRONOS_validation"

  /** `REQUIRED_DEVICE_EXTENSIONS`: macOS also needs the portability subset. */
  function RequiredDeviceExtensions(macos: bool): seq<string>
  {
    if macos then [SWAPCHAIN_EXTENSION, PORTABILITY_SUBSET_EXTENSION] else [SWAPCHAIN_EXTENSION]
  }

  const REQUIRED_VALIDATION_LAYERS: seq<string> := [KHRONOS_VALIDATION_LAYER]

  const NO_VULKAN_GPU: string := "Failed to find a GPU with Vulkan support"
  const NO_SUITABLE_GPU: string := "Failed to find a suitable GPU"
  const UNKNOWN_DEVICE_TYPE: string := "Unknown device type"
  const GRAPHICS_NOT_INITIALIZED: string := "Graphics queue family not initialized"
  const PRESENT_NOT_INITIALIZED: string := "Presentation queue family not initialized"
  const LAYERS_MISSING: string := "Required validation layers are not all available"

  // ---------------------------------------------------------------------
  // Queue families

  /** `find_queue_families`: the same enumerate-and-break loop as `QueueFamilyIndices::new`. */
  method FindQueueFamilies(families: seq<QFI.QueueFamily>) returns (r: Result<QFI.Indices>)
    ensures r == QFI.Scan(families)
  {
    var indices := QFI.NO_INDICES;
    var i := 0;
    while i < |families|
      invariant 0 <= i <= |families|
      invariant QFI.Scan(families) == QFI.ScanFrom(families, i, indices)
    {
      if families[i].graphics {
        indices := indices.(graphicsFamily := Some(i));
      }
      var presentSupport := families[i].presentSupport;
      if presentSupport.Err? {
        return Err(presentSupport.msg);
      }
      if presentSupport.value {
        indices := indices.(presentFamily := Some(i));
      }
      if QFI.IsComplete(indices) {
        break;
      }
      i := i + 1;
    }
    r := Ok(indices);
  }

  // ---------------------------------------------------------------------
  // Containment checks

  /** `required.iter().all(|x| available.contains(x))`. */
  function ContainsAll(required: seq<string>, available: set<string>): (r: bool)
    ensures r <==> forall i :: 0 <= i < |required| ==> required[i] in available
  {
    if required == [] then true
    else
      var rest := ContainsAll(required[1..], available);
      assert forall i :: 1 <= i < |required| ==> required[i] == required[1..][i - 1];
      required[0] in available && rest
  }

  /**
   * `check_required_validation_layers`: nothing to check in a release
   * build; otherwise the enumeration's error, or an error unless every
   * required layer is available.
   */
  function CheckRequiredValidationLayers(enableValidationLayers: bool, available: Result<set<string>>): (r: Result<()>)
    ensures !enableValidationLayers ==> r == Ok(())
    ensures enableValidationLayers && available.Ok? ==>
              (r.Ok? <==> KHRONOS_VALIDATION_LAYER in available.value)
    ensures enableValidationLayers && available.Ok? && r.Err? ==> r.msg == LAYERS_MISSING
    ensures enableValidationLayers && available.Err? ==> r == Err(available.msg)
  {
    if !enableValidationLayers then Ok(())
    else if available.Err? then Err(available.msg)
    else if ContainsAll(REQUIRED_VALIDATION_LAYERS, available.value) then Ok(())
    else Err(LAYERS_MISSING)
  }

  /** `check_required_device_extensions`, given the device's extension names or the query's error. */
  function CheckRequiredDeviceExtensions(macos: bool, available: Result<seq<string>>): (r: Result<bool>)
    ensures available.Err? <==> r.Err?
    ensures available.Ok? ==>
              (r.value <==> forall e :: e in RequiredDeviceExtensions(macos) ==> e in available.value)
  {
    if available.Err? then Err(available.msg)
    else
      var found := ContainsAll(RequiredDeviceExtensions(macos), set e | e in available.value);
      assert found <==> forall e :: e in RequiredDeviceExtensions(macos) ==> e in available.value by {
        var req := RequiredDeviceExtensions(macos);
        assert forall e :: e in req <==> exists i :: 0 <= i < |req| && req[i] == e;
      }
      Ok(found)
  }

  // ---------------------------------------------------------------------
  // Device suitability and choice

  /** The surface's format and present-mode lists, reduced to how many entries each has. */
  datatype SwapchainSupport = SwapchainSupport(formatCount: nat, presentModeCount: nat)

  /** `VkPhysicalDeviceType`: the five values the API names, or any other raw value a driver reports. */
  datatype DeviceType = CpuDevice | IntegratedGpu | DiscreteGpu | VirtualGpu | OtherDevice | UnlistedType(raw: int)

  /**
   * What the queries report about one physical device: its queue
   * families, extensions and surface support, its type, and its name as
   * `c_char_to_string` converts it (an error when it is not UTF-8).
   */
  datatype PhysicalDevice = PhysicalDevice(
    families: seq<QFI.QueueFamily>,
    extensions: Result<seq<string>>,
    support: Result<SwapchainSupport>,
    deviceType: DeviceType,
    name: Result<string>)

  /**
   * `physical_device_is_suitable`: the three queries run in order and the
   * first to fail decides the error; otherwise the device is suitable iff its
   * queue families are complete, it has the required extensions and the
   * surface offers at least one format and one present mode.
   */
  function IsSuitable(macos: bool, d: PhysicalDevice): (r: Result<bool>)
    ensures r.Err? <==> (QFI.Scan(d.families).Err? || d.extensions.Err? || d.support.Err?)
    ensures r.Ok? ==>
              (r.value <==> && QFI.IsComplete(QFI.Scan(d.families).value)
                            && CheckRequiredDeviceExtensions(macos, d.extensions).value
                            && d.support.value.formatCount > 0
                            && d.support.value.presentModeCount > 0)
  {
    var indices := QFI.Scan(d.families);
    if indices.Err? then Err(indices.msg)
    else
      var exts := CheckRequiredDeviceExtensions(macos, d.extensions);
      if exts.Err? then Err(exts.msg)
      else if d.support.Err? then Err(d.support.msg)
      else
        var adequate := d.support.value.formatCount > 0 && d.support.value.presentModeCount > 0;
        Ok(QFI.IsComplete(indices.value) && exts.value && adequate)
  }

  /** The `filter` of `create_physical_device`: an error counts as unsuitable. */
  predicate Accepted(macos: bool, d: PhysicalDevice)
  {
    IsSuitable(macos, d) == Ok(true)
  }

  /** The position of the first accepted device, if any. */
  function FirstAccepted(macos: bool, devices: seq<PhysicalDevice>): (r: Option<nat>)
    ensures r.Some? ==> r.value < |devices| && Accepted(macos, devices[r.value])
    ensures r.Some? ==> forall j :: 0 <= j < r.value ==> !Accepted(macos, devices[j])
    ensures r.None? ==> forall j :: 0 <= j < |devices| ==> !Accepted(macos, devices[j])
  {
    if devices == [] then None
    else if Accepted(macos, devices[0]) then Some(0)
    else
      var rest := FirstAccepted(macos, devices[1..]);
      assert forall j :: 1 <= j < |devices| ==> devices[j] == devices[1..][j - 1];
      if rest.Some? then Some(rest.value + 1) else None
  }

  /** The type label `log_physical_device_info` prints; a type the API does not name is an error. */
  function DeviceTypeLabel(t: DeviceType): (r: Result<string>)
    ensures r.Err? <==> t.UnlistedType?
    ensures r.Err? ==> r.msg == UNKNOWN_DEVICE_TYPE
  {
    match t
    case CpuDevice => Ok("CPU")
    case IntegratedGpu => Ok("Integrated GPU")
    case DiscreteGpu => Ok("Discrete GPU")
    case VirtualGpu => Ok("Virtual GPU")
    case OtherDevice => Ok("Unknown")
    case UnlistedType(_) => Err(UNKNOWN_DEVICE_TYPE)
  }

  /**
   * The fallible part of `log_physical_device_info`: the type label, then
   * the name conversion. The message itself goes to the log and is not
   * modelled.
   */
  function LogPhysicalDeviceInfo(d: PhysicalDevice): (r: Result<()>)
    ensures r.Ok? <==> !d.deviceType.UnlistedType? && d.name.Ok?
    ensures d.deviceType.UnlistedType? ==> r == Err(UNKNOWN_DEVICE_TYPE)
    ensures !d.deviceType.UnlistedType? && d.name.Err? ==> r == Err(d.name.msg)
  {
    var typeLabel := DeviceTypeLabel(d.deviceType);
    if typeLabel.Err? then Err(typeLabel.msg)
    else if d.name.Err? then Err(d.name.msg)
    else Ok(())
  }

  /**
   * `create_physical_device`, returning the chosen device's position in
   * enumeration order. `enumerated` is what `enumerate_physical_devices`
   * returns. Its error is passed on; no devices at all is an error; else the
   * first suitable device is logged and chosen, and a logging error is
   * passed on; no suitable device is an error.
   */
  function CreatePhysicalDevice(macos: bool, enumerated: Result<seq<PhysicalDevice>>): (r: Result<nat>)
    ensures enumerated.Err? ==> r == Err(enumerated.msg)
    ensures enumerated == Ok([]) ==> r == Err(NO_VULKAN_GPU)
    ensures enumerated.Ok? && enumerated.value != [] ==>
              (forall j :: 0 <= j < |enumerated.value| ==> !Accepted(macos, enumerated.value[j])) ==> r == Err(NO_SUITABLE_GPU)
    ensures enumerated.Ok? ==>
              forall k :: 0 <= k < |enumerated.value| && Accepted(macos, enumerated.value[k])
                          && (forall j :: 0 <= j < k ==> !Accepted(macos, enumerated.value[j])) ==>
                r == (var log := LogPhysicalDeviceInfo(enumerated.value[k]); if log.Ok? then Ok(k) else Err(log.msg))
    ensures r.Ok? ==> enumerated.Ok? && r.value < |enumerated.value| && Accepted(macos, enumerated.value[r.value])
                      && LogPhysicalDeviceInfo(enumerated.value[r.value]).Ok?
                      && forall j :: 0 <= j < r.value ==> !Accepted(macos, enumerated.value[j])
  {
    if enumerated.Err? then Err(enumerated.msg)
    else
      var devices := enumerated.value;
      if devices == [] then Err(NO_VULKAN_GPU)
      else
        var chosen := FirstAccepted(macos, devices);
        if chosen.None? then Err(NO_SUITABLE_GPU)
        else
          var log := LogPhysicalDeviceInfo(devices[chosen.value]);
          if log.Err? then Err(log.msg) else Ok(chosen.value)
  }

  /** A device whose suitability query fails is never chosen. */
  lemma FailingQueryNeverChosen(macos: bool, devices: seq<PhysicalDevice>, k: nat)
    requires k < |devices| && IsSuitable(macos, devices[k]).Err?
    ensures CreatePhysicalDevice(macos, Ok(devices)).Ok? ==> CreatePhysicalDevice(macos, Ok(devices)).value != k
  {
  }

  // ---------------------------------------------------------------------
  // Logical device

  /**
   * The family part of `create_logical_device`: both families must be set,
   * and one queue is requested per distinct family (a `HashSet`, so the
   * order of the create infos is not modelled).
   */
  function UniqueQueueFamilies(indices: QFI.Indices): (r: Result<set<nat>>)
    ensures indices.graphicsFamily.None? ==> r == Err(GRAPHICS_NOT_INITIALIZED)
    ensures indices.graphicsFamily.Some? && indices.presentFamily.None? ==> r == Err(PRESENT_NOT_INITIALIZED)
    ensures r.Ok? <==> QFI.IsComplete(indices)
    ensures r.Ok? ==> r.value == {indices.graphicsFamily.value, indices.presentFamily.value}
    ensures r.Ok? ==> |r.value| == (if indices.graphicsFamily == indices.presentFamily then 1 else 2)
  {
    if indices.graphicsFamily.None? then Err(GRAPHICS_NOT_INITIALIZED)
    else if indices.presentFamily.None? then Err(PRESENT_NOT_INITIALIZED)
    else
      var g, p := indices.graphicsFamily.value, indices.presentFamily.value;
      if g == p then
        assert {g, p} == {g};
        Ok({g, p})
      else
        Ok({g, p})
  }

  /** `VkDeviceQueueCreateInfo`: one queue of priority 1.0 per family. */
  datatype QueueCreateInfo = QueueCreateInfo(queueFamilyIndex: nat, queueCount: nat)

  function QueueCreateInfos(families: set<nat>): (r: set<QueueCreateInfo>)
    ensures forall info :: info in r <==> info.queueFamilyIndex in families && info.queueCount == 1
  {
    set f | f in families :: QueueCreateInfo(f, 1)
  }
}
