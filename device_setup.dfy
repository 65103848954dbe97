/**
 * Vulkan instance and device set-up of the barriers test
 * (tests/barriers.h): the validation-layer message callback, choosing the
 * physical device and the graphics and present queue families, and the
 * lists handed to instance and device creation. The Vulkan calls
 * themselves are not modelled; what they report is passed in.
 */
module DeviceSetup {
  import opened Common

  const VK_FALSE: u32 := 0
  const VK_TRUE: u32 := 1

  // VkDebugUtilsMessageSeverityFlagBitsEXT.
  const SEVERITY_VERBOSE: bv32 := 0x0000_0001
  const SEVERITY_INFO: bv32 := 0x0000_0010
  const SEVERITY_WARNING: bv32 := 0x0000_0100
  const SEVERITY_ERROR: bv32 := 0x0000_1000

  // VkDebugUtilsMessageTypeFlagBitsEXT.
  const TYPE_GENERAL: bv32 := 0x1
  const TYPE_VALIDATION: bv32 := 0x2
  const TYPE_PERFORMANCE: bv32 := 0x4

  const VK_QUEUE_GRAPHICS_BIT: bv32 := 0x1
  const VK_STRUCTURE_TYPE_DEVICE_QUEUE_CREATE_INFO: int := 2

  const DEBUG_UTILS_EXTENSION_NAME: string := "VK_EXT_debug_utils"
  const SWAPCHAIN_EXTENSION_NAME: string := "VK_KHR_swapchain"
  const STANDARD_VALIDATION_LAYER: string := "VK_LAYER_LUNARG_standard_validation"

  /** Capacity of the arrays the enumerations and name lists are read into. */
  const ARRAY_CAPACITY: nat := 8
  const QUEUE_CREATE_INFO_CAPACITY: nat := 2

  // Validation-layer messages.

  datatype LogLevel = Warning | Info

  /** Either the program stops, or it logs the message and returns to the layer. */
  datatype DebugOutcome =
    | Aborted(error: FatalError)
    | Logged(level: LogLevel, text: string, result: u32)

  function ValidationText(messageId: string, message: string): string {
    "VALIDATION LAYER [" + messageId + "]: " + message + "\n"
  }

  /**
   * Errors stop the program; warnings are logged as warnings and anything
   * else as information. The callback never asks the layer to abort the
   * call that triggered it.
   */
  function DebugCallback(severity: bv32, messageIdName: Option<string>, message: string): (r: DebugOutcome)
    ensures r.Aborted? <==> severity & SEVERITY_ERROR != 0
    ensures r.Aborted? ==> r.error == ValidationError(messageIdName.GetOr(""), message)
    ensures r.Logged? ==> r.result == VK_FALSE
    ensures r.Logged? ==> r.text == ValidationText(messageIdName.GetOr(""), message)
    ensures r.Logged? ==> (r.level == Warning <==> severity & SEVERITY_WARNING != 0)
  {
    var messageId := if messageIdName.Some? then messageIdName.value else "";
    if SEVERITY_ERROR & severity != 0 then
      Aborted(ValidationError(messageId, message))
    else if SEVERITY_WARNING & severity != 0 then
      Logged(Warning, ValidationText(messageId, message), VK_FALSE)
    else
      Logged(Info, ValidationText(messageId, message), VK_FALSE)
  }

  /** The severities the debug messenger is created with: information messages are left out. */
  const MESSENGER_SEVERITIES: bv32 := SEVERITY_VERBOSE | SEVERITY_WARNING | SEVERITY_ERROR
  const MESSENGER_TYPES: bv32 := TYPE_GENERAL | TYPE_VALIDATION | TYPE_PERFORMANCE

  /**
   * The messenger leaves information messages out, so of what it delivers
   * only verbose messages are logged as information; everything else it
   * delivers stops the program or is logged as a warning.
   */
  lemma DeliveredSeverities(severity: bv32, messageIdName: Option<string>, message: string)
    requires severity & MESSENGER_SEVERITIES == severity && severity != 0
    ensures MESSENGER_SEVERITIES & SEVERITY_INFO == 0
    ensures (DebugCallback(severity, messageIdName, message).Logged? &&
             DebugCallback(severity, messageIdName, message).level == Info)
            <==> severity == SEVERITY_VERBOSE
  {
  }

  // Instance creation.

  datatype InstanceRequest = InstanceRequest(
    extensions: BoundedArray<string>, layers: BoundedArray<string>,
    messageSeverity: bv32, messageType: bv32)

  /**
   * The extensions GLFW needs followed by the debug-utils extension, the
   * standard validation layer, and the messenger's severity and type masks.
   */
  method InstanceCreateRequest(glfwExtensions: seq<string>) returns (req: InstanceRequest)
    requires |glfwExtensions| < ARRAY_CAPACITY
    ensures req.extensions.items == glfwExtensions + [DEBUG_UTILS_EXTENSION_NAME]
    ensures req.layers.items == [STANDARD_VALIDATION_LAYER]
    ensures req.messageSeverity == MESSENGER_SEVERITIES && req.messageType == MESSENGER_TYPES
  {
    var extensions := BoundedArray(glfwExtensions, ARRAY_CAPACITY);
    var layers: BoundedArray<string> := EmptyArray(ARRAY_CAPACITY);
    extensions := Push(extensions, DEBUG_UTILS_EXTENSION_NAME);
    layers := Push(layers, STANDARD_VALIDATION_LAYER);
    req := InstanceRequest(extensions, layers, MESSENGER_SEVERITIES, MESSENGER_TYPES);
  }

  // Device creation.

  datatype QueueFamilyProperties = QueueFamilyProperties(queueFlags: bv32, queueCount: u32)

  predicate SupportsGraphics(p: QueueFamilyProperties) {
    p.queueFlags & VK_QUEUE_GRAPHICS_BIT != 0
  }

  /**
   * `index` is the last position whose flag is set, or 0 (the zeroed
   * starting value) when no flag is set.
   */
  predicate IsLastMatch(matches: seq<bool>, index: int) {
    && ((exists j :: 0 <= j < |matches| && matches[j]) ==>
          0 <= index < |matches| && matches[index] && forall j :: index < j < |matches| ==> !matches[j])
    && ((forall j :: 0 <= j < |matches| ==> !matches[j]) ==> index == 0)
  }

  function GraphicsMatches(props: seq<QueueFamilyProperties>): seq<bool> {
    seq(|props|, i requires 0 <= i < |props| => SupportsGraphics(props[i]))
  }

  /**
   * Walks the queue families in order; a family that supports graphics
   * becomes the graphics family and one that can present becomes the
   * present family, so the last such family wins.
   */
  method FindQueueFamilies(props: seq<QueueFamilyProperties>, presentSupported: seq<bool>)
    returns (graphics: u32, present: u32)
    requires |props| <= ARRAY_CAPACITY && |presentSupported| == |props|
    ensures IsLastMatch(GraphicsMatches(props), graphics as int)
    ensures IsLastMatch(presentSupported, present as int)
  {
    graphics, present := 0, 0;
    var gm := GraphicsMatches(props);
    var i := 0;
    while i < |props|
      invariant 0 <= i <= |props|
      invariant IsLastMatch(gm[..i], graphics as int)
      invariant IsLastMatch(presentSupported[..i], present as int)
    {
      assert gm[..i + 1][..i] == gm[..i] && gm[..i + 1][i] == gm[i];
      assert presentSupported[..i + 1][..i] == presentSupported[..i];
      if props[i].queueFlags & VK_QUEUE_GRAPHICS_BIT != 0 {
        graphics := i as u32;
      }
      if presentSupported[i] {
        present := i as u32;
      }
      i := i + 1;
    }
    assert gm[..i] == gm;
    assert presentSupported[..i] == presentSupported;
  }

  datatype QueueCreateInfo = QueueCreateInfo(
    sType: int, flags: u32, queueFamilyIndex: u32, queueCount: u32, queuePriorities: seq<real>)

  /** One queue at full priority from the family. */
  function DefaultQueueCreateInfo(family: u32): (ci: QueueCreateInfo)
    ensures ci.sType == VK_STRUCTURE_TYPE_DEVICE_QUEUE_CREATE_INFO && ci.flags == 0
    ensures ci.queueFamilyIndex == family
    ensures ci.queueCount as int == |ci.queuePriorities| == 1 && ci.queuePriorities[0] == 1.0
  {
    QueueCreateInfo(VK_STRUCTURE_TYPE_DEVICE_QUEUE_CREATE_INFO, 0, family, 1, [1.0])
  }

  /** One create-info per distinct family, the graphics family first. */
  method QueueCreateInfos(graphics: u32, present: u32) returns (cis: BoundedArray<QueueCreateInfo>)
    ensures cis.capacity == QUEUE_CREATE_INFO_CAPACITY
    ensures |cis.items| == |{graphics, present}|
    ensures cis.items[0] == DefaultQueueCreateInfo(graphics)
    ensures exists i :: 0 <= i < |cis.items| && cis.items[i] == DefaultQueueCreateInfo(present)
    ensures forall i :: 0 <= i < |cis.items| ==> cis.items[i] == DefaultQueueCreateInfo(cis.items[i].queueFamilyIndex)
    ensures forall i, j :: 0 <= i < j < |cis.items| ==> cis.items[i].queueFamilyIndex != cis.items[j].queueFamilyIndex
  {
    cis := EmptyArray(QUEUE_CREATE_INFO_CAPACITY);
    cis := Push(cis, DefaultQueueCreateInfo(graphics));
    if present != graphics {
      cis := Push(cis, DefaultQueueCreateInfo(present));
      assert cis.items[1] == DefaultQueueCreateInfo(present);
    }
  }

  /** A request for one queue: its family and its index within the family. */
  datatype QueueRequest = QueueRequest(family: u32, index: u32)

  datatype DeviceRequest = DeviceRequest(
    physicalDevice: Handle, graphicsFamily: u32, presentFamily: u32,
    queueCreateInfos: seq<QueueCreateInfo>, enabledLayerCount: nat, extensions: seq<string>,
    queues: seq<QueueRequest>)

  /**
   * Uses the first physical device, picks the queue families, and asks for
   * one queue per distinct family, the swapchain extension and no layers;
   * then fetches queue 0 of the graphics and of the present family.
   */
  method CreateDevice(physicalDevices: seq<Handle>, props: seq<QueueFamilyProperties>, presentSupported: seq<bool>)
    returns (req: DeviceRequest)
    requires 0 < |physicalDevices| <= ARRAY_CAPACITY
    requires |props| <= ARRAY_CAPACITY && |presentSupported| == |props|
    ensures req.physicalDevice == physicalDevices[0]
    ensures IsLastMatch(GraphicsMatches(props), req.graphicsFamily as int)
    ensures IsLastMatch(presentSupported, req.presentFamily as int)
    ensures |req.queueCreateInfos| == |{req.graphicsFamily, req.presentFamily}|
    ensures req.queueCreateInfos[0] == DefaultQueueCreateInfo(req.graphicsFamily)
    ensures exists i :: 0 <= i < |req.queueCreateInfos| && req.queueCreateInfos[i] == DefaultQueueCreateInfo(req.presentFamily)
    ensures forall i :: 0 <= i < |req.queueCreateInfos| ==>
              req.queueCreateInfos[i] == DefaultQueueCreateInfo(req.queueCreateInfos[i].queueFamilyIndex)
    ensures forall i, j :: 0 <= i < j < |req.queueCreateInfos| ==>
              req.queueCreateInfos[i].queueFamilyIndex != req.queueCreateInfos[j].queueFamilyIndex
    ensures req.enabledLayerCount == 0 && req.extensions == [SWAPCHAIN_EXTENSION_NAME]
    ensures req.queues == [QueueRequest(req.graphicsFamily, 0), QueueRequest(req.presentFamily, 0)]
  {
    var physical := physicalDevices[0];
    var graphics, present := FindQueueFamilies(props, presentSupported);
    var cis := QueueCreateInfos(graphics, present);
    req := DeviceRequest(physical, graphics, present, cis.items, 0, [SWAPCHAIN_EXTENSION_NAME],
                         [QueueRequest(graphics, 0), QueueRequest(present, 0)]);
  }
}
