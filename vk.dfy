/**
 * Values of the Vulkan API that the context setup reads and writes. Enumerants keep
 * their numeric values from the Vulkan 1.x core and KHR headers; flag masks are
 * 32-bit vectors, counts and indices are 32-bit unsigned integers, and object
 * handles are opaque numbers chosen by the driver.
 */
module Vk {

  /** A C `uint32_t`. */
  type uint32 = x: int | 0 <= x < 0x1_0000_0000

  /** A C `int32_t`. */
  type int32 = x: int | -0x8000_0000 <= x < 0x8000_0000

  /** The C conversion of an `int32_t` to `uint32_t` (modulo 2^32). */
  function AsUint32(x: int32): (r: uint32)
    ensures 0 <= x ==> r == x
    ensures x < 0 ==> r == x + 0x1_0000_0000
  {
    x % 0x1_0000_0000
  }

  /** A C `VkFlags` bit mask. */
  type Flags = bv32

  /** A `VkFormat`, `VkResult`, `VkImageLayout`, ... enumerant (a C `int32_t` enum). */
  type Enum = int

  /** Some bit of `bits` is set in `flags` (the C test `flags & bits`). */
  predicate HasAny(flags: Flags, bits: Flags)
  {
    flags & bits != 0
  }

  /** Every bit of `bits` is set in `flags` (the C test `(flags & bits) == bits`). */
  predicate HasAll(flags: Flags, bits: Flags)
  {
    flags & bits == bits
  }

  /** An opaque dispatchable or non-dispatchable handle (VK_NULL_HANDLE is 0). */
  type Handle = nat

  const UINT32_MAX: uint32 := 0xFFFF_FFFF
  const VK_NULL_HANDLE: Handle := 0

  // VkResult
  const VK_SUCCESS: Enum := 0
  const VK_NOT_READY: Enum := 1
  const VK_TIMEOUT: Enum := 2
  const VK_EVENT_SET: Enum := 3
  const VK_EVENT_RESET: Enum := 4
  const VK_INCOMPLETE: Enum := 5
  const VK_ERROR_OUT_OF_HOST_MEMORY: Enum := -1
  const VK_ERROR_OUT_OF_DEVICE_MEMORY: Enum := -2
  const VK_ERROR_INITIALIZATION_FAILED: Enum := -3
  const VK_ERROR_DEVICE_LOST: Enum := -4
  const VK_ERROR_MEMORY_MAP_FAILED: Enum := -5
  const VK_ERROR_LAYER_NOT_PRESENT: Enum := -6
  const VK_ERROR_EXTENSION_NOT_PRESENT: Enum := -7
  const VK_ERROR_FEATURE_NOT_PRESENT: Enum := -8
  const VK_ERROR_INCOMPATIBLE_DRIVER: Enum := -9
  const VK_ERROR_TOO_MANY_OBJECTS: Enum := -10
  const VK_ERROR_FORMAT_NOT_SUPPORTED: Enum := -11
  const VK_ERROR_FRAGMENTED_POOL: Enum := -12
  const VK_ERROR_UNKNOWN: Enum := -13
  const VK_ERROR_OUT_OF_POOL_MEMORY: Enum := -1000069000
  const VK_ERROR_INVALID_EXTERNAL_HANDLE: Enum := -1000072003
  const VK_ERROR_FRAGMENTATION: Enum := -1000161000
  const VK_ERROR_INVALID_OPAQUE_CAPTURE_ADDRESS: Enum := -1000257000
  const VK_ERROR_SURFACE_LOST_KHR: Enum := -1000000000
  const VK_ERROR_NATIVE_WINDOW_IN_USE_KHR: Enum := -1000000001
  const VK_SUBOPTIMAL_KHR: Enum := 1000001003
  const VK_ERROR_OUT_OF_DATE_KHR: Enum := -1000001004
  const VK_ERROR_INCOMPATIBLE_DISPLAY_KHR: Enum := -1000003001
  const VK_ERROR_VALIDATION_FAILED_EXT: Enum := -1000011001
  const VK_ERROR_INVALID_SHADER_NV: Enum := -1000012000
  const VK_ERROR_INVALID_DRM_FORMAT_MODIFIER_PLANE_LAYOUT_EXT: Enum := -1000158000
  const VK_ERROR_NOT_PERMITTED_EXT: Enum := -1000174001
  const VK_ERROR_FULL_SCREEN_EXCLUSIVE_MODE_LOST_EXT: Enum := -1000255000
  const VK_THREAD_IDLE_KHR: Enum := 1000268000
  const VK_THREAD_DONE_KHR: Enum := 1000268001
  const VK_OPERATION_DEFERRED_KHR: Enum := 1000268002
  const VK_OPERATION_NOT_DEFERRED_KHR: Enum := 1000268003
  const VK_PIPELINE_COMPILE_REQUIRED_EXT: Enum := 1000297000
  const VK_RESULT_MAX_ENUM: Enum := 0x7FFF_FFFF

  // VkQueueFlagBits
  const VK_QUEUE_GRAPHICS_BIT: Flags := 0x1
  const VK_QUEUE_COMPUTE_BIT: Flags := 0x2
  const VK_QUEUE_TRANSFER_BIT: Flags := 0x4
  const VK_QUEUE_SPARSE_BINDING_BIT: Flags := 0x8
  const VK_QUEUE_PROTECTED_BIT: Flags := 0x10

  // VkMemoryPropertyFlagBits
  const VK_MEMORY_PROPERTY_DEVICE_LOCAL_BIT: Flags := 0x1
  const VK_MEMORY_PROPERTY_HOST_VISIBLE_BIT: Flags := 0x2
  const VK_MEMORY_PROPERTY_HOST_COHERENT_BIT: Flags := 0x4

  /** VK_MAX_MEMORY_TYPES: the size of the memory-type array in VkPhysicalDeviceMemoryProperties. */
  const VK_MAX_MEMORY_TYPES: nat := 32

  // VkFormat
  const VK_FORMAT_UNDEFINED: Enum := 0
  const VK_FORMAT_B8G8R8A8_UNORM: Enum := 44
  const VK_FORMAT_D16_UNORM: Enum := 124
  const VK_FORMAT_X8_D24_UNORM_PACK32: Enum := 125
  const VK_FORMAT_D32_SFLOAT: Enum := 126
  const VK_FORMAT_S8_UINT: Enum := 127
  const VK_FORMAT_D16_UNORM_S8_UINT: Enum := 128
  const VK_FORMAT_D24_UNORM_S8_UINT: Enum := 129
  const VK_FORMAT_D32_SFLOAT_S8_UINT: Enum := 130

  // VkFormatFeatureFlagBits
  const VK_FORMAT_FEATURE_DEPTH_STENCIL_ATTACHMENT_BIT: Flags := 0x200

  // VkImageTiling
  const VK_IMAGE_TILING_OPTIMAL: Enum := 0
  const VK_IMAGE_TILING_LINEAR: Enum := 1

  // VkImageAspectFlagBits
  const VK_IMAGE_ASPECT_COLOR_BIT: Flags := 0x1
  const VK_IMAGE_ASPECT_DEPTH_BIT: Flags := 0x2
  const VK_IMAGE_ASPECT_STENCIL_BIT: Flags := 0x4

  // VkImageUsageFlagBits
  const VK_IMAGE_USAGE_COLOR_ATTACHMENT_BIT: Flags := 0x10
  const VK_IMAGE_USAGE_DEPTH_STENCIL_ATTACHMENT_BIT: Flags := 0x20

  // VkImageType, VkImageViewType, VkSampleCountFlagBits
  const VK_IMAGE_TYPE_2D: Enum := 1
  const VK_IMAGE_VIEW_TYPE_2D: Enum := 1
  const VK_SAMPLE_COUNT_1_BIT: Flags := 0x1

  // VkSurfaceTransformFlagBitsKHR
  const VK_SURFACE_TRANSFORM_IDENTITY_BIT_KHR: Flags := 0x1

  // VkCompositeAlphaFlagBitsKHR
  const VK_COMPOSITE_ALPHA_OPAQUE_BIT_KHR: Flags := 0x1
  const VK_COMPOSITE_ALPHA_PRE_MULTIPLIED_BIT_KHR: Flags := 0x2
  const VK_COMPOSITE_ALPHA_POST_MULTIPLIED_BIT_KHR: Flags := 0x4
  const VK_COMPOSITE_ALPHA_INHERIT_BIT_KHR: Flags := 0x8

  // VkPresentModeKHR, VkSharingMode, VkColorSpaceKHR
  const VK_PRESENT_MODE_FIFO_KHR: Enum := 2
  const VK_SHARING_MODE_EXCLUSIVE: Enum := 0
  const VK_SHARING_MODE_CONCURRENT: Enum := 1
  const VK_COLORSPACE_SRGB_NONLINEAR_KHR: Enum := 0

  // VkImageLayout
  const VK_IMAGE_LAYOUT_UNDEFINED: Enum := 0
  const VK_IMAGE_LAYOUT_COLOR_ATTACHMENT_OPTIMAL: Enum := 2
  const VK_IMAGE_LAYOUT_DEPTH_STENCIL_ATTACHMENT_OPTIMAL: Enum := 3
  const VK_IMAGE_LAYOUT_PRESENT_SRC_KHR: Enum := 1000001002

  // VkAttachmentLoadOp, VkAttachmentStoreOp
  const VK_ATTACHMENT_LOAD_OP_LOAD: Enum := 0
  const VK_ATTACHMENT_LOAD_OP_CLEAR: Enum := 1
  const VK_ATTACHMENT_LOAD_OP_DONT_CARE: Enum := 2
  const VK_ATTACHMENT_STORE_OP_STORE: Enum := 0
  const VK_ATTACHMENT_STORE_OP_DONT_CARE: Enum := 1

  // Subpasses and synchronisation
  const VK_SUBPASS_EXTERNAL: uint32 := 0xFFFF_FFFF
  const VK_PIPELINE_BIND_POINT_GRAPHICS: Enum := 0
  const VK_PIPELINE_STAGE_COLOR_ATTACHMENT_OUTPUT_BIT: Flags := 0x400
  const VK_ACCESS_COLOR_ATTACHMENT_WRITE_BIT: Flags := 0x100

  // Buffers, descriptors, command pools
  const VK_BUFFER_USAGE_UNIFORM_BUFFER_BIT: Flags := 0x10
  const VK_DESCRIPTOR_TYPE_UNIFORM_BUFFER: Enum := 6
  const VK_SHADER_STAGE_VERTEX_BIT: Flags := 0x1
  const VK_COMMAND_POOL_CREATE_RESET_COMMAND_BUFFER_BIT: Flags := 0x2
  const VK_COMMAND_BUFFER_LEVEL_PRIMARY: Enum := 0

  /** VK_API_VERSION_1_0: VK_MAKE_VERSION(1, 0, 0). */
  const VK_API_VERSION_1_0: nat := 0x40_0000

  // Extension names
  const VK_KHR_SURFACE_EXTENSION_NAME: string := "VK_KHR_surface"
  const VK_KHR_SWAPCHAIN_EXTENSION_NAME: string := "VK_KHR_swapchain"

  /** VkExtent2D. */
  datatype Extent2D = Extent2D(width: uint32, height: uint32)

  /** VkQueueFamilyProperties (the fields the setup reads). */
  datatype QueueFamilyProperties = QueueFamilyProperties(queueFlags: Flags, queueCount: uint32)

  /** One entry of the memory-type table of VkPhysicalDeviceMemoryProperties. */
  datatype MemoryType = MemoryType(propertyFlags: Flags, heapIndex: uint32)

  /** The memory-type table; memoryTypeCount is its length, at most VK_MAX_MEMORY_TYPES. */
  type MemoryTypeTable = s: seq<MemoryType> | |s| <= VK_MAX_MEMORY_TYPES

  /** The queue-family table; its length is a uint32 count and no index equals UINT32_MAX. */
  type QueueFamilyTable = s: seq<QueueFamilyProperties> | |s| < UINT32_MAX

  /** VkSurfaceCapabilitiesKHR (the fields the swapchain negotiation reads). */
  datatype SurfaceCapabilities = SurfaceCapabilities(
    minImageCount: uint32,
    currentExtent: Extent2D,
    minImageExtent: Extent2D,
    maxImageExtent: Extent2D,
    supportedTransforms: Flags,
    currentTransform: Flags,
    supportedCompositeAlpha: Flags)

  /** VkSurfaceFormatKHR. */
  datatype SurfaceFormat = SurfaceFormat(format: Enum, colorSpace: Enum)

  /** VkFormatProperties (the two tiling feature masks the depth setup reads). */
  datatype FormatProperties = FormatProperties(linearTilingFeatures: Flags, optimalTilingFeatures: Flags)

  /** VkMemoryRequirements. */
  datatype MemoryRequirements = MemoryRequirements(size: nat, memoryTypeBits: uint32)

  /** VkLayerProperties and VkExtensionProperties, reduced to their names. */
  datatype LayerProperties = LayerProperties(layerName: string)
  datatype ExtensionProperties = ExtensionProperties(extensionName: string)

  datatype Option<T> = None | Some(value: T)

  /** VkImageViewCreateInfo (identity swizzle, flags 0). */
  datatype ImageViewCreateInfo = ImageViewCreateInfo(
    image: Handle,
    viewType: Enum,
    format: Enum,
    aspectMask: Flags,
    baseMipLevel: uint32,
    levelCount: uint32,
    baseArrayLayer: uint32,
    layerCount: uint32)

  /** A single-mip, single-layer 2D view of `image`: the views the setup creates. */
  function View2D(image: Handle, format: Enum, aspectMask: Flags): ImageViewCreateInfo
  {
    ImageViewCreateInfo(image, VK_IMAGE_VIEW_TYPE_2D, format, aspectMask, 0, 1, 0, 1)
  }

  /** Why the setup stopped: each of these prints a message (or not) and ends the process. */
  datatype Failure =
    | NotSuccess(result: Enum)   // PANIC_IF_NOT_SUCCESS on a driver result other than VK_SUCCESS
    | Panic(message: string)     // PANIC with a fixed message
    | Exit(status: int)          // exit(status)
    | AssertionFailed            // a failed assert on a driver answer

  /** The result of one setup stage: it completes, or it stops the process. */
  datatype Outcome = Ok | Failed(failure: Failure)

  /** PANIC_IF_NOT_SUCCESS: any result other than VK_SUCCESS stops the process. */
  function PanicIfNotSuccess(res: Enum): Outcome
  {
    if res != VK_SUCCESS then Failed(NotSuccess(res)) else Ok
  }

  /** Two stages in sequence: the second runs only when the first completes, so the first stop wins. */
  function Then(first: Outcome, rest: Outcome): Outcome
  {
    if first.Failed? then first else rest
  }

  /** assert(res == VK_SUCCESS) on a driver result. */
  function AssertSuccess(res: Enum): Outcome
  {
    if res != VK_SUCCESS then Failed(AssertionFailed) else Ok
  }

  /**
   * Sequencing is a monoid with Ok as its unit, so a run of stages may be
   * grouped in any way (Init2 groups its nine stages in three).
   */
  lemma ThenMonoid(a: Outcome, b: Outcome, c: Outcome)
    ensures Then(Ok, a) == a && Then(a, Ok) == a
    ensures Then(Then(a, b), c) == Then(a, Then(b, c))
  {
  }

  /** A run of stages completes exactly when every stage does, and otherwise ends with the first stop. */
  function Sequence(stages: seq<Outcome>): Outcome
    decreases |stages|
  {
    if stages == [] then Ok else Then(stages[0], Sequence(stages[1..]))
  }

  lemma {:induction false} SequenceFirstStop(stages: seq<Outcome>)
    ensures Sequence(stages).Ok? <==> forall i :: 0 <= i < |stages| ==> stages[i].Ok?
    ensures forall k :: (0 <= k < |stages| && stages[k].Failed? &&
                          (forall j :: 0 <= j < k ==> stages[j].Ok?)) ==>
      Sequence(stages) == stages[k]
    decreases |stages|
  {
    if stages != [] {
      SequenceFirstStop(stages[1..]);
      assert forall i :: 1 <= i < |stages| ==> stages[1..][i - 1] == stages[i];
    }
  }

  /** Two runs in sequence are one run: the first stop of the joined run is the first stop overall. */
  lemma {:induction false} SequenceAppend(xs: seq<Outcome>, ys: seq<Outcome>)
    ensures Sequence(xs + ys) == Then(Sequence(xs), Sequence(ys))
    decreases |xs|
  {
    if xs == [] {
      assert xs + ys == ys;
    } else {
      assert (xs + ys)[0] == xs[0];
      assert (xs + ys)[1..] == xs[1..] + ys;
      SequenceAppend(xs[1..], ys);
      ThenMonoid(xs[0], Sequence(xs[1..]), Sequence(ys));
    }
  }

  /**
   * assert on each of `conds` in turn, as initDepthBuffer and initUniformBuffer
   * do: the run completes exactly when every condition holds, and otherwise
   * stops with a failed assertion.
   */
  function AssertAll(conds: seq<bool>): Outcome
    decreases |conds|
  {
    if conds == [] then Ok else if !conds[0] then Failed(AssertionFailed) else AssertAll(conds[1..])
  }

  /** Three asserts in a row: the first false one stops. */
  lemma AssertAll3(x: bool, y: bool, z: bool)
    ensures AssertAll([x, y, z]) == if x && y && z then Ok else Failed(AssertionFailed)
  {
    var c := [x, y, z];
    assert c[1..] == [y, z] && c[1..][1..] == [z] && c[1..][1..][1..] == [];
    assert AssertAll(c[1..][1..]) == if z then Ok else Failed(AssertionFailed);
  }

  /** Five asserts in a row: the first false one stops. */
  lemma AssertAll5(v: bool, w: bool, x: bool, y: bool, z: bool)
    ensures AssertAll([v, w, x, y, z]) == if v && w && x && y && z then Ok else Failed(AssertionFailed)
  {
    var c := [v, w, x, y, z];
    assert c[1..] == [w, x, y, z] && c[1..][1..] == [x, y, z];
    AssertAll3(x, y, z);
  }

  lemma {:induction false} AssertAllRule(conds: seq<bool>)
    ensures AssertAll(conds).Ok? <==> forall i :: 0 <= i < |conds| ==> conds[i]
    ensures AssertAll(conds).Failed? ==> AssertAll(conds) == Failed(AssertionFailed)
    decreases |conds|
  {
    if conds != [] {
      AssertAllRule(conds[1..]);
      assert forall i :: 1 <= i < |conds| ==> conds[1..][i - 1] == conds[i];
    }
  }

  /** PANIC_IF_NOT_SUCCESS on each of `results` in turn, as a run of driver calls does. */
  function PanicChain(results: seq<Enum>): Outcome
    decreases |results|
  {
    if results == [] then Ok else Then(PanicIfNotSuccess(results[0]), PanicChain(results[1..]))
  }

  /**
   * A run of PANIC_IF_NOT_SUCCESS checks completes exactly when every result is
   * VK_SUCCESS, and otherwise stops with the first result that is not.
   */
  lemma {:induction false} PanicChainFirstFailure(results: seq<Enum>)
    ensures PanicChain(results).Ok? <==> forall i :: 0 <= i < |results| ==> results[i] == VK_SUCCESS
    ensures forall k :: (0 <= k < |results| && results[k] != VK_SUCCESS &&
                          (forall j :: 0 <= j < k ==> results[j] == VK_SUCCESS)) ==>
      PanicChain(results) == Failed(NotSuccess(results[k]))
    decreases |results|
  {
    if results != [] {
      PanicChainFirstFailure(results[1..]);
      assert forall i :: 1 <= i < |results| ==> results[1..][i - 1] == results[i];
    }
  }
}
