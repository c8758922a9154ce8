/**
 * The VulkanRHI object: the state the one-shot context setup fills in, and the
 * setup stages as methods over it. Every Vulkan query or creation call is
 * replaced by the driver's answer, passed in as a parameter; a stage that hits
 * PANIC, exit or a failed assert returns a Failed outcome (the process would end
 * there, so the state it leaves behind is not specified beyond its frame).
 */
module Rhi {
  import opened Vk
  import E = Enumeration
  import Q = QueueSelection
  import S = Surface
  import M = Memory
  import D = Depth
  import R = RenderPass

  /** layerProperties: a layer and the extensions found for it. */
  datatype LayerRecord = LayerRecord(
    properties: LayerProperties,
    instanceExtensions: seq<ExtensionProperties>,
    deviceExtensions: seq<ExtensionProperties>)

  /** SwapChainBuffer: a swapchain image and its color view. */
  datatype SwapChainBuffer = SwapChainBuffer(image: Handle, view: Handle)

  /** ImageResource; its constructor sets the format to VK_FORMAT_UNDEFINED. */
  datatype ImageResource = ImageResource(format: Enum, image: Handle, mem: Handle, view: Handle)

  /** VkDescriptorBufferInfo. */
  datatype DescriptorBufferInfo = DescriptorBufferInfo(buffer: Handle, offset: nat, range: nat)

  /** BufferResource. */
  datatype BufferResource = BufferResource(buf: Handle, mem: Handle, bufferInfo: DescriptorBufferInfo)

  // ---------------------------------------------------------------------------
  // The extension enumerations and the per-layer loops

  /**
   * initGlobalExtensionProperties on a layer whose instance-extension vector holds
   * `vec`: a failed count is fatal, a zero count returns with the vector as it
   * is, and after the loop the last fetch result must be VK_SUCCESS.
   */
  function InstanceExtensionsOutcome(script: seq<E.Attempt<ExtensionProperties>>, vec: seq<ExtensionProperties>): Outcome
    requires E.Settles(script)
  {
    match E.Enumerate(script, vec)
    case CountFailed(res) => Failed(NotSuccess(res))
    case NoItems(_) => Ok
    case Fetched(res, _) => PanicIfNotSuccess(res)
  }

  /** The instance-extension vector after initGlobalExtensionProperties (when it did not stop the process). */
  function InstanceExtensions(script: seq<E.Attempt<ExtensionProperties>>, vec: seq<ExtensionProperties>): seq<ExtensionProperties>
    requires E.Settles(script)
  {
    match E.Enumerate(script, vec)
    case CountFailed(_) => vec
    case NoItems(kept) => kept
    case Fetched(_, items) => items
  }

  /**
   * initDeviceExtensionProperties: like the instance-extension loop, but the last
   * fetch result is not checked.
   */
  function DeviceExtensionsOutcome(script: seq<E.Attempt<ExtensionProperties>>, vec: seq<ExtensionProperties>): Outcome
    requires E.Settles(script)
  {
    match E.Enumerate(script, vec)
    case CountFailed(res) => Failed(NotSuccess(res))
    case NoItems(_) => Ok
    case Fetched(_, _) => Ok
  }

  /** The device-extension vector after initDeviceExtensionProperties. */
  function DeviceExtensions(script: seq<E.Attempt<ExtensionProperties>>, vec: seq<ExtensionProperties>): seq<ExtensionProperties>
    requires E.Settles(script)
  {
    match E.Enumerate(script, vec)
    case CountFailed(_) => vec
    case NoItems(kept) => kept
    case Fetched(_, items) => items
  }

  /** The driver's enumeration answers settle for every layer name. */
  ghost predicate SettlesForAllLayers(script: string -> seq<E.Attempt<ExtensionProperties>>)
  {
    forall name :: E.Settles(script(name))
  }

  /** The record initGlobalLayerProperties pushes for a layer. */
  function NewLayerRecord(layer: LayerProperties, script: string -> seq<E.Attempt<ExtensionProperties>>): LayerRecord
    requires SettlesForAllLayers(script)
  {
    LayerRecord(layer, InstanceExtensions(script(layer.layerName), []), [])
  }

  /** The records pushed for `layers`, in order (when none stops the process). */
  function NewLayerRecords(layers: seq<LayerProperties>, script: string -> seq<E.Attempt<ExtensionProperties>>): (r: seq<LayerRecord>)
    requires SettlesForAllLayers(script)
    ensures |r| == |layers|
    decreases |layers|
  {
    if layers == [] then []
    else NewLayerRecords(layers[..|layers| - 1], script) + [NewLayerRecord(layers[|layers| - 1], script)]
  }

  /** Record i holds layer i, its instance extensions as enumerated from scratch, and no device extensions yet. */
  lemma {:induction false} NewLayerRecordsContents(layers: seq<LayerProperties>, script: string -> seq<E.Attempt<ExtensionProperties>>)
    requires SettlesForAllLayers(script)
    ensures forall i :: 0 <= i < |layers| ==>
      (NewLayerRecords(layers, script)[i] == LayerRecord(layers[i], InstanceExtensions(script(layers[i].layerName), []), []))
    decreases |layers|
  {
    if layers != [] {
      NewLayerRecordsContents(layers[..|layers| - 1], script);
    }
  }

  /** The outcome of the per-layer loop: the first layer whose extension enumeration stops the process. */
  function LayersOutcome(layers: seq<LayerProperties>, script: string -> seq<E.Attempt<ExtensionProperties>>): Outcome
    requires SettlesForAllLayers(script)
    decreases |layers|
  {
    if layers == [] then Ok
    else
      var o := InstanceExtensionsOutcome(script(layers[0].layerName), []);
      if o.Failed? then o else LayersOutcome(layers[1..], script)
  }

  /** One pass of the per-layer loop: the outcome and the records of layers[..i + 1] from those of layer i. */
  lemma LayerStep(layers: seq<LayerProperties>, i: nat, script: string -> seq<E.Attempt<ExtensionProperties>>)
    requires SettlesForAllLayers(script) && i < |layers|
    ensures NewLayerRecords(layers[..i + 1], script) == NewLayerRecords(layers[..i], script) + [NewLayerRecord(layers[i], script)]
    ensures var o := InstanceExtensionsOutcome(script(layers[i].layerName), []);
      LayersOutcome(layers[i..], script) == if o.Failed? then o else LayersOutcome(layers[i + 1..], script)
  {
    assert layers[..i + 1][..i] == layers[..i];
    assert layers[i..][1..] == layers[i + 1..];
  }

  /** The per-layer loop at its end. */
  lemma LayersDone(layers: seq<LayerProperties>, script: string -> seq<E.Attempt<ExtensionProperties>>)
    requires SettlesForAllLayers(script)
    ensures NewLayerRecords(layers[..|layers|], script) == NewLayerRecords(layers, script)
    ensures LayersOutcome(layers[|layers|..], script) == Ok
  {
    assert layers[..|layers|] == layers;
    assert layers[|layers|..] == [];
  }

  /** The outcome of initGlobalLayerProperties. */
  function GlobalLayersOutcome(layerScript: seq<E.Attempt<LayerProperties>>, script: string -> seq<E.Attempt<ExtensionProperties>>): Outcome
    requires E.Settles(layerScript) && SettlesForAllLayers(script)
  {
    match E.Enumerate(layerScript, [])
    case CountFailed(res) => Failed(NotSuccess(res))
    case NoItems(_) => Ok
    case Fetched(_, layers) => LayersOutcome(layers, script)
  }

  /** The layers whose records initGlobalLayerProperties pushes: none after a zero count. */
  function EnumeratedLayers(layerScript: seq<E.Attempt<LayerProperties>>): seq<LayerProperties>
    requires E.Settles(layerScript)
  {
    match E.Enumerate(layerScript, [])
    case CountFailed(_) => []
    case NoItems(_) => []
    case Fetched(_, layers) => layers
  }

  /** Each layer record with the device extensions found for it. */
  function WithDeviceExtensions(records: seq<LayerRecord>, script: string -> seq<E.Attempt<ExtensionProperties>>): (r: seq<LayerRecord>)
    requires SettlesForAllLayers(script)
    ensures |r| == |records|
    decreases |records|
  {
    if records == [] then []
    else
      var last := records[|records| - 1];
      WithDeviceExtensions(records[..|records| - 1], script) +
        [last.(deviceExtensions := DeviceExtensions(script(last.properties.layerName), last.deviceExtensions))]
  }

  /**
   * Record i keeps its layer properties and instance extensions, and its device
   * extensions become those enumerated for its layer name, starting from its own.
   */
  lemma {:induction false} WithDeviceExtensionsContents(records: seq<LayerRecord>, script: string -> seq<E.Attempt<ExtensionProperties>>)
    requires SettlesForAllLayers(script)
    ensures forall i :: 0 <= i < |records| ==>
      (WithDeviceExtensions(records, script)[i] ==
        LayerRecord(records[i].properties, records[i].instanceExtensions,
          DeviceExtensions(script(records[i].properties.layerName), records[i].deviceExtensions)))
    decreases |records|
  {
    if records != [] {
      WithDeviceExtensionsContents(records[..|records| - 1], script);
    }
  }

  /** The outcome of the device-extension pass over the layer records: the first failure, if any. */
  function DeviceExtensionsPassOutcome(records: seq<LayerRecord>, script: string -> seq<E.Attempt<ExtensionProperties>>): Outcome
    requires SettlesForAllLayers(script)
    decreases |records|
  {
    if records == [] then Ok
    else
      var o := DeviceExtensionsOutcome(script(records[0].properties.layerName), records[0].deviceExtensions);
      if o.Failed? then o else DeviceExtensionsPassOutcome(records[1..], script)
  }

  /**
   * One pass of the device-extension loop: updating record i in place turns the
   * records done so far plus the rest into the next such split.
   */
  lemma DeviceStep(records: seq<LayerRecord>, i: nat, script: string -> seq<E.Attempt<ExtensionProperties>>)
    requires SettlesForAllLayers(script) && i < |records|
    ensures (WithDeviceExtensions(records[..i], script) + records[i..])[i] == records[i]
    ensures var r := records[i];
      var updated := r.(deviceExtensions := DeviceExtensions(script(r.properties.layerName), r.deviceExtensions));
      (WithDeviceExtensions(records[..i], script) + records[i..])[i := updated] ==
        WithDeviceExtensions(records[..i + 1], script) + records[i + 1..]
    ensures var r := records[i];
      var o := DeviceExtensionsOutcome(script(r.properties.layerName), r.deviceExtensions);
      DeviceExtensionsPassOutcome(records[i..], script) == if o.Failed? then o else DeviceExtensionsPassOutcome(records[i + 1..], script)
  {
    assert records[..i + 1][..i] == records[..i];
    assert records[i..][1..] == records[i + 1..];
    var r := records[i];
    var updated := r.(deviceExtensions := DeviceExtensions(script(r.properties.layerName), r.deviceExtensions));
    var before := WithDeviceExtensions(records[..i], script) + records[i..];
    var after := WithDeviceExtensions(records[..i + 1], script) + records[i + 1..];
    assert |before| == |after|;
    forall k | 0 <= k < |after| ensures before[i := updated][k] == after[k] {
      if k < i {
        assert before[k] == WithDeviceExtensions(records[..i], script)[k] == after[k];
      }
    }
  }

  /** The device-extension loop at its end. */
  lemma DevicePassDone(records: seq<LayerRecord>, script: string -> seq<E.Attempt<ExtensionProperties>>)
    requires SettlesForAllLayers(script)
    ensures WithDeviceExtensions(records[..|records|], script) + records[|records|..] == WithDeviceExtensions(records, script)
    ensures DeviceExtensionsPassOutcome(records[|records|..], script) == Ok
  {
    assert records[..|records|] == records;
    assert records[|records|..] == [];
  }

  /** The present-support vector initSwapchainExtension fills, one query per family. */
  function PresentSupport(count: nat, surfaceSupport: uint32 -> bool): (r: seq<bool>)
    requires count < UINT32_MAX
    ensures |r| == count
    ensures forall i :: 0 <= i < count ==> r[i] == surfaceSupport(i)
  {
    if count == 0 then [] else PresentSupport(count - 1, surfaceSupport) + [surfaceSupport(count - 1)]
  }

  // ---------------------------------------------------------------------------
  // Create-infos of the boilerplate stages

  /** The fields of VkApplicationInfo and VkInstanceCreateInfo that initInstance sets. */
  datatype InstanceCreateInfo = InstanceCreateInfo(
    applicationName: string,
    applicationVersion: nat,
    engineName: string,
    engineVersion: nat,
    apiVersion: nat,
    enabledLayerNames: seq<string>,
    enabledExtensionNames: seq<string>)

  /** VkDeviceQueueCreateInfo and VkDeviceCreateInfo as initDevice fills them (one queue, no features). */
  datatype DeviceCreateInfo = DeviceCreateInfo(
    queueFamilyIndex: uint32,
    queueCount: uint32,
    enabledExtensionNames: seq<string>)

  /** VkCommandPoolCreateInfo. */
  datatype CommandPoolCreateInfo = CommandPoolCreateInfo(queueFamilyIndex: uint32, flags: Flags)

  /** VkCommandBufferAllocateInfo. */
  datatype CommandBufferAllocateInfo = CommandBufferAllocateInfo(commandPool: Handle, level: Enum, commandBufferCount: uint32)

  /** vkBeginCommandBuffer's buffer and VkCommandBufferBeginInfo; `inheritance` is whether pInheritanceInfo is set. */
  datatype CommandBufferBeginInfo = CommandBufferBeginInfo(commandBuffer: Handle, flags: Flags, inheritance: bool)

  /** VkMemoryAllocateInfo. */
  datatype MemoryAllocateInfo = MemoryAllocateInfo(allocationSize: nat, memoryTypeIndex: uint32)

  /** VkBufferCreateInfo (flags 0). */
  datatype BufferCreateInfo = BufferCreateInfo(usage: Flags, size: nat, sharingMode: Enum, queueFamilyIndices: seq<uint32>)

  /** VkDescriptorSetLayoutBinding (no immutable samplers). */
  datatype DescriptorSetLayoutBinding = DescriptorSetLayoutBinding(
    binding: uint32, descriptorType: Enum, descriptorCount: uint32, stageFlags: Flags)

  /** VkPipelineLayoutCreateInfo: set layouts and the number of push-constant ranges. */
  datatype PipelineLayoutCreateInfo = PipelineLayoutCreateInfo(setLayouts: seq<Handle>, pushConstantRangeCount: nat)

  // ---------------------------------------------------------------------------
  // Driver answers of the later stages

  /** What the driver answers during initSwapChain, in call order. */
  datatype SwapchainQueries = SwapchainQueries(
    capsResult: Enum, caps: SurfaceCapabilities,
    presentModeCountResult: Enum, presentModeCount: uint32, presentModesResult: Enum,
    createResult: Enum, swapchain: Handle,
    imageCountResult: Enum, imageCount: uint32, imagesResult: Enum, images: seq<Handle>,
    createView: ImageViewCreateInfo -> (Enum, Handle))

  /** What the driver answers during initDepthBuffer, in call order. */
  datatype DepthQueries = DepthQueries(
    formatProperties: Enum -> FormatProperties,
    createResult: Enum, image: Handle, memReqs: MemoryRequirements,
    allocateResult: Enum, mem: Handle, bindResult: Enum, viewResult: Enum, view: Handle)

  /** What the driver answers during initUniformBuffer, in call order. */
  datatype UniformQueries = UniformQueries(
    createResult: Enum, buf: Handle, memReqs: MemoryRequirements,
    allocateResult: Enum, mem: Handle, mapResult: Enum, bindResult: Enum)

  /** The view initSwapChain creates for one swapchain image. */
  function ColorView(image: Handle, format: Enum): ImageViewCreateInfo
  {
    View2D(image, format, VK_IMAGE_ASPECT_COLOR_BIT)
  }

  /** The buffers initSwapChain pushes for `images`, one image and view each. */
  function SwapChainBuffersFor(images: seq<Handle>, format: Enum, createView: ImageViewCreateInfo -> (Enum, Handle)): (r: seq<SwapChainBuffer>)
  {
    if |images| == 0 then []
    else
      var last := images[|images| - 1];
      SwapChainBuffersFor(images[..|images| - 1], format, createView) + [SwapChainBuffer(last, createView(ColorView(last, format)).1)]
  }

  /** The first view creation that fails, if any, stops the loop. */
  function ViewsOutcome(images: seq<Handle>, format: Enum, createView: ImageViewCreateInfo -> (Enum, Handle)): Outcome
  {
    if |images| == 0 then Ok
    else
      var res := createView(ColorView(images[0], format)).0;
      if res != VK_SUCCESS then Failed(NotSuccess(res)) else ViewsOutcome(images[1..], format, createView)
  }

  /** One buffer per image, in image order, each holding its image and the view made for it. */
  lemma {:induction false} SwapChainBuffersShape(images: seq<Handle>, format: Enum, createView: ImageViewCreateInfo -> (Enum, Handle))
    ensures |SwapChainBuffersFor(images, format, createView)| == |images|
    ensures forall i :: 0 <= i < |images| ==>
      SwapChainBuffersFor(images, format, createView)[i] == SwapChainBuffer(images[i], createView(ColorView(images[i], format)).1)
  {
    if |images| > 0 {
      SwapChainBuffersShape(images[..|images| - 1], format, createView);
    }
  }

  /** The views succeed exactly when every image's view creation answers VK_SUCCESS. */
  lemma {:induction false} ViewsOutcomeOk(images: seq<Handle>, format: Enum, createView: ImageViewCreateInfo -> (Enum, Handle))
    ensures ViewsOutcome(images, format, createView).Ok? <==>
      forall i :: 0 <= i < |images| ==> createView(ColorView(images[i], format)).0 == VK_SUCCESS
    ensures ViewsOutcome(images, format, createView).Failed? ==>
      ViewsOutcome(images, format, createView).failure.NotSuccess?
  {
    if |images| > 0 {
      ViewsOutcomeOk(images[1..], format, createView);
      assert forall i :: 1 <= i < |images| ==> images[i] == images[1..][i - 1];
    }
  }

  /** One loop step of initSwapChain: the next image's view, pushed or fatal. */
  lemma SwapChainStep(images: seq<Handle>, i: nat, format: Enum, createView: ImageViewCreateInfo -> (Enum, Handle))
    requires i < |images|
    ensures SwapChainBuffersFor(images[..i + 1], format, createView) ==
      SwapChainBuffersFor(images[..i], format, createView) + [SwapChainBuffer(images[i], createView(ColorView(images[i], format)).1)]
    ensures var res := createView(ColorView(images[i], format)).0;
      ViewsOutcome(images[i..], format, createView) ==
        if res != VK_SUCCESS then Failed(NotSuccess(res)) else ViewsOutcome(images[i + 1..], format, createView)
  {
    assert images[..i + 1][..i] == images[..i];
    assert images[i..][1..] == images[i + 1..];
  }

  /** The outcome of initSwapChain: the first fatal answer, in call order. */
  function SwapChainOutcome(q: SwapchainQueries, format: Enum): Outcome
  {
    if q.capsResult != VK_SUCCESS then Failed(NotSuccess(q.capsResult))
    else if q.presentModeCountResult != VK_SUCCESS then Failed(NotSuccess(q.presentModeCountResult))
    else if q.presentModeCount == 0 then Failed(Panic("presentModeCount == 0"))
    else if q.presentModesResult != VK_SUCCESS then Failed(NotSuccess(q.presentModesResult))
    else if q.createResult != VK_SUCCESS then Failed(NotSuccess(q.createResult))
    else if q.imageCountResult != VK_SUCCESS then Failed(NotSuccess(q.imageCountResult))
    else if q.imageCount == 0 then Failed(Panic("swapChainImageCount == 0"))
    else if q.imagesResult != VK_SUCCESS then Failed(NotSuccess(q.imagesResult))
    else ViewsOutcome(q.images, format, q.createView)
  }

  /** The outcome of initSwapchainExtension for the selected families: the first stop, in call order. */
  function SwapchainExtensionOutcome(f: Q.QueueFamilies, formatCountResult: Enum, formatsResult: Enum, surfFormats: seq<SurfaceFormat>): Outcome
  {
    if !Q.Resolved(f) then Failed(Panic(NO_QUEUE_FAMILIES_MESSAGE))
    else if formatCountResult != VK_SUCCESS then Failed(NotSuccess(formatCountResult))
    else if formatsResult != VK_SUCCESS then Failed(NotSuccess(formatsResult))
    else if |surfFormats| == 0 then Failed(AssertionFailed)
    else Ok
  }

  /** The outcome of initDepthBuffer: the first stop, in call order, for the (defaulted) depth format. */
  function DepthBufferOutcome(q: DepthQueries, depthFormat: Enum, memoryTypes: MemoryTypeTable): Outcome
  {
    if D.DepthTiling(q.formatProperties(depthFormat)).None? then Failed(Exit(-1))
    else if q.createResult != VK_SUCCESS then Failed(AssertionFailed)
    else if M.FirstEligible(memoryTypes, q.memReqs.memoryTypeBits, VK_MEMORY_PROPERTY_DEVICE_LOCAL_BIT).None? then Failed(AssertionFailed)
    else if q.allocateResult != VK_SUCCESS then Failed(AssertionFailed)
    else if q.bindResult != VK_SUCCESS then Failed(AssertionFailed)
    else if q.viewResult != VK_SUCCESS then Failed(AssertionFailed)
    else Ok
  }

  /** Host-visible and host-coherent: the uniform buffer is written through a mapping. */
  const UNIFORM_MEMORY_MASK: Flags := VK_MEMORY_PROPERTY_HOST_VISIBLE_BIT | VK_MEMORY_PROPERTY_HOST_COHERENT_BIT

  /** The outcome of initUniformBuffer: the first failed assert, in call order. */
  function UniformBufferOutcome(q: UniformQueries, memoryTypes: MemoryTypeTable): Outcome
  {
    if q.createResult != VK_SUCCESS then Failed(AssertionFailed)
    else if M.FirstEligible(memoryTypes, q.memReqs.memoryTypeBits, UNIFORM_MEMORY_MASK).None? then Failed(AssertionFailed)
    else if q.allocateResult != VK_SUCCESS then Failed(AssertionFailed)
    else if q.mapResult != VK_SUCCESS then Failed(AssertionFailed)
    else if q.bindResult != VK_SUCCESS then Failed(AssertionFailed)
    else Ok
  }

  /**
   * Past the tiling check, initDepthBuffer is a run of five asserts: create,
   * a device-local memory type, allocate, bind, view.
   */
  lemma DepthBufferAsserts(q: DepthQueries, depthFormat: Enum, memoryTypes: MemoryTypeTable)
    ensures D.DepthTiling(q.formatProperties(depthFormat)).None? ==> DepthBufferOutcome(q, depthFormat, memoryTypes) == Failed(Exit(-1))
    ensures D.DepthTiling(q.formatProperties(depthFormat)).Some? ==>
      DepthBufferOutcome(q, depthFormat, memoryTypes) ==
        AssertAll([q.createResult == VK_SUCCESS,
                   M.FirstEligible(memoryTypes, q.memReqs.memoryTypeBits, VK_MEMORY_PROPERTY_DEVICE_LOCAL_BIT).Some?,
                   q.allocateResult == VK_SUCCESS, q.bindResult == VK_SUCCESS, q.viewResult == VK_SUCCESS])
  {
    var c := [q.createResult == VK_SUCCESS,
              M.FirstEligible(memoryTypes, q.memReqs.memoryTypeBits, VK_MEMORY_PROPERTY_DEVICE_LOCAL_BIT).Some?,
              q.allocateResult == VK_SUCCESS, q.bindResult == VK_SUCCESS, q.viewResult == VK_SUCCESS];
    AssertAll5(c[0], c[1], c[2], c[3], c[4]);
  }

  /** initUniformBuffer is a run of five asserts: create, a host-visible and coherent memory type, allocate, map, bind. */
  lemma UniformBufferAsserts(q: UniformQueries, memoryTypes: MemoryTypeTable)
    ensures UniformBufferOutcome(q, memoryTypes) ==
      AssertAll([q.createResult == VK_SUCCESS,
                 M.FirstEligible(memoryTypes, q.memReqs.memoryTypeBits, UNIFORM_MEMORY_MASK).Some?,
                 q.allocateResult == VK_SUCCESS, q.mapResult == VK_SUCCESS, q.bindResult == VK_SUCCESS])
  {
    var c := [q.createResult == VK_SUCCESS,
              M.FirstEligible(memoryTypes, q.memReqs.memoryTypeBits, UNIFORM_MEMORY_MASK).Some?,
              q.allocateResult == VK_SUCCESS, q.mapResult == VK_SUCCESS, q.bindResult == VK_SUCCESS];
    AssertAll5(c[0], c[1], c[2], c[3], c[4]);
  }

  // ---------------------------------------------------------------------------
  // The two entry points

  /** What the driver answers during Init, stage by stage. */
  datatype InitAnswers = InitAnswers(
    layerScript: seq<E.Attempt<LayerProperties>>,
    instanceExtensionScript: string -> seq<E.Attempt<ExtensionProperties>>,
    instanceCreateResult: Enum, instance: Handle,
    physicalDevices: seq<Handle>, families: QueueFamilyTable, memory: MemoryTypeTable,
    deviceExtensionScript: string -> seq<E.Attempt<ExtensionProperties>>)

  /** Every enumeration loop of Init settles. */
  ghost predicate InitSettles(a: InitAnswers)
  {
    E.Settles(a.layerScript) && SettlesForAllLayers(a.instanceExtensionScript) && SettlesForAllLayers(a.deviceExtensionScript)
  }

  /** The layer records Init leaves behind when it completes. */
  function InitLayerRecords(a: InitAnswers, layers0: seq<LayerRecord>): seq<LayerRecord>
    requires InitSettles(a)
  {
    WithDeviceExtensions(layers0 + NewLayerRecords(EnumeratedLayers(a.layerScript), a.instanceExtensionScript), a.deviceExtensionScript)
  }

  /** The outcome of Init, starting from the layer records `layers0`: the first stage that stops wins. */
  function InitOutcome(a: InitAnswers, layers0: seq<LayerRecord>): Outcome
    requires InitSettles(a)
  {
    Then(GlobalLayersOutcome(a.layerScript, a.instanceExtensionScript),
    Then(PanicIfNotSuccess(a.instanceCreateResult),
    if |a.physicalDevices| == 0 || |a.families| == 0 then Failed(AssertionFailed)
    else DeviceExtensionsPassOutcome(layers0 + NewLayerRecords(EnumeratedLayers(a.layerScript), a.instanceExtensionScript), a.deviceExtensionScript)))
  }

  /** What the driver answers during Init2, stage by stage. */
  datatype Init2Answers = Init2Answers(
    surfaceSupport: uint32 -> bool, formatCountResult: Enum, formatsResult: Enum, surfFormats: seq<SurfaceFormat>,
    deviceCreateResult: Enum, device: Handle,
    commandPoolResult: Enum, commandPool: Handle,
    commandBufferResult: Enum, commandBuffer: Handle,
    swapchain: SwapchainQueries, depth: DepthQueries, uniform: UniformQueries,
    descriptorSetLayoutResult: Enum, descriptorSetLayout: Handle, pipelineLayoutResult: Enum, pipelineLayout: Handle,
    renderPassResult: Enum, renderPass: Handle)

  /** The queue families Init2 selects for these answers. */
  function Init2Families(a: Init2Answers, queueProps: QueueFamilyTable): Q.QueueFamilies
  {
    Q.SelectedFamilies(queueProps, PresentSupport(|queueProps|, a.surfaceSupport))
  }

  /**
   * The outcome of Init2 on the families and memory types Init recorded and
   * the depth format before it: the first stage that stops wins.
   */
  function Init2Outcome(a: Init2Answers, queueProps: QueueFamilyTable, memoryTypes: MemoryTypeTable, depthFormat0: Enum): Outcome
  {
    var first := SwapchainExtensionOutcome(Init2Families(a, queueProps), a.formatCountResult, a.formatsResult, a.surfFormats);
    if first.Failed? then first
    else
      Then(CommandObjectsOutcome(a),
      Then(FrameResourcesOutcome(a, S.PreferredFormat(a.surfFormats), depthFormat0, memoryTypes),
      PipelineObjectsOutcome(a)))
  }

  /** The device, command pool and command buffer stages of Init2. */
  function CommandObjectsOutcome(a: Init2Answers): Outcome
  {
    Then(PanicIfNotSuccess(a.deviceCreateResult),
    Then(PanicIfNotSuccess(a.commandPoolResult),
    PanicIfNotSuccess(a.commandBufferResult)))
  }

  /** Device, pool and buffer creation stop at the first result that is not VK_SUCCESS. */
  lemma CommandObjectsPanicChain(a: Init2Answers)
    ensures CommandObjectsOutcome(a) == PanicChain([a.deviceCreateResult, a.commandPoolResult, a.commandBufferResult])
  {
    var r := [a.deviceCreateResult, a.commandPoolResult, a.commandBufferResult];
    assert r[1..] == [a.commandPoolResult, a.commandBufferResult];
    assert r[1..][1..] == [a.commandBufferResult];
    assert r[1..][1..][1..] == [];
    assert PanicChain(r[1..][1..]) == Then(PanicIfNotSuccess(a.commandBufferResult), Ok);
    assert PanicChain(r[1..]) == Then(PanicIfNotSuccess(a.commandPoolResult), PanicChain(r[1..][1..]));
  }

  /** The layout and render pass stages are a run of three asserts on their create results. */
  lemma PipelineObjectsAsserts(a: Init2Answers)
    ensures PipelineObjectsOutcome(a) ==
      AssertAll([a.descriptorSetLayoutResult == VK_SUCCESS, a.pipelineLayoutResult == VK_SUCCESS, a.renderPassResult == VK_SUCCESS])
  {
    AssertAll3(a.descriptorSetLayoutResult == VK_SUCCESS, a.pipelineLayoutResult == VK_SUCCESS, a.renderPassResult == VK_SUCCESS);
  }

  /** Three stages in sequence are the run of the three. */
  lemma Sequence3(x: Outcome, y: Outcome, z: Outcome)
    ensures Sequence([x, y, z]) == Then(x, Then(y, z))
  {
    var r := [x, y, z];
    assert r[1..] == [y, z] && r[1..][1..] == [z] && r[1..][1..][1..] == [];
    assert Sequence(r[1..][1..]) == Then(z, Ok);
    assert Sequence(r[1..]) == Then(y, Sequence(r[1..][1..]));
  }

  /**
   * Init2 is one run of its ten checks in call order, grouped by stage: its
   * outcome is the first stop among them (by SequenceFirstStop). An empty
   * format list stops the first check, so the format the later checks see
   * then does not matter.
   */
  lemma Init2FirstStop(a: Init2Answers, queueProps: QueueFamilyTable, memoryTypes: MemoryTypeTable, depthFormat0: Enum)
    ensures var format := if |a.surfFormats| == 0 then VK_FORMAT_UNDEFINED else S.PreferredFormat(a.surfFormats);
      Init2Outcome(a, queueProps, memoryTypes, depthFormat0) ==
      Sequence([SwapchainExtensionOutcome(Init2Families(a, queueProps), a.formatCountResult, a.formatsResult, a.surfFormats)] +
               [PanicIfNotSuccess(a.deviceCreateResult), PanicIfNotSuccess(a.commandPoolResult), PanicIfNotSuccess(a.commandBufferResult)] +
               [SwapChainOutcome(a.swapchain, format),
                DepthBufferOutcome(a.depth, D.DepthFormat(depthFormat0), memoryTypes),
                UniformBufferOutcome(a.uniform, memoryTypes)] +
               [AssertSuccess(a.descriptorSetLayoutResult), AssertSuccess(a.pipelineLayoutResult), AssertSuccess(a.renderPassResult)])
  {
    var format := if |a.surfFormats| == 0 then VK_FORMAT_UNDEFINED else S.PreferredFormat(a.surfFormats);
    var ext := [SwapchainExtensionOutcome(Init2Families(a, queueProps), a.formatCountResult, a.formatsResult, a.surfFormats)];
    var co := [PanicIfNotSuccess(a.deviceCreateResult), PanicIfNotSuccess(a.commandPoolResult), PanicIfNotSuccess(a.commandBufferResult)];
    var fr := [SwapChainOutcome(a.swapchain, format),
               DepthBufferOutcome(a.depth, D.DepthFormat(depthFormat0), memoryTypes),
               UniformBufferOutcome(a.uniform, memoryTypes)];
    var po := [AssertSuccess(a.descriptorSetLayoutResult), AssertSuccess(a.pipelineLayoutResult), AssertSuccess(a.renderPassResult)];
    SequenceAppend(ext + co + fr, po);
    SequenceAppend(ext + co, fr);
    SequenceAppend(ext, co);
    assert ext[1..] == [];
    assert Sequence(ext) == Then(ext[0], Ok);
    Sequence3(co[0], co[1], co[2]);
    Sequence3(fr[0], fr[1], fr[2]);
    Sequence3(po[0], po[1], po[2]);
    ThenMonoid(Sequence(ext), Sequence(co), Sequence(fr));
    ThenMonoid(Sequence(ext), Then(Sequence(co), Sequence(fr)), Sequence(po));
    ThenMonoid(Sequence(co), Sequence(fr), Sequence(po));
  }

  /** The swapchain, depth buffer and uniform buffer stages of Init2. */
  function FrameResourcesOutcome(a: Init2Answers, format: Enum, depthFormat0: Enum, memoryTypes: MemoryTypeTable): Outcome
  {
    Then(SwapChainOutcome(a.swapchain, format),
    Then(DepthBufferOutcome(a.depth, D.DepthFormat(depthFormat0), memoryTypes),
    UniformBufferOutcome(a.uniform, memoryTypes)))
  }

  /** The layout and render pass stages of Init2. */
  function PipelineObjectsOutcome(a: Init2Answers): Outcome
  {
    Then(AssertSuccess(a.descriptorSetLayoutResult),
    Then(AssertSuccess(a.pipelineLayoutResult),
    AssertSuccess(a.renderPassResult)))
  }

  /** sizeof(glm::mat4): sixteen 4-byte floats, the size of the uniform buffer. */
  const MVP_SIZE: nat := 64

  /** The window size initWindowSize sets. */
  const DEFAULT_WINDOW_SIZE: int32 := 500

  /** The message initSwapchainExtension panics with when a queue family is missing. */
  const NO_QUEUE_FAMILIES_MESSAGE: string := "Could not find a queues for both graphics and present"

  // ---------------------------------------------------------------------------
  // The object

  class VulkanRHI {
    var surface: Handle
    var appShortName: string
    var inst: Handle
    var instanceLayerNames: seq<string>
    var instanceLayerProperties: seq<LayerRecord>
    var instanceExtensionNames: seq<string>
    var deviceExtensionNames: seq<string>
    var queueProps: QueueFamilyTable
    var gpus: seq<Handle>
    var memoryTypes: MemoryTypeTable
    var graphicsQueueFamilyIndex: uint32
    var presentQueueFamilyIndex: uint32
    var graphicsQueue: Handle
    var presentQueue: Handle
    var device: Handle
    var cmdPool: Handle
    var cmdBuffer: Handle
    var format: Enum
    var width: int32
    var height: int32
    var swapChain: Handle
    var swapChainImageCount: uint32
    var swapChainBuffers: seq<SwapChainBuffer>
    var currentSwapChainBuffer: uint32
    var depthBuf: ImageResource
    var uniformData: BufferResource
    var descLayout: seq<Handle>
    var pipelineLayout: Handle
    var renderPass: Handle

    /**
     * A fresh object: empty vectors, null handles, and an undefined depth format.
     * The surface is left null for the caller to set between Init and Init2; the
     * application name is never set, and the model reads it as "".
     */
    constructor ()
      ensures surface == VK_NULL_HANDLE && appShortName == ""
      ensures instanceLayerNames == [] && instanceLayerProperties == []
      ensures instanceExtensionNames == [] && deviceExtensionNames == []
      ensures queueProps == [] && gpus == [] && memoryTypes == []
      ensures swapChainBuffers == [] && descLayout == []
      ensures inst == VK_NULL_HANDLE && device == VK_NULL_HANDLE
      ensures cmdPool == VK_NULL_HANDLE && cmdBuffer == VK_NULL_HANDLE
      ensures graphicsQueue == VK_NULL_HANDLE && presentQueue == VK_NULL_HANDLE
      ensures swapChain == VK_NULL_HANDLE && pipelineLayout == VK_NULL_HANDLE && renderPass == VK_NULL_HANDLE
      ensures graphicsQueueFamilyIndex == 0 && presentQueueFamilyIndex == 0
      ensures format == VK_FORMAT_UNDEFINED && width == 0 && height == 0
      ensures swapChainImageCount == 0 && currentSwapChainBuffer == 0
      ensures depthBuf == ImageResource(VK_FORMAT_UNDEFINED, VK_NULL_HANDLE, VK_NULL_HANDLE, VK_NULL_HANDLE)
      ensures uniformData == BufferResource(VK_NULL_HANDLE, VK_NULL_HANDLE, DescriptorBufferInfo(VK_NULL_HANDLE, 0, 0))
    {
      surface := VK_NULL_HANDLE;
      appShortName := "";
      inst := VK_NULL_HANDLE;
      instanceLayerNames := [];
      instanceLayerProperties := [];
      instanceExtensionNames := [];
      deviceExtensionNames := [];
      queueProps := [];
      gpus := [];
      memoryTypes := [];
      graphicsQueueFamilyIndex := 0;
      presentQueueFamilyIndex := 0;
      graphicsQueue := VK_NULL_HANDLE;
      presentQueue := VK_NULL_HANDLE;
      device := VK_NULL_HANDLE;
      cmdPool := VK_NULL_HANDLE;
      cmdBuffer := VK_NULL_HANDLE;
      format := VK_FORMAT_UNDEFINED;
      width := 0;
      height := 0;
      swapChain := VK_NULL_HANDLE;
      swapChainImageCount := 0;
      swapChainBuffers := [];
      currentSwapChainBuffer := 0;
      depthBuf := ImageResource(VK_FORMAT_UNDEFINED, VK_NULL_HANDLE, VK_NULL_HANDLE, VK_NULL_HANDLE);
      uniformData := BufferResource(VK_NULL_HANDLE, VK_NULL_HANDLE, DescriptorBufferInfo(VK_NULL_HANDLE, 0, 0));
      descLayout := [];
      pipelineLayout := VK_NULL_HANDLE;
      renderPass := VK_NULL_HANDLE;
    }

    /**
     * initGlobalExtensionProperties: enumerates the instance extensions of one
     * layer into its record, then requires the last fetch to have succeeded.
     */
    static method InitGlobalExtensionProperties(layer: LayerRecord, script: seq<E.Attempt<ExtensionProperties>>)
      returns (outcome: Outcome, updated: LayerRecord)
      requires E.Settles(script)
      ensures outcome == InstanceExtensionsOutcome(script, layer.instanceExtensions)
      ensures updated == layer.(instanceExtensions := InstanceExtensions(script, layer.instanceExtensions))
    {
      updated := layer;
      var r := E.TwoCallEnumerate(script, layer.instanceExtensions);
      match r {
        case CountFailed(res) =>
          return Failed(NotSuccess(res)), updated;
        case NoItems(kept) =>
          updated := updated.(instanceExtensions := kept);
          return Ok, updated;
        case Fetched(res, items) =>
          updated := updated.(instanceExtensions := items);
          outcome := PanicIfNotSuccess(res);
      }
    }

    /**
     * initGlobalLayerProperties: enumerates the instance layers (a zero count
     * returns with nothing recorded; the last fetch result is not checked), then
     * pushes one record per layer with its instance extensions.
     */
    method InitGlobalLayerProperties(layerScript: seq<E.Attempt<LayerProperties>>, extensionScript: string -> seq<E.Attempt<ExtensionProperties>>)
      returns (outcome: Outcome)
      requires E.Settles(layerScript) && SettlesForAllLayers(extensionScript)
      modifies this`instanceLayerProperties
      ensures outcome == GlobalLayersOutcome(layerScript, extensionScript)
      ensures outcome.Ok? ==>
        instanceLayerProperties == old(instanceLayerProperties) + NewLayerRecords(EnumeratedLayers(layerScript), extensionScript)
    {
      var r := E.TwoCallEnumerate(layerScript, []);
      if r.CountFailed? {
        return Failed(NotSuccess(r.result));
      }
      if r.NoItems? {
        assert NewLayerRecords([], extensionScript) == [];
        return Ok;
      }
      outcome := PushLayerRecords(r.items, extensionScript);
    }

    /** The per-layer loop of initGlobalLayerProperties: one record per layer, with its instance extensions. */
    method PushLayerRecords(layers: seq<LayerProperties>, extensionScript: string -> seq<E.Attempt<ExtensionProperties>>)
      returns (outcome: Outcome)
      requires SettlesForAllLayers(extensionScript)
      modifies this`instanceLayerProperties
      ensures outcome == LayersOutcome(layers, extensionScript)
      ensures outcome.Ok? ==> instanceLayerProperties == old(instanceLayerProperties) + NewLayerRecords(layers, extensionScript)
    {
      var i := 0;
      while i < |layers|
        invariant 0 <= i <= |layers|
        invariant LayersOutcome(layers[i..], extensionScript) == LayersOutcome(layers, extensionScript)
        invariant instanceLayerProperties == old(instanceLayerProperties) + NewLayerRecords(layers[..i], extensionScript)
      {
        var layerOutcome, record := InitGlobalExtensionProperties(LayerRecord(layers[i], [], []), extensionScript(layers[i].layerName));
        LayerStep(layers, i, extensionScript);
        if layerOutcome.Failed? {
          return layerOutcome;
        }
        assert record == NewLayerRecord(layers[i], extensionScript);
        instanceLayerProperties := instanceLayerProperties + [record];
        i := i + 1;
      }
      LayersDone(layers, extensionScript);
      outcome := Ok;
    }

    /** initInstanceExtensionNames (non-Metal build): requests the surface extension. */
    method InitInstanceExtensionNames()
      modifies this`instanceExtensionNames
      ensures instanceExtensionNames == old(instanceExtensionNames) + [VK_KHR_SURFACE_EXTENSION_NAME]
    {
      instanceExtensionNames := instanceExtensionNames + [VK_KHR_SURFACE_EXTENSION_NAME];
    }

    /** initDeviceExtensionNames: requests the swapchain extension. */
    method InitDeviceExtensionNames()
      modifies this`deviceExtensionNames
      ensures deviceExtensionNames == old(deviceExtensionNames) + [VK_KHR_SWAPCHAIN_EXTENSION_NAME]
    {
      deviceExtensionNames := deviceExtensionNames + [VK_KHR_SWAPCHAIN_EXTENSION_NAME];
    }

    /** initInstance: the instance create-info, and the driver's answer to vkCreateInstance. */
    method InitInstance(createResult: Enum, instance: Handle) returns (info: InstanceCreateInfo, outcome: Outcome)
      modifies this`inst
      ensures info == InstanceCreateInfo(appShortName, 1, appShortName, 1, VK_API_VERSION_1_0,
        instanceLayerNames, instanceExtensionNames)
      ensures inst == instance
      ensures outcome == PanicIfNotSuccess(createResult)
    {
      info := InstanceCreateInfo(appShortName, 1, appShortName, 1, VK_API_VERSION_1_0,
        instanceLayerNames, instanceExtensionNames);
      inst := instance;
      outcome := PanicIfNotSuccess(createResult);
    }

    /**
     * initDeviceExtensionProperties: enumerates the device extensions of one layer
     * into its record; the last fetch result is not checked.
     */
    static method InitDeviceExtensionProperties(layer: LayerRecord, script: seq<E.Attempt<ExtensionProperties>>)
      returns (outcome: Outcome, updated: LayerRecord)
      requires E.Settles(script)
      ensures outcome == DeviceExtensionsOutcome(script, layer.deviceExtensions)
      ensures updated == layer.(deviceExtensions := DeviceExtensions(script, layer.deviceExtensions))
    {
      updated := layer;
      var r := E.TwoCallEnumerate(script, layer.deviceExtensions);
      match r {
        case CountFailed(res) =>
          return Failed(NotSuccess(res)), updated;
        case NoItems(kept) =>
          updated := updated.(deviceExtensions := kept);
          return Ok, updated;
        case Fetched(_, items) =>
          updated := updated.(deviceExtensions := items);
          outcome := Ok;
      }
    }

    /**
     * initEnumerateDevice: records the GPUs, the first GPU's queue families and
     * memory types (a zero GPU or queue-family count fails the asserts), then
     * enumerates each recorded layer's device extensions in place.
     */
    method InitEnumerateDevice(
      physicalDevices: seq<Handle>, families: QueueFamilyTable, memory: MemoryTypeTable,
      extensionScript: string -> seq<E.Attempt<ExtensionProperties>>)
      returns (outcome: Outcome)
      requires SettlesForAllLayers(extensionScript)
      modifies this`gpus, this`queueProps, this`memoryTypes, this`instanceLayerProperties
      ensures |physicalDevices| == 0 || |families| == 0 ==> outcome == Failed(AssertionFailed)
      ensures |physicalDevices| > 0 && |families| > 0 ==>
        gpus == physicalDevices && queueProps == families && memoryTypes == memory &&
        outcome == DeviceExtensionsPassOutcome(old(instanceLayerProperties), extensionScript)
      ensures outcome.Ok? ==>
        instanceLayerProperties == WithDeviceExtensions(old(instanceLayerProperties), extensionScript)
    {
      gpus := physicalDevices;
      if |gpus| == 0 {
        return Failed(AssertionFailed);
      }
      queueProps := families;
      if |queueProps| == 0 {
        return Failed(AssertionFailed);
      }
      memoryTypes := memory;
      var records := instanceLayerProperties;
      var i := 0;
      while i < |records|
        invariant 0 <= i <= |records|
        invariant |instanceLayerProperties| == |records|
        modifies this`instanceLayerProperties
        invariant gpus == physicalDevices && queueProps == families && memoryTypes == memory
        invariant instanceLayerProperties == WithDeviceExtensions(records[..i], extensionScript) + records[i..]
        invariant DeviceExtensionsPassOutcome(records[i..], extensionScript) == DeviceExtensionsPassOutcome(records, extensionScript)
      {
        var layer := instanceLayerProperties[i];
        DeviceStep(records, i, extensionScript);
        var layerOutcome, updated := InitDeviceExtensionProperties(layer, extensionScript(layer.properties.layerName));
        if layerOutcome.Failed? {
          return layerOutcome;
        }
        instanceLayerProperties := instanceLayerProperties[i := updated];
        i := i + 1;
      }
      DevicePassDone(records, extensionScript);
      outcome := Ok;
    }

    /** initWindowSize: a 500x500 window. */
    method InitWindowSize()
      modifies this`width, this`height
      ensures width == DEFAULT_WINDOW_SIZE && height == DEFAULT_WINDOW_SIZE
    {
      width := 500;
      height := 500;
    }

    /**
     * initSwapchainExtension: asks each family whether it can present, picks the
     * graphics and present families (PANIC when either is missing), then picks
     * the surface format from the surface's format list.
     */
    method InitSwapchainExtension(
      surfaceSupport: uint32 -> bool, formatCountResult: Enum, formatsResult: Enum, surfFormats: seq<SurfaceFormat>)
      returns (outcome: Outcome)
      modifies this`graphicsQueueFamilyIndex, this`presentQueueFamilyIndex, this`format
      ensures var f := Q.SelectedFamilies(queueProps, PresentSupport(|queueProps|, surfaceSupport));
        graphicsQueueFamilyIndex == f.graphics && presentQueueFamilyIndex == f.present &&
        outcome == SwapchainExtensionOutcome(f, formatCountResult, formatsResult, surfFormats)
      ensures outcome.Ok? ==> format == S.PreferredFormat(surfFormats)
    {
      var supportsPresent: seq<bool> := [];
      var i: nat := 0;
      while i < |queueProps|
        invariant 0 <= i <= |queueProps|
        invariant supportsPresent == PresentSupport(i, surfaceSupport)
        modifies {}
      {
        supportsPresent := supportsPresent + [surfaceSupport(i)];
        i := i + 1;
      }
      graphicsQueueFamilyIndex, presentQueueFamilyIndex := Q.FindQueueFamilies(queueProps, supportsPresent);
      ghost var f := Q.SelectedFamilies(queueProps, supportsPresent);
      assert f == Q.QueueFamilies(graphicsQueueFamilyIndex, presentQueueFamilyIndex);
      if graphicsQueueFamilyIndex == UINT32_MAX || presentQueueFamilyIndex == UINT32_MAX {
        return Failed(Panic(NO_QUEUE_FAMILIES_MESSAGE));
      }
      if formatCountResult != VK_SUCCESS {
        return Failed(NotSuccess(formatCountResult));
      }
      if formatsResult != VK_SUCCESS {
        return Failed(NotSuccess(formatsResult));
      }
      if |surfFormats| == 0 {
        return Failed(AssertionFailed);
      }
      format := S.ChooseSurfaceFormat(surfFormats);
      outcome := Ok;
    }

    /** initDevice: one queue from the graphics family, with the requested device extensions. */
    method InitDevice(createResult: Enum, newDevice: Handle) returns (info: DeviceCreateInfo, outcome: Outcome)
      modifies this`device
      ensures info == DeviceCreateInfo(graphicsQueueFamilyIndex, 1, deviceExtensionNames)
      ensures device == newDevice
      ensures outcome == PanicIfNotSuccess(createResult)
    {
      info := DeviceCreateInfo(graphicsQueueFamilyIndex, 1, deviceExtensionNames);
      device := newDevice;
      outcome := PanicIfNotSuccess(createResult);
    }

    /** initCommandPool: a resettable pool on the graphics family. */
    method InitCommandPool(createResult: Enum, pool: Handle) returns (info: CommandPoolCreateInfo, outcome: Outcome)
      modifies this`cmdPool
      ensures info == CommandPoolCreateInfo(graphicsQueueFamilyIndex, VK_COMMAND_POOL_CREATE_RESET_COMMAND_BUFFER_BIT)
      ensures cmdPool == pool
      ensures outcome == PanicIfNotSuccess(createResult)
    {
      info := CommandPoolCreateInfo(graphicsQueueFamilyIndex, VK_COMMAND_POOL_CREATE_RESET_COMMAND_BUFFER_BIT);
      cmdPool := pool;
      outcome := PanicIfNotSuccess(createResult);
    }

    /** initCommandBuffer: one primary command buffer from the pool. */
    method InitCommandBuffer(allocateResult: Enum, buffer: Handle) returns (info: CommandBufferAllocateInfo, outcome: Outcome)
      modifies this`cmdBuffer
      ensures info == CommandBufferAllocateInfo(cmdPool, VK_COMMAND_BUFFER_LEVEL_PRIMARY, 1)
      ensures cmdBuffer == buffer
      ensures outcome == PanicIfNotSuccess(allocateResult)
    {
      info := CommandBufferAllocateInfo(cmdPool, VK_COMMAND_BUFFER_LEVEL_PRIMARY, 1);
      cmdBuffer := buffer;
      outcome := PanicIfNotSuccess(allocateResult);
    }

    /** executeBeginCommandBuffer: begins recording the command buffer, with no flags and no inheritance info. */
    method ExecuteBeginCommandBuffer(beginResult: Enum) returns (info: CommandBufferBeginInfo, outcome: Outcome)
      ensures info == CommandBufferBeginInfo(cmdBuffer, 0, false)
      ensures outcome.Ok? <==> beginResult == VK_SUCCESS
      ensures outcome.Failed? ==> outcome.failure == NotSuccess(beginResult)
    {
      info := CommandBufferBeginInfo(cmdBuffer, 0, false);
      outcome := PanicIfNotSuccess(beginResult);
    }

    /**
     * initDeviceQueue: queue 0 of the graphics family; the present queue is the
     * same queue when both families coincide, else queue 0 of the present family.
     */
    method InitDeviceQueue(queueOf: (uint32, uint32) -> Handle)
      modifies this`graphicsQueue, this`presentQueue
      ensures graphicsQueue == queueOf(graphicsQueueFamilyIndex, 0)
      ensures presentQueue == if graphicsQueueFamilyIndex == presentQueueFamilyIndex then graphicsQueue
        else queueOf(presentQueueFamilyIndex, 0)
    {
      graphicsQueue := queueOf(graphicsQueueFamilyIndex, 0);
      if graphicsQueueFamilyIndex == presentQueueFamilyIndex {
        presentQueue := graphicsQueue;
      } else {
        presentQueue := queueOf(presentQueueFamilyIndex, 0);
      }
    }

    /**
     * memoryTypeFromProperties: scans the memory types in order, shifting
     * typeBits one place per type, and reports the first allowed type that has
     * every flag of requirementsMask; typeIndex is left alone when none does.
     */
    method MemoryTypeFromProperties(typeBits: uint32, requirementsMask: Flags, typeIndex: uint32)
      returns (pass: bool, newTypeIndex: uint32)
      ensures pass <==> M.FirstEligible(memoryTypes, typeBits, requirementsMask).Some?
      ensures pass ==> newTypeIndex == M.FirstEligible(memoryTypes, typeBits, requirementsMask).value
      ensures !pass ==> newTypeIndex == typeIndex
    {
      var bits := typeBits;
      var i: nat := 0;
      while i < |memoryTypes|
        invariant 0 <= i <= |memoryTypes|
        invariant bits == M.Shifted(typeBits, i)
        invariant forall j :: 0 <= j < i ==> !M.Eligible(memoryTypes, typeBits, requirementsMask, j)
      {
        M.ScanStep(memoryTypes, typeBits, requirementsMask, i, bits);
        if bits % 2 == 1 {  // (typeBits & 1) == 1
          if HasAll(memoryTypes[i].propertyFlags, requirementsMask) {
            M.FirstEligibleUnique(memoryTypes, typeBits, requirementsMask, i);
            return true, i;
          }
        }
        M.ShiftStep(typeBits, i);
        bits := bits / 2;  // typeBits >>= 1
        i := i + 1;
      }
      M.NoneEligible(memoryTypes, typeBits, requirementsMask);
      return false, typeIndex;
    }

    /**
     * initSwapChain: checks the surface queries, builds the swapchain create-info
     * from the negotiation rules, then pushes one buffer (image and color view)
     * per swapchain image onto swapChainBuffers.
     */
    method InitSwapChain(usageFlags: Flags, q: SwapchainQueries) returns (info: S.SwapchainCreateInfo, outcome: Outcome)
      requires |q.images| <= q.imageCount
      modifies this`swapChain, this`swapChainImageCount, this`swapChainBuffers, this`currentSwapChainBuffer
      ensures info == S.SwapchainCreateInfoFor(surface, q.caps, format, Extent2D(AsUint32(width), AsUint32(height)),
        usageFlags, graphicsQueueFamilyIndex, presentQueueFamilyIndex)
      ensures outcome == SwapChainOutcome(q, format)
      ensures outcome.Ok? ==>
        swapChain == q.swapchain && swapChainImageCount == |q.images| && currentSwapChainBuffer == 0 &&
        swapChainBuffers == old(swapChainBuffers) + SwapChainBuffersFor(q.images, format, q.createView)
    {
      info := S.SwapchainCreateInfoFor(surface, q.caps, format, Extent2D(AsUint32(width), AsUint32(height)),
        usageFlags, graphicsQueueFamilyIndex, presentQueueFamilyIndex);
      if q.capsResult != VK_SUCCESS {
        return info, Failed(NotSuccess(q.capsResult));
      }
      if q.presentModeCountResult != VK_SUCCESS {
        return info, Failed(NotSuccess(q.presentModeCountResult));
      }
      if q.presentModeCount == 0 {
        return info, Failed(Panic("presentModeCount == 0"));
      }
      if q.presentModesResult != VK_SUCCESS {
        return info, Failed(NotSuccess(q.presentModesResult));
      }
      swapChain := q.swapchain;
      if q.createResult != VK_SUCCESS {
        return info, Failed(NotSuccess(q.createResult));
      }
      swapChainImageCount := q.imageCount;
      if q.imageCountResult != VK_SUCCESS {
        return info, Failed(NotSuccess(q.imageCountResult));
      }
      if swapChainImageCount == 0 {
        return info, Failed(Panic("swapChainImageCount == 0"));
      }
      swapChainImageCount := |q.images|;
      if q.imagesResult != VK_SUCCESS {
        return info, Failed(NotSuccess(q.imagesResult));
      }
      assert SwapChainOutcome(q, format) == ViewsOutcome(q.images, format, q.createView);
      outcome := PushSwapChainBuffers(q.images, q.createView);
      if outcome.Failed? {
        return info, outcome;
      }
      currentSwapChainBuffer := 0;
      outcome := Ok;
    }

    /** The image loop of initSwapChain: one color view per image, pushed in image order. */
    method PushSwapChainBuffers(images: seq<Handle>, createView: ImageViewCreateInfo -> (Enum, Handle))
      returns (outcome: Outcome)
      modifies this`swapChainBuffers
      ensures outcome == ViewsOutcome(images, format, createView)
      ensures outcome.Ok? ==> swapChainBuffers == old(swapChainBuffers) + SwapChainBuffersFor(images, format, createView)
    {
      var i: nat := 0;
      while i < |images|
        invariant 0 <= i <= |images|
        invariant swapChainBuffers == old(swapChainBuffers) + SwapChainBuffersFor(images[..i], format, createView)
        invariant ViewsOutcome(images[i..], format, createView) == ViewsOutcome(images, format, createView)
      {
        SwapChainStep(images, i, format, createView);
        var view := createView(ColorView(images[i], format));
        if view.0 != VK_SUCCESS {
          return Failed(NotSuccess(view.0));
        }
        swapChainBuffers := swapChainBuffers + [SwapChainBuffer(images[i], view.1)];
        i := i + 1;
      }
      assert images[..i] == images;
      assert images[i..] == [];
      outcome := Ok;
    }

    /**
     * initDepthBuffer: defaults the depth format to D16, picks the tiling (exit
     * when neither tiling supports depth attachments), creates the image,
     * allocates device-local memory for it, binds it and creates its view.
     */
    method InitDepthBuffer(q: DepthQueries)
      returns (imageInfo: D.ImageCreateInfo, allocInfo: MemoryAllocateInfo, viewInfo: ImageViewCreateInfo, outcome: Outcome)
      modifies this`depthBuf
      ensures depthBuf.format == D.DepthFormat(old(depthBuf.format))
      ensures outcome == DepthBufferOutcome(q, depthBuf.format, memoryTypes)
      ensures outcome.Ok? ==>
        var typeIndex := M.FirstEligible(memoryTypes, q.memReqs.memoryTypeBits, VK_MEMORY_PROPERTY_DEVICE_LOCAL_BIT);
        depthBuf == ImageResource(depthBuf.format, q.image, q.mem, q.view) &&
        imageInfo == D.DepthImageCreateInfo(depthBuf.format, D.DepthTiling(q.formatProperties(depthBuf.format)).value,
          AsUint32(width), AsUint32(height)) &&
        allocInfo == MemoryAllocateInfo(q.memReqs.size, typeIndex.value) &&
        viewInfo == D.DepthViewCreateInfo(q.image, depthBuf.format)
    {
      depthBuf := depthBuf.(format := D.DepthFormat(depthBuf.format));
      var depthFormat := depthBuf.format;
      allocInfo := MemoryAllocateInfo(0, 0);
      viewInfo := View2D(VK_NULL_HANDLE, depthFormat, D.DepthAspect(depthFormat));
      var tiling := D.DepthTiling(q.formatProperties(depthFormat));
      if tiling.None? {
        imageInfo := D.DepthImageCreateInfo(depthFormat, 0, AsUint32(width), AsUint32(height));
        return imageInfo, allocInfo, viewInfo, Failed(Exit(-1));
      }
      imageInfo := D.DepthImageCreateInfo(depthFormat, tiling.value, AsUint32(width), AsUint32(height));
      depthBuf := depthBuf.(image := q.image);
      if q.createResult != VK_SUCCESS {
        return imageInfo, allocInfo, viewInfo, Failed(AssertionFailed);
      }
      allocInfo := allocInfo.(allocationSize := q.memReqs.size);
      var pass, typeIndex := MemoryTypeFromProperties(q.memReqs.memoryTypeBits, VK_MEMORY_PROPERTY_DEVICE_LOCAL_BIT, allocInfo.memoryTypeIndex);
      allocInfo := allocInfo.(memoryTypeIndex := typeIndex);
      if !pass {
        return imageInfo, allocInfo, viewInfo, Failed(AssertionFailed);
      }
      depthBuf := depthBuf.(mem := q.mem);
      if q.allocateResult != VK_SUCCESS {
        return imageInfo, allocInfo, viewInfo, Failed(AssertionFailed);
      }
      if q.bindResult != VK_SUCCESS {
        return imageInfo, allocInfo, viewInfo, Failed(AssertionFailed);
      }
      viewInfo := D.DepthViewCreateInfo(depthBuf.image, depthFormat);
      depthBuf := depthBuf.(view := q.view);
      if q.viewResult != VK_SUCCESS {
        return imageInfo, allocInfo, viewInfo, Failed(AssertionFailed);
      }
      outcome := Ok;
    }

    /**
     * initUniformBuffer: creates a 64-byte uniform buffer (one 4x4 float
     * matrix), backs it with host-visible, host-coherent memory that is mapped
     * once and bound, and records the descriptor range over the whole buffer.
     */
    method InitUniformBuffer(q: UniformQueries)
      returns (bufInfo: BufferCreateInfo, allocInfo: MemoryAllocateInfo, outcome: Outcome)
      modifies this`uniformData
      ensures bufInfo == BufferCreateInfo(VK_BUFFER_USAGE_UNIFORM_BUFFER_BIT, MVP_SIZE, VK_SHARING_MODE_EXCLUSIVE, [])
      ensures outcome == UniformBufferOutcome(q, memoryTypes)
      ensures outcome.Ok? ==>
        allocInfo == MemoryAllocateInfo(q.memReqs.size, M.FirstEligible(memoryTypes, q.memReqs.memoryTypeBits, UNIFORM_MEMORY_MASK).value) &&
        uniformData == BufferResource(q.buf, q.mem, DescriptorBufferInfo(q.buf, 0, MVP_SIZE))
    {
      bufInfo := BufferCreateInfo(VK_BUFFER_USAGE_UNIFORM_BUFFER_BIT, MVP_SIZE, VK_SHARING_MODE_EXCLUSIVE, []);
      allocInfo := MemoryAllocateInfo(0, 0);
      uniformData := uniformData.(buf := q.buf);
      if q.createResult != VK_SUCCESS {
        return bufInfo, allocInfo, Failed(AssertionFailed);
      }
      allocInfo := allocInfo.(allocationSize := q.memReqs.size);
      var pass, typeIndex := MemoryTypeFromProperties(q.memReqs.memoryTypeBits, UNIFORM_MEMORY_MASK, allocInfo.memoryTypeIndex);
      allocInfo := allocInfo.(memoryTypeIndex := typeIndex);
      if !pass {
        return bufInfo, allocInfo, Failed(AssertionFailed);
      }
      uniformData := uniformData.(mem := q.mem);
      if q.allocateResult != VK_SUCCESS {
        return bufInfo, allocInfo, Failed(AssertionFailed);
      }
      if q.mapResult != VK_SUCCESS {
        return bufInfo, allocInfo, Failed(AssertionFailed);
      }
      if q.bindResult != VK_SUCCESS {
        return bufInfo, allocInfo, Failed(AssertionFailed);
      }
      uniformData := uniformData.(bufferInfo := DescriptorBufferInfo(uniformData.buf, 0, MVP_SIZE));
      outcome := Ok;
    }

    /**
     * initDescriptorAndPipelineLayouts: one set layout with a single uniform
     * buffer seen by the vertex stage, and a pipeline layout over that set.
     */
    method InitDescriptorAndPipelineLayouts(layoutResult: Enum, setLayout: Handle, pipelineLayoutResult: Enum, newPipelineLayout: Handle)
      returns (binding: DescriptorSetLayoutBinding, layoutInfo: PipelineLayoutCreateInfo, outcome: Outcome)
      modifies this`descLayout, this`pipelineLayout
      ensures binding == DescriptorSetLayoutBinding(0, VK_DESCRIPTOR_TYPE_UNIFORM_BUFFER, 1, VK_SHADER_STAGE_VERTEX_BIT)
      ensures descLayout == [setLayout]
      ensures outcome == if layoutResult != VK_SUCCESS || pipelineLayoutResult != VK_SUCCESS then Failed(AssertionFailed) else Ok
      ensures outcome.Ok? ==> layoutInfo == PipelineLayoutCreateInfo([setLayout], 0) && pipelineLayout == newPipelineLayout
    {
      binding := DescriptorSetLayoutBinding(0, VK_DESCRIPTOR_TYPE_UNIFORM_BUFFER, 1, VK_SHADER_STAGE_VERTEX_BIT);
      descLayout := [setLayout];
      layoutInfo := PipelineLayoutCreateInfo(descLayout, 0);
      if layoutResult != VK_SUCCESS {
        return binding, layoutInfo, Failed(AssertionFailed);
      }
      pipelineLayout := newPipelineLayout;
      if pipelineLayoutResult != VK_SUCCESS {
        return binding, layoutInfo, Failed(AssertionFailed);
      }
      outcome := Ok;
    }

    /**
     * initRenderpass: the color attachment in the surface format, the depth
     * attachment in the depth buffer's format when includeDepth, one subpass
     * and one external dependency.
     */
    method InitRenderpass(includeDepth: bool, clear: bool, finalLayout: Enum, initialLayout: Enum, createResult: Enum, pass: Handle)
      returns (info: R.RenderPassCreateInfo, outcome: Outcome)
      requires R.RenderPassArgsValid(clear, initialLayout)
      modifies this`renderPass
      ensures info == R.RenderPassFor(format, depthBuf.format, includeDepth, clear, finalLayout, initialLayout)
      ensures renderPass == pass
      ensures outcome == if createResult != VK_SUCCESS then Failed(AssertionFailed) else Ok
    {
      info := R.RenderPassFor(format, depthBuf.format, includeDepth, clear, finalLayout, initialLayout);
      renderPass := pass;
      outcome := if createResult != VK_SUCCESS then Failed(AssertionFailed) else Ok;
    }

    /**
     * Init: layers and their instance extensions, the extension names, the
     * instance, the device tables and device extensions, and the window size,
     * in that order.
     */
    method Init(a: InitAnswers) returns (outcome: Outcome)
      requires InitSettles(a)
      modifies this`instanceLayerProperties, this`instanceExtensionNames, this`deviceExtensionNames, this`inst
      modifies this`gpus, this`queueProps, this`memoryTypes, this`width, this`height
      ensures outcome == InitOutcome(a, old(instanceLayerProperties))
      ensures outcome.Ok? ==>
        instanceLayerProperties == InitLayerRecords(a, old(instanceLayerProperties)) &&
        instanceExtensionNames == old(instanceExtensionNames) + [VK_KHR_SURFACE_EXTENSION_NAME] &&
        deviceExtensionNames == old(deviceExtensionNames) + [VK_KHR_SWAPCHAIN_EXTENSION_NAME] &&
        inst == a.instance && gpus == a.physicalDevices && queueProps == a.families && memoryTypes == a.memory &&
        width == DEFAULT_WINDOW_SIZE && height == DEFAULT_WINDOW_SIZE
    {
      outcome := InitGlobalLayerProperties(a.layerScript, a.instanceExtensionScript);
      if outcome.Failed? {
        return;
      }
      InitInstanceExtensionNames();
      InitDeviceExtensionNames();
      var instanceInfo;
      instanceInfo, outcome := InitInstance(a.instanceCreateResult, a.instance);
      if outcome.Failed? {
        return;
      }
      outcome := InitEnumerateDevice(a.physicalDevices, a.families, a.memory, a.deviceExtensionScript);
      if outcome.Failed? {
        return;
      }
      InitWindowSize();
    }

    /**
     * Init2: queue families and surface format, device, command pool and
     * buffer, swapchain (color attachment usage), depth buffer, uniform buffer,
     * layouts and a render pass with depth, cleared and presented, in that order.
     */
    method Init2(a: Init2Answers) returns (outcome: Outcome)
      requires |a.swapchain.images| <= a.swapchain.imageCount
      modifies this`graphicsQueueFamilyIndex, this`presentQueueFamilyIndex, this`format, this`device
      modifies this`cmdPool, this`cmdBuffer, this`swapChain, this`swapChainImageCount, this`swapChainBuffers
      modifies this`currentSwapChainBuffer, this`depthBuf, this`uniformData, this`descLayout, this`pipelineLayout
      modifies this`renderPass
      ensures outcome == Init2Outcome(a, queueProps, memoryTypes, old(depthBuf.format))
      ensures outcome.Ok? ==>
        graphicsQueueFamilyIndex == Init2Families(a, queueProps).graphics &&
        presentQueueFamilyIndex == Init2Families(a, queueProps).present &&
        format == S.PreferredFormat(a.surfFormats) &&
        device == a.device && cmdPool == a.commandPool && cmdBuffer == a.commandBuffer &&
        swapChain == a.swapchain.swapchain && swapChainImageCount == |a.swapchain.images| && currentSwapChainBuffer == 0 &&
        swapChainBuffers == old(swapChainBuffers) + SwapChainBuffersFor(a.swapchain.images, format, a.swapchain.createView) &&
        depthBuf == ImageResource(D.DepthFormat(old(depthBuf.format)), a.depth.image, a.depth.mem, a.depth.view) &&
        uniformData == BufferResource(a.uniform.buf, a.uniform.mem, DescriptorBufferInfo(a.uniform.buf, 0, MVP_SIZE)) &&
        descLayout == [a.descriptorSetLayout] && pipelineLayout == a.pipelineLayout && renderPass == a.renderPass
    {
      outcome := InitSwapchainExtension(a.surfaceSupport, a.formatCountResult, a.formatsResult, a.surfFormats);
      if outcome.Failed? {
        return;
      }
      outcome := InitRenderingObjects(a);
    }

    /** Everything Init2 does after choosing the queue families and the surface format. */
    method InitRenderingObjects(a: Init2Answers) returns (outcome: Outcome)
      requires |a.swapchain.images| <= a.swapchain.imageCount
      modifies this`device, this`cmdPool, this`cmdBuffer
      modifies this`swapChain, this`swapChainImageCount, this`swapChainBuffers, this`currentSwapChainBuffer
      modifies this`depthBuf, this`uniformData, this`descLayout, this`pipelineLayout, this`renderPass
      ensures outcome == Then(CommandObjectsOutcome(a),
        Then(FrameResourcesOutcome(a, format, old(depthBuf.format), memoryTypes), PipelineObjectsOutcome(a)))
      ensures outcome.Ok? ==>
        device == a.device && cmdPool == a.commandPool && cmdBuffer == a.commandBuffer &&
        swapChain == a.swapchain.swapchain && swapChainImageCount == |a.swapchain.images| && currentSwapChainBuffer == 0 &&
        swapChainBuffers == old(swapChainBuffers) + SwapChainBuffersFor(a.swapchain.images, format, a.swapchain.createView) &&
        depthBuf == ImageResource(D.DepthFormat(old(depthBuf.format)), a.depth.image, a.depth.mem, a.depth.view) &&
        uniformData == BufferResource(a.uniform.buf, a.uniform.mem, DescriptorBufferInfo(a.uniform.buf, 0, MVP_SIZE)) &&
        descLayout == [a.descriptorSetLayout] && pipelineLayout == a.pipelineLayout && renderPass == a.renderPass
    {
      outcome := InitCommandObjects(a);
      if outcome.Failed? {
        return;
      }
      outcome := InitFrameResources(a);
      if outcome.Failed? {
        return;
      }
      outcome := InitPipelineObjects(a);
    }

    /** Init2's initDevice, initCommandPool and initCommandBuffer calls. */
    method InitCommandObjects(a: Init2Answers) returns (outcome: Outcome)
      modifies this`device, this`cmdPool, this`cmdBuffer
      ensures outcome == CommandObjectsOutcome(a)
      ensures outcome.Ok? ==> device == a.device && cmdPool == a.commandPool && cmdBuffer == a.commandBuffer
    {
      var deviceInfo, poolInfo, bufferInfo;
      deviceInfo, outcome := InitDevice(a.deviceCreateResult, a.device);
      if outcome.Failed? {
        return;
      }
      poolInfo, outcome := InitCommandPool(a.commandPoolResult, a.commandPool);
      if outcome.Failed? {
        return;
      }
      bufferInfo, outcome := InitCommandBuffer(a.commandBufferResult, a.commandBuffer);
    }

    /** Init2's initSwapChain (color attachment usage), initDepthBuffer and initUniformBuffer calls. */
    method InitFrameResources(a: Init2Answers) returns (outcome: Outcome)
      requires |a.swapchain.images| <= a.swapchain.imageCount
      modifies this`swapChain, this`swapChainImageCount, this`swapChainBuffers, this`currentSwapChainBuffer
      modifies this`depthBuf, this`uniformData
      ensures outcome == FrameResourcesOutcome(a, format, old(depthBuf.format), memoryTypes)
      ensures outcome.Ok? ==>
        swapChain == a.swapchain.swapchain && swapChainImageCount == |a.swapchain.images| && currentSwapChainBuffer == 0 &&
        swapChainBuffers == old(swapChainBuffers) + SwapChainBuffersFor(a.swapchain.images, format, a.swapchain.createView) &&
        depthBuf == ImageResource(D.DepthFormat(old(depthBuf.format)), a.depth.image, a.depth.mem, a.depth.view) &&
        uniformData == BufferResource(a.uniform.buf, a.uniform.mem, DescriptorBufferInfo(a.uniform.buf, 0, MVP_SIZE))
    {
      var swapchainInfo;
      swapchainInfo, outcome := InitSwapChain(VK_IMAGE_USAGE_COLOR_ATTACHMENT_BIT, a.swapchain);
      if outcome.Failed? {
        return;
      }
      var imageInfo, allocInfo, viewInfo;
      imageInfo, allocInfo, viewInfo, outcome := InitDepthBuffer(a.depth);
      if outcome.Failed? {
        return;
      }
      var uniformInfo, uniformAlloc;
      uniformInfo, uniformAlloc, outcome := InitUniformBuffer(a.uniform);
    }

    /**
     * Init2's initDescriptorAndPipelineLayouts call and its initRenderpass
     * call: with depth, cleared, presented, from an undefined layout.
     */
    method InitPipelineObjects(a: Init2Answers) returns (outcome: Outcome)
      modifies this`descLayout, this`pipelineLayout, this`renderPass
      ensures outcome == PipelineObjectsOutcome(a)
      ensures outcome.Ok? ==>
        descLayout == [a.descriptorSetLayout] && pipelineLayout == a.pipelineLayout && renderPass == a.renderPass
    {
      var binding, layoutInfo;
      binding, layoutInfo, outcome := InitDescriptorAndPipelineLayouts(
        a.descriptorSetLayoutResult, a.descriptorSetLayout, a.pipelineLayoutResult, a.pipelineLayout);
      if outcome.Failed? {
        return;
      }
      var renderPassInfo;
      renderPassInfo, outcome := InitRenderpass(true, true, VK_IMAGE_LAYOUT_PRESENT_SRC_KHR, VK_IMAGE_LAYOUT_UNDEFINED,
        a.renderPassResult, a.renderPass);
    }
  }
}
