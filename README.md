# VulkanDemo context setup, modelled in Dafny

This project models the one-shot Vulkan context setup of VulkanDemo: the
`VulkanRHI` object and its `Init` and `Init2` sequences
(`Sources/RenderCore/Private/VulkanRHI.cpp`), plus the two helpers of
`Sources/RenderCore/Private/Utils.cpp` that the setup reports through.

The setup is a chain of selection and negotiation rules over tables the driver
reports:
- queue-family selection (combined graphics+present family first, otherwise
  the first of each, with `UINT32_MAX` as "not found");
- the surface format;
- swapchain extent, present mode, image count, pre-transform, composite alpha
  and sharing mode;
- the memory-type bitmask scan;
- depth format, tiling and aspect;
- the render pass description;
- the two-call `VK_INCOMPLETE` enumeration loop;
- present-queue aliasing.

Every driver call is a foreign call. Its answers (result codes, counts, tables,
handles) become parameters of the methods. The driver's answers for a whole
stage are bundled in a datatype (`SwapchainQueries`, `DepthQueries`,
`UniformQueries`, `InitAnswers`, `Init2Answers`). A call whose answer depends
on its input (one extension list per layer name, one view per image) is a
function parameter.

`PANIC`, `PANIC_IF_NOT_SUCCESS`, `exit(-1)` and a failing `assert` on a driver
answer each become a `Failed` outcome that records which of them fired. A stage
stops at its first failure, and so does a sequence of stages. The one `assert`
on the caller's own arguments, the check that a `LOAD` colour attachment does
not start from `UNDEFINED` in `initRenderpass` (VulkanRHI.cpp:795), is a
precondition of `InitRenderpass` instead (`RenderPassArgsValid`); the only call,
from `Init2` with clearing on, meets it.

Modules, following the source:
- `Vk`: the Vulkan types, constants and records used, the `Outcome` type,
  `PANIC_IF_NOT_SUCCESS`.
- `Results`: `GetVkResultString`.
- `Utils`: `GetQueueFlagString`, imperative like the source: it pushes names,
  then joins them in an index loop.
- `Enumeration`: the two-call retry loop, generic in the item type. The driver
  is a script of answers, one per attempt.
- `QueueSelection`, `Surface`, `Memory`, `Depth`, `RenderPass`: the rules as
  functions, with lemmas stating what the source promises about them. Where
  the source scans in a loop (queue families, surface format, composite alpha),
  a method with loop invariants is proved against the function.
- `Rhi`: the class `VulkanRHI`, with the fields the methods update
  (`m_graphicsQueueFamilyIndex`, `m_format`, `m_depthBuf`,
  `m_swapChainBuffers`, `m_instanceLayerProperties`, …). There is one method
  per `init…` function, and `Init`/`Init2`. Each method is proved against a spec
  function of its inputs and old state. Its outcome is the first failing
  driver answer in call order. On success it gives the new value of every
  field it writes.

## Model

| member | source | states |
|---|---|---|
| Vk.AsUint32 | Sources/RenderCore/Private/VulkanRHI.cpp:441-445 | The `int` window size read as `uint32_t` is the value itself when non-negative and the value plus 2^32 when negative (two's-complement reinterpretation). |
| Vk.ThenMonoid | Sources/RenderCore/Private/VulkanRHI.cpp:34-45 | Running stages in sequence is associative with a completing stage as unit, so the grouping of Init2's stages does not change its outcome. |
| Vk.SequenceFirstStop | Sources/RenderCore/Private/VulkanRHI.cpp:34-45 | A run of stages completes exactly when every stage does, and otherwise ends with the first stage that stops. |
| Vk.SequenceAppend | Sources/RenderCore/Private/VulkanRHI.cpp:34-45 | Two runs in sequence are the run of their concatenation. |
| Vk.AssertAllRule | Sources/RenderCore/Private/VulkanRHI.cpp:663-688 | A run of `assert`s completes exactly when every condition holds, and otherwise stops with a failed assertion. |
| Vk.PanicChainFirstFailure | Sources/RenderCore/Private/Utils.hpp:11-15 | A run of `PANIC_IF_NOT_SUCCESS` checks completes exactly when every result is `VK_SUCCESS`, and otherwise stops with the first result that is not. |
| Results.GetVkResultString | Sources/RenderCore/Private/Utils.cpp:47-99 | Definition: the `switch` from result code to its enumerator's name, "" by default; its properties are the next two lemmas. |
| Results.ListedResultsNamed | Sources/RenderCore/Private/Utils.cpp:49-93 | Every listed enumerator maps to a non-empty name. |
| Results.UnlistedResultsUnnamed | Sources/RenderCore/Private/Utils.cpp:94-95 | Every value outside the listed enumerators maps to "" (the `default` case). |
| Results.NotSuccessMessage | Sources/RenderCore/Private/Utils.hpp:11-15 | A non-success code stops with that code, the printed message is `GetVkResultString` of it, and the message is non-empty exactly for listed codes. |
| Utils.GetQueueFlagString | Sources/RenderCore/Private/Utils.cpp:5-45 | The result is the names of the set queue bits, in the fixed order, joined with single `|` separators. |
| Utils.QueueFlagNames | Sources/RenderCore/Private/Utils.cpp:9-32 | Definition: the names of the set bits in the order GRAPHICS, COMPUTE, TRANSFER, SPARSE_BINDING, PROTECTED; properties in `QueueFlagNameReported`, `QueueFlagNamesDistinct`, `QueueFlagNamesIgnoreUnknownBits`. |
| Utils.Join | Sources/RenderCore/Private/Utils.cpp:34-42 | Definition: the names with `|` between consecutive ones; properties in `JoinSeparatorCount`, `JoinNonEmpty`, `QueueFlagStringSeparators`. |
| Utils.JoinNames | Sources/RenderCore/Private/Utils.cpp:34-42 | The index loop that appends a name and then a `|` unless it is the last yields the separator-joined string. |
| Utils.QueueFlagNameReported | Sources/RenderCore/Private/Utils.cpp:9-32 | Each of the five names is reported exactly when its bit is set, and no other name is reported. |
| Utils.QueueFlagNamesDistinct | Sources/RenderCore/Private/Utils.cpp:9-32 | No name is reported twice. |
| Utils.QueueFlagNamesIgnoreUnknownBits | Sources/RenderCore/Private/Utils.cpp:9-32 | Bits other than the five queue bits do not change the names reported. |
| Utils.KnownQueueBits | Sources/RenderCore/Private/Utils.cpp:9-32 | Masking with the five known bits keeps each of them, and the masked flag is zero exactly when none of the five is set. |
| Utils.QueueFlagStringEmpty | Sources/RenderCore/Private/Utils.cpp:34-44 | The string is empty exactly when none of the five known bits is set. |
| Utils.QueueFlagStringSeparators | Sources/RenderCore/Private/Utils.cpp:34-42 | For a non-empty name list there are names−1 separators and the string neither starts nor ends with `|`. |
| Utils.JoinSeparatorCount | Sources/RenderCore/Private/Utils.cpp:34-42 | Joining n non-empty, separator-free names puts exactly n−1 separators in the string. |
| Utils.JoinNonEmpty | Sources/RenderCore/Private/Utils.cpp:34-42 | The joined string starts with the first name's first character and ends with the last name's last character. |
| Enumeration.Enumerate | Sources/RenderCore/Private/VulkanRHI.cpp:64-76 | Definition: the result of the retry loop over a script of attempts; properties in `EnumerateFirstEnd`, `EnumeratedKinds`, `ZeroCountFirst`. |
| Enumeration.TwoCallEnumerate | Sources/RenderCore/Private/VulkanRHI.cpp:64-76 | The loop's result is decided by the first attempt not answered `VK_INCOMPLETE`. The retried vector is the previous attempt's fetch (or the caller's vector if none). |
| Enumeration.FirstEnd | Sources/RenderCore/Private/VulkanRHI.cpp:64-76 | Names the first attempt that ends the loop; every earlier attempt was retried. |
| Enumeration.EnumerateFirstEnd | Sources/RenderCore/Private/VulkanRHI.cpp:64-76 | The retries before that attempt do not affect the result, apart from the vector they left behind. |
| Enumeration.EnumeratedKinds | Sources/RenderCore/Private/VulkanRHI.cpp:64-76 | A failed count call ends with that code. A zero count ends with nothing fetched. Otherwise the loop ends with the fetched items and a fetch result other than `VK_INCOMPLETE`. |
| Enumeration.ZeroCountFirst | Sources/RenderCore/Private/VulkanRHI.cpp:111-118 | A zero count on the first attempt returns at once and leaves the vector as it was. |
| QueueSelection.FindQueueFamilies | Sources/RenderCore/Private/VulkanRHI.cpp:264-306 | The two scans, with their `break`s, compute exactly the selected pair of families. |
| QueueSelection.SelectedFamilies | Sources/RenderCore/Private/VulkanRHI.cpp:271-306 | Definition: the first combined family for both queues, else the first graphics and the first present family; properties in `CombinedFamilyPreferred`, `SeparateFamiliesFallback`, `ResolvedIffBothExist`, `LaterFamiliesIgnored`. |
| QueueSelection.FirstCombined | Sources/RenderCore/Private/VulkanRHI.cpp:273-286 | The result is `UINT32_MAX` or a family with both graphics and present support, and no earlier family has both. |
| QueueSelection.FirstGraphics | Sources/RenderCore/Private/VulkanRHI.cpp:273-286 | The result is `UINT32_MAX` or a graphics family, and no earlier family is a graphics family. |
| QueueSelection.FirstPresent | Sources/RenderCore/Private/VulkanRHI.cpp:288-298 | The result is `UINT32_MAX` or a family with present support, and no earlier family has it. |
| QueueSelection.CombinedFamilyPreferred | Sources/RenderCore/Private/VulkanRHI.cpp:273-286 | If some family offers both, graphics = present = the smallest such family. |
| QueueSelection.SeparateFamiliesFallback | Sources/RenderCore/Private/VulkanRHI.cpp:273-298 | With no combined family, graphics is the first graphics family and present the first present family. When both exist they differ. |
| QueueSelection.ResolvedIffBothExist | Sources/RenderCore/Private/VulkanRHI.cpp:271-306 | Neither index stays `UINT32_MAX` exactly when some graphics family and some present family exist. |
| QueueSelection.LaterFamiliesIgnored | Sources/RenderCore/Private/VulkanRHI.cpp:279-284 | Families after the first combined one do not change the selection (the first loop's `break`). |
| QueueSelection.FirstCombinedUnique | Sources/RenderCore/Private/VulkanRHI.cpp:273-286 | Any index meeting the "first combined family" description is the one selected. |
| QueueSelection.FirstGraphicsUnique | Sources/RenderCore/Private/VulkanRHI.cpp:273-286 | Any index meeting the "first graphics family" description is the one selected. |
| QueueSelection.FirstPresentUnique | Sources/RenderCore/Private/VulkanRHI.cpp:288-298 | Any index meeting the "first present family" description is the one selected. |
| QueueSelection.ThreeFamiliesExample | Sources/RenderCore/Private/VulkanRHI.cpp:264-306 | Illustration, not a property: for [graphics, compute, graphics+transfer] with presentation on [no, yes, yes], both queues use family 2. |
| QueueSelection.TwoFamiliesExample | Sources/RenderCore/Private/VulkanRHI.cpp:264-306 | Illustration, not a property: for [graphics, compute] with presentation on [no, yes], graphics is 0 and present is 1. |
| Surface.PreferredFormat | Sources/RenderCore/Private/VulkanRHI.cpp:316-325 | Definition: `B8G8R8A8_UNORM` if offered, else the first entry's format; properties in `PreferredFormatOffered`. |
| Surface.ChooseSurfaceFormat | Sources/RenderCore/Private/VulkanRHI.cpp:316-325 | The scan yields the preferred format of a non-empty list. |
| Surface.PreferredFormatOffered | Sources/RenderCore/Private/VulkanRHI.cpp:316-325 | The chosen format is in the list. It is `B8G8R8A8_UNORM` or the first entry's format, and `B8G8R8A8_UNORM` whenever it is offered. |
| Surface.ClampDimension | Sources/RenderCore/Private/VulkanRHI.cpp:446-462 | Definition: the request raised to min or lowered to max; properties in `ClampDimensionInRange`. |
| Surface.SwapchainExtent | Sources/RenderCore/Private/VulkanRHI.cpp:441-467 | Definition: the current extent, or the window size clamped when the current width is `0xFFFFFFFF`; properties in `SwapchainExtentRule`. |
| Surface.ClampDimensionInRange | Sources/RenderCore/Private/VulkanRHI.cpp:445-462 | The clamped value lies in [min,max]. It equals the request when that is in range, min below and max above. Clamping twice changes nothing. |
| Surface.SwapchainExtentRule | Sources/RenderCore/Private/VulkanRHI.cpp:441-467 | A current width other than `0xFFFFFFFF` is used exactly. Otherwise each dimension is clamped to the surface's range and an in-range request is kept. |
| Surface.PreTransform | Sources/RenderCore/Private/VulkanRHI.cpp:471-479 | Definition: `IDENTITY` if supported, else the current transform; properties in `PreTransformRule`. |
| Surface.PreTransformRule | Sources/RenderCore/Private/VulkanRHI.cpp:471-479 | The pre-transform is `IDENTITY` when the surface supports it and otherwise the surface's current transform. |
| Surface.CompositeAlpha | Sources/RenderCore/Private/VulkanRHI.cpp:481-495 | Definition: the first supported entry of the preference array, else `OPAQUE`; properties in `CompositeAlphaFirstMatch`. |
| Surface.ChooseCompositeAlpha | Sources/RenderCore/Private/VulkanRHI.cpp:481-495 | The loop over the preference array yields the composite-alpha function's value. |
| Surface.CompositeAlphaFirstMatch | Sources/RenderCore/Private/VulkanRHI.cpp:481-495 | The result is the first supported entry of the preference array, or `OPAQUE` when none is supported. |
| Surface.SharingFor | Sources/RenderCore/Private/VulkanRHI.cpp:517-530 | Definition: concurrent over both families when they differ, else exclusive; properties in `SharingRule`. |
| Surface.SharingRule | Sources/RenderCore/Private/VulkanRHI.cpp:517-530 | `EXCLUSIVE` with no indices exactly when graphics == present; otherwise `CONCURRENT` with exactly [graphics, present]. |
| Surface.SwapchainCreateInfoFor | Sources/RenderCore/Private/VulkanRHI.cpp:497-530 | Definition: the fields `initSwapChain` sets from the negotiated values; properties in `SwapchainCreateInfoRule`. |
| Surface.SwapchainCreateInfoRule | Sources/RenderCore/Private/VulkanRHI.cpp:441-530 | For every input: surface, format and usage as given, the surface's minimum image count, FIFO, one layer, no old swapchain, unclipped sRGB; the extent, pre-transform, composite alpha (first supported preference, else `OPAQUE`) and sharing (exclusive exactly for one family, else both indices) follow their rules. |
| Surface.SwapchainExample | Sources/RenderCore/Private/VulkanRHI.cpp:441-530 | Illustration, not a property: a worked create-info: an undefined current extent clamps 500×500 to 640×500, with identity transform, pre-multiplied alpha, FIFO and concurrent sharing. |
| Memory.FirstEligible | Sources/RenderCore/Private/VulkanRHI.cpp:864-882 | The index found is eligible (its `typeBits` bit is set and its flags contain the mask) and no smaller index is eligible. "None" means no index is eligible. |
| Memory.FirstEligibleUnique | Sources/RenderCore/Private/VulkanRHI.cpp:864-882 | The smallest eligible index is the one found, so the answer is determined by the table. |
| Memory.NoRequirementFirstAllowed | Sources/RenderCore/Private/VulkanRHI.cpp:864-882 | With an empty mask the first type allowed by `typeBits` is found. |
| Memory.StricterMaskNotEarlier | Sources/RenderCore/Private/VulkanRHI.cpp:864-882 | Adding requirement bits never finds an earlier index, and a found stricter index implies a weaker one is found. |
| Depth.DepthFormat | Sources/RenderCore/Private/VulkanRHI.cpp:592-596 | Definition: `UNDEFINED` becomes `D16_UNORM`; properties in `DepthFormatRule`. |
| Depth.DepthTiling | Sources/RenderCore/Private/VulkanRHI.cpp:600-615 | Definition: linear, else optimal, else none by the depth-stencil feature bit; properties in `DepthTilingRule`. |
| Depth.DepthAspect | Sources/RenderCore/Private/VulkanRHI.cpp:649-661 | Definition: `DEPTH`, plus `STENCIL` for the three stencil formats; properties in `DepthAspectRule`. |
| Depth.DepthImageCreateInfo | Sources/RenderCore/Private/VulkanRHI.cpp:617-632 | Definition: a 2D, single-sample, single-level depth-stencil image of the window size in the chosen format and tiling. |
| Depth.DepthViewCreateInfo | Sources/RenderCore/Private/VulkanRHI.cpp:640-661 | Definition: a 2D identity-swizzle view of the depth image with the format's aspect. |
| Depth.DepthFormatRule | Sources/RenderCore/Private/VulkanRHI.cpp:592-596 | `UNDEFINED` becomes `D16_UNORM`, and a defined format is unchanged (so the rule is idempotent). |
| Depth.DepthTilingRule | Sources/RenderCore/Private/VulkanRHI.cpp:601-615 | Linear if the linear features have `DEPTH_STENCIL_ATTACHMENT`, else optimal if the optimal ones do, else none (`exit(-1)`), each as an if-and-only-if. |
| Depth.DepthAspectRule | Sources/RenderCore/Private/VulkanRHI.cpp:649-661 | The view aspect always has `DEPTH`, never `COLOR`, and has `STENCIL` exactly for D16_S8, D24_S8 and D32_S8. |
| Depth.DefaultDepthViewDepthOnly | Sources/RenderCore/Private/VulkanRHI.cpp:592-661 | Illustration, not a property: with the default format the aspect is depth only. |
| RenderPass.RenderPassFor | Sources/RenderCore/Private/VulkanRHI.cpp:795-858 | Definition: the attachments, subpass and dependency `initRenderpass` describes; properties in `RenderPassShape`, `RenderPassOps`, `RenderPassDependency`. |
| RenderPass.RenderPassShape | Sources/RenderCore/Private/VulkanRHI.cpp:795-858 | 2 attachments iff depth is included, else 1. One subpass, whose depth reference is attachment 1 iff depth is included. Colour reference 0. One dependency. Every reference is in range. |
| RenderPass.RenderPassOps | Sources/RenderCore/Private/VulkanRHI.cpp:795-818 | Colour: `CLEAR`/`LOAD` by `clear`, store, the given layouts, and a `LOAD` never from `UNDEFINED`. Depth: `CLEAR`/`DONT_CARE`, store, depth-stencil final layout. |
| RenderPass.RenderPassDependency | Sources/RenderCore/Private/VulkanRHI.cpp:841-858 | The single dependency is `EXTERNAL`→0 on colour-attachment output, with colour-attachment write access. |
| Rhi.PresentSupport | Sources/RenderCore/Private/VulkanRHI.cpp:264-269 | One present-support answer per queue family, in family order. |
| Rhi.NewLayerRecords | Sources/RenderCore/Private/VulkanRHI.cpp:78-97 | One record per enumerated layer. |
| Rhi.NewLayerRecordsContents | Sources/RenderCore/Private/VulkanRHI.cpp:78-97 | Record i holds layer i's properties and its enumerated instance extensions, with no device extensions yet. |
| Rhi.WithDeviceExtensions | Sources/RenderCore/Private/VulkanRHI.cpp:231-234 | The device-extension pass keeps the number of layer records. |
| Rhi.WithDeviceExtensionsContents | Sources/RenderCore/Private/VulkanRHI.cpp:148-174 | Record i keeps its layer properties and instance extensions; its device extensions become the enumeration's result for its own layer name. |
| Rhi.SwapChainBuffersShape | Sources/RenderCore/Private/VulkanRHI.cpp:547-575 | One buffer per image, in order; buffer i holds image i and the view created for it. |
| Rhi.ViewsOutcomeOk | Sources/RenderCore/Private/VulkanRHI.cpp:547-575 | The image loop succeeds exactly when every colour view is created; a failure is a `PANIC_IF_NOT_SUCCESS` stop. |
| Rhi.SwapChainOutcome | Sources/RenderCore/Private/VulkanRHI.cpp:418-580 | Definition: the first failing swapchain query or create, in call order; `InitSwapChain` is proved against it. |
| Rhi.DepthBufferOutcome | Sources/RenderCore/Private/VulkanRHI.cpp:582-689 | Definition: the first failing step of the depth buffer, in call order; `InitDepthBuffer` is proved against it. |
| Rhi.UniformBufferOutcome | Sources/RenderCore/Private/VulkanRHI.cpp:691-754 | Definition: the first failing step of the uniform buffer, in call order; `InitUniformBuffer` is proved against it. |
| Rhi.InitOutcome | Sources/RenderCore/Private/VulkanRHI.cpp:24-32 | Definition: the first failing stage of `Init`; `Init` is proved against it. |
| Rhi.Init2Outcome | Sources/RenderCore/Private/VulkanRHI.cpp:34-45 | Definition: the first failing stage of `Init2`; `Init2` is proved against it. |
| Rhi.DepthBufferAsserts | Sources/RenderCore/Private/VulkanRHI.cpp:600-688 | No depth-stencil tiling is `exit(-1)`; otherwise the stage is the run of its five asserts (create, device-local memory type, allocate, bind, view) in that order. |
| Rhi.UniformBufferAsserts | Sources/RenderCore/Private/VulkanRHI.cpp:720-749 | The stage is the run of its five asserts (create, host-visible and coherent memory type, allocate, map, bind) in that order. |
| Rhi.PipelineObjectsAsserts | Sources/RenderCore/Private/VulkanRHI.cpp:756-862 | The layout and render pass stages are the run of their three create asserts. |
| Rhi.Init2FirstStop | Sources/RenderCore/Private/VulkanRHI.cpp:34-45 | Init2's outcome is one run of the ten checks of its stages in call order, so it is the first of them that stops. |
| Rhi.CommandObjectsPanicChain | Sources/RenderCore/Private/VulkanRHI.cpp:37-39 | Device, pool and buffer creation are a run of `PANIC_IF_NOT_SUCCESS` checks, so they stop at the first result other than `VK_SUCCESS`. |
| Rhi.VulkanRHI.constructor | Sources/RenderCore/Private/VulkanRHI.cpp:13-15 | The C++ constructor sets only the Metal layer; the vectors start empty and `ImageResource`'s constructor (Resources.hpp:8-10) sets the depth format to `UNDEFINED`. The model states every field: empty lists, null handles (instance, device, pool, buffer, queues, swapchain, layouts, render pass, resources), zero indices, sizes and counts, no surface yet. |
| Rhi.VulkanRHI.InitGlobalLayerProperties | Sources/RenderCore/Private/VulkanRHI.cpp:55-98 | The outcome is the layer enumeration's, then the first layer whose extension enumeration stops. On success one record per layer is appended, each with its instance extensions. |
| Rhi.VulkanRHI.PushLayerRecords | Sources/RenderCore/Private/VulkanRHI.cpp:78-97 | The per-layer loop stops at the first failing layer; on success it appends exactly the new records. |
| Rhi.VulkanRHI.InitGlobalExtensionProperties | Sources/RenderCore/Private/VulkanRHI.cpp:100-128 | The record's instance extensions become the enumeration's result. A failing count, or a last fetch other than success, stops. |
| Rhi.VulkanRHI.InitInstanceExtensionNames | Sources/RenderCore/Private/VulkanRHI.cpp:130-139 | Appends `VK_KHR_surface`. |
| Rhi.VulkanRHI.InitDeviceExtensionNames | Sources/RenderCore/Private/VulkanRHI.cpp:141-146 | Appends `VK_KHR_swapchain`. |
| Rhi.VulkanRHI.InitDeviceExtensionProperties | Sources/RenderCore/Private/VulkanRHI.cpp:148-174 | The record's device extensions become the enumeration's result; only a failing count stops. |
| Rhi.VulkanRHI.InitInstance | Sources/RenderCore/Private/VulkanRHI.cpp:176-204 | The create-info has the app name, version 1, API 1.0 and the recorded layer and extension names; a failed create stops with its code. |
| Rhi.VulkanRHI.InitEnumerateDevice | Sources/RenderCore/Private/VulkanRHI.cpp:206-235 | No GPU or no queue family fails the asserts. Otherwise the GPUs, queue families and memory types are recorded, and every layer record gains its device extensions unless a layer stops. |
| Rhi.VulkanRHI.InitWindowSize | Sources/RenderCore/Private/VulkanRHI.cpp:237-244 | Width and height become 500. |
| Rhi.VulkanRHI.InitSwapchainExtension | Sources/RenderCore/Private/VulkanRHI.cpp:246-327 | The family indices become the selected pair. The outcome checks the families, the two format queries and a non-empty list in that order. On success the format is the preferred one. |
| Rhi.VulkanRHI.InitDevice | Sources/RenderCore/Private/VulkanRHI.cpp:329-355 | One queue from the graphics family, with the device extension names; records the device. |
| Rhi.VulkanRHI.InitCommandPool | Sources/RenderCore/Private/VulkanRHI.cpp:357-371 | A resettable pool on the graphics family; records the pool. |
| Rhi.VulkanRHI.InitCommandBuffer | Sources/RenderCore/Private/VulkanRHI.cpp:373-389 | One primary buffer from the pool; records it. |
| Rhi.VulkanRHI.ExecuteBeginCommandBuffer | Sources/RenderCore/Private/VulkanRHI.cpp:391-402 | The begin-info names the command buffer, with flags 0 and no inheritance info; begin succeeds exactly on `VK_SUCCESS` and otherwise stops with its code. |
| Rhi.VulkanRHI.InitDeviceQueue | Sources/RenderCore/Private/VulkanRHI.cpp:404-416 | The graphics queue is queue 0 of its family. The present queue is the same queue when the indices are equal, otherwise queue 0 of the present family. |
| Rhi.VulkanRHI.MemoryTypeFromProperties | Sources/RenderCore/Private/VulkanRHI.cpp:864-882 | Returns true exactly when an eligible index exists, with the smallest one. On false the index is left untouched. |
| Rhi.VulkanRHI.InitSwapChain | Sources/RenderCore/Private/VulkanRHI.cpp:418-580 | The create-info is the negotiated one. The outcome is the first failing query, including the two `== 0` panics. On success it records the swapchain and image count, resets the current buffer, and appends one buffer per image. |
| Rhi.VulkanRHI.PushSwapChainBuffers | Sources/RenderCore/Private/VulkanRHI.cpp:547-575 | The image loop stops at the first failed view. On success it appends (image, view) for every image, in order. |
| Rhi.VulkanRHI.InitDepthBuffer | Sources/RenderCore/Private/VulkanRHI.cpp:582-689 | The format is defaulted. Then, in order: tiling or `exit(-1)`, create, a device-local memory type, allocate, bind and view, each failure being an assert. On success the image, memory type, view info and resource are recorded. |
| Rhi.VulkanRHI.InitUniformBuffer | Sources/RenderCore/Private/VulkanRHI.cpp:691-754 | A 64-byte uniform buffer in host-visible, host-coherent memory. The outcome checks create, memory type, allocate, map and bind in order; on success the resource and its descriptor are recorded. |
| Rhi.VulkanRHI.InitDescriptorAndPipelineLayouts | Sources/RenderCore/Private/VulkanRHI.cpp:756-789 | One vertex-stage uniform binding at 0, one set layout and a pipeline layout over it; either create failing fails the asserts. |
| Rhi.VulkanRHI.InitRenderpass | Sources/RenderCore/Private/VulkanRHI.cpp:791-862 | The create-info is the render pass description for the swapchain and depth formats; a failed create fails the assert. |
| Rhi.VulkanRHI.Init | Sources/RenderCore/Private/VulkanRHI.cpp:24-32 | The six stages run in order and the first stop wins. On success the layer records, extension names, instance, device tables and window size are those of the stages. |
| Rhi.VulkanRHI.Init2 | Sources/RenderCore/Private/VulkanRHI.cpp:34-45 | The nine stages run in order (colour-attachment swapchain, a render pass with depth and the header's defaults) and the first stop wins. On success every field they write holds its stage's value. |
| Rhi.VulkanRHI.InitRenderingObjects | Sources/RenderCore/Private/VulkanRHI.cpp:37-44 | The stages of Init2 after the surface format, with the same first-stop outcome and final state. |
| Rhi.VulkanRHI.InitCommandObjects | Sources/RenderCore/Private/VulkanRHI.cpp:37-39 | Device, command pool and command buffer, in order, with the first stop winning. |
| Rhi.VulkanRHI.InitFrameResources | Sources/RenderCore/Private/VulkanRHI.cpp:40-42 | Swapchain, depth buffer and uniform buffer, in order, with the first stop winning. |
| Rhi.VulkanRHI.InitPipelineObjects | Sources/RenderCore/Private/VulkanRHI.cpp:43-44 | Layouts, then the default render pass, with the first stop winning. |

## Left out

- Every Vulkan create, allocate and map call is a foreign call. The model keeps the create-info values passed to it and treats returned handles as opaque numbers supplied by the driver.
- The glm perspective, look-at, clip and MVP matrices of `initUniformBuffer` are floating-point arithmetic. The `memcpy` into mapped memory is not modelled. Only the buffer size (`sizeof(glm::mat4)` = 64) is kept.
- Logging (spdlog, `LOG`/`WARN`/`ERROR`, `printf`) and the Metal-platform code (`Init(void *view)`, `destoryWindow`) are output or platform code.
- The Android build sets `clipped = true` in the swapchain create-info (VulkanRHI.cpp:510-514); only the non-Android build, with `clipped = false`, is modelled.
- `Camera.hpp`, `main.cpp` (windowing, surface creation, event loop), `RenderCore.cpp` (a forwarding wrapper) and `example/singleton` are outside the setup.
- The process exit behind `PANIC`, `exit(-1)` and a failed `assert` is a `Failed` outcome. The state after a stop is unspecified, because the process has ended. A build with `NDEBUG` would skip the asserts; that build is not modelled.
- Enumeration that answers `VK_INCOMPLETE` forever is excluded: every enumeration method requires its script of answers to settle.
- A C++ vector's length and the count the driver reports are one value in the model. Where the code resizes a vector to a count and the driver fills fewer entries, the model keeps the entries the driver returned.
- Results the code ignores are not checked in the model either: both `vkEnumeratePhysicalDevices` calls (VulkanRHI.cpp:213, 217) and `vkGetPhysicalDeviceSurfaceSupportKHR` (VulkanRHI.cpp:268). The memory-property and format-property queries return nothing to check.
- The fields `m_instanceExtensionProperties` and `m_deviceExtensionProperties` (VulkanRHI.hpp:85, 88) are declared but never used, so they are not modelled. `m_gpuProps` is written once (VulkanRHI.cpp:227) and read only for logging, so it is not modelled either. `m_queueFamilyCount` is the length of the queue-family table.
- The field `renderPass` stands for `mRenderPass`, which `initRenderpass` writes (VulkanRHI.cpp:860) but which `VulkanRHI.hpp` does not declare; the model gives it a field of its own.
- C++ fields the constructor leaves uninitialised start at 0 or the null handle in the model, except the two below.
- `m_appShortName` is never assigned anywhere, so `initInstance` (VulkanRHI.cpp:185, 187) reads an indeterminate pointer. The model gives it the empty name.
- `m_surface` is written by the caller between `Init` and `Init2` (main.cpp:34, `glfwCreateWindowSurface`). The model starts it null; a caller sets the public `surface` field before `Init2`, as `main.cpp` does.
- `Init` and `Init2` (VulkanRHI.cpp:23-45) never call `initDeviceQueue` or `executeBeginCommandBuffer`, so the real setup never fetches `m_graphicsQueue`/`m_presentQueue` and never begins the command buffer. The model keeps both as standalone methods, outside `Init2`.
- Results.ListedResultsNamed: states that every listed code has a non-empty name, not which name; that is the table itself. That distinct codes get distinct names is not proved.
- Rhi.VulkanRHI.InitSwapChain: the create-info is computed before the surface queries are checked; in the code it is built after them, from the same answers. The image count recorded is the number of images of the second `vkGetSwapchainImagesKHR` call. The driver contract that call relies on (it returns at most the count it first reported) is a precondition.
- Rhi.VulkanRHI.InitGlobalLayerProperties: the layer loop and the device-extension loop do not check the result of the last fetch, while the instance-extension loop does; the model follows the code in each.
- Surface.CompositeAlphaFirstMatch: when no preferred composite alpha is supported the code keeps `OPAQUE` and goes on, rather than failing; the model follows the code.
