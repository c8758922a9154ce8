/**
 * The render pass initRenderpass describes: a color attachment, an optional depth
 * attachment, one graphics subpass and one dependency from outside the pass.
 */
module RenderPass {
  import opened Vk

  /** VkAttachmentDescription (flags 0). */
  datatype AttachmentDescription = AttachmentDescription(
    format: Enum,
    samples: Flags,
    loadOp: Enum,
    storeOp: Enum,
    stencilLoadOp: Enum,
    stencilStoreOp: Enum,
    initialLayout: Enum,
    finalLayout: Enum)

  /** VkAttachmentReference. */
  datatype AttachmentReference = AttachmentReference(attachment: uint32, layout: Enum)

  /** VkSubpassDescription, without input, resolve and preserve attachments (the setup sets none). */
  datatype SubpassDescription = SubpassDescription(
    pipelineBindPoint: Enum,
    colorAttachments: seq<AttachmentReference>,
    depthStencilAttachment: Option<AttachmentReference>)

  /** VkSubpassDependency. */
  datatype SubpassDependency = SubpassDependency(
    srcSubpass: uint32,
    dstSubpass: uint32,
    srcStageMask: Flags,
    dstStageMask: Flags,
    srcAccessMask: Flags,
    dstAccessMask: Flags,
    dependencyFlags: Flags)

  /** VkRenderPassCreateInfo: the counts are the lengths of the sequences. */
  datatype RenderPassCreateInfo = RenderPassCreateInfo(
    attachments: seq<AttachmentDescription>,
    subpasses: seq<SubpassDescription>,
    dependencies: seq<SubpassDependency>)

  /** The caller's promise checked by initRenderpass's assert: a pass that loads must know the old layout. */
  predicate RenderPassArgsValid(clear: bool, initialLayout: Enum)
  {
    clear || initialLayout != VK_IMAGE_LAYOUT_UNDEFINED
  }

  /** attachments[0]: the swapchain color image. */
  function ColorAttachment(format: Enum, clear: bool, finalLayout: Enum, initialLayout: Enum): AttachmentDescription
  {
    AttachmentDescription(format, VK_SAMPLE_COUNT_1_BIT,
      if clear then VK_ATTACHMENT_LOAD_OP_CLEAR else VK_ATTACHMENT_LOAD_OP_LOAD,
      VK_ATTACHMENT_STORE_OP_STORE, VK_ATTACHMENT_LOAD_OP_DONT_CARE, VK_ATTACHMENT_STORE_OP_DONT_CARE,
      initialLayout, finalLayout)
  }

  /** attachments[1]: the depth buffer. */
  function DepthAttachment(depthFormat: Enum, clear: bool): AttachmentDescription
  {
    AttachmentDescription(depthFormat, VK_SAMPLE_COUNT_1_BIT,
      if clear then VK_ATTACHMENT_LOAD_OP_CLEAR else VK_ATTACHMENT_LOAD_OP_DONT_CARE,
      VK_ATTACHMENT_STORE_OP_STORE, VK_ATTACHMENT_LOAD_OP_DONT_CARE, VK_ATTACHMENT_STORE_OP_STORE,
      VK_IMAGE_LAYOUT_UNDEFINED, VK_IMAGE_LAYOUT_DEPTH_STENCIL_ATTACHMENT_OPTIMAL)
  }

  /** The dependency that waits for earlier color output before writing color. */
  const EXTERNAL_DEPENDENCY: SubpassDependency := SubpassDependency(
    VK_SUBPASS_EXTERNAL, 0,
    VK_PIPELINE_STAGE_COLOR_ATTACHMENT_OUTPUT_BIT, VK_PIPELINE_STAGE_COLOR_ATTACHMENT_OUTPUT_BIT,
    0, VK_ACCESS_COLOR_ATTACHMENT_WRITE_BIT, 0)

  /** The create-info initRenderpass passes to vkCreateRenderPass. */
  function RenderPassFor(colorFormat: Enum, depthFormat: Enum, includeDepth: bool, clear: bool,
    finalLayout: Enum, initialLayout: Enum): RenderPassCreateInfo
    requires RenderPassArgsValid(clear, initialLayout)
  {
    var color := ColorAttachment(colorFormat, clear, finalLayout, initialLayout);
    var colorRef := AttachmentReference(0, VK_IMAGE_LAYOUT_COLOR_ATTACHMENT_OPTIMAL);
    var depthRef := AttachmentReference(1, VK_IMAGE_LAYOUT_DEPTH_STENCIL_ATTACHMENT_OPTIMAL);
    RenderPassCreateInfo(
      if includeDepth then [color, DepthAttachment(depthFormat, clear)] else [color],
      [SubpassDescription(VK_PIPELINE_BIND_POINT_GRAPHICS, [colorRef], if includeDepth then Some(depthRef) else None)],
      [EXTERNAL_DEPENDENCY])
  }

  /** Every attachment a subpass refers to exists in the pass. */
  predicate ReferencesInRange(info: RenderPassCreateInfo)
  {
    forall s :: 0 <= s < |info.subpasses| ==>
      (forall c :: 0 <= c < |info.subpasses[s].colorAttachments| ==>
        info.subpasses[s].colorAttachments[c].attachment < |info.attachments|) &&
      (info.subpasses[s].depthStencilAttachment.Some? ==>
        info.subpasses[s].depthStencilAttachment.value.attachment < |info.attachments|)
  }

  /** Every dependency goes from outside the pass or an existing subpass to an existing subpass. */
  predicate DependenciesInRange(info: RenderPassCreateInfo)
  {
    forall d :: 0 <= d < |info.dependencies| ==>
      info.dependencies[d].dstSubpass < |info.subpasses| &&
      (info.dependencies[d].srcSubpass == VK_SUBPASS_EXTERNAL || info.dependencies[d].srcSubpass < |info.subpasses|)
  }

  /**
   * The pass has two attachments and a depth reference to attachment 1 exactly
   * when depth is included, otherwise one and none; every reference is in range.
   */
  lemma RenderPassShape(colorFormat: Enum, depthFormat: Enum, includeDepth: bool, clear: bool,
    finalLayout: Enum, initialLayout: Enum)
    requires RenderPassArgsValid(clear, initialLayout)
    ensures var info := RenderPassFor(colorFormat, depthFormat, includeDepth, clear, finalLayout, initialLayout);
      |info.attachments| == (if includeDepth then 2 else 1) &&
      |info.subpasses| == 1 && |info.dependencies| == 1 &&
      (info.subpasses[0].depthStencilAttachment.Some? <==> includeDepth) &&
      (includeDepth ==> info.subpasses[0].depthStencilAttachment.value.attachment == 1 &&
                        info.attachments[1].format == depthFormat) &&
      info.subpasses[0].colorAttachments == [AttachmentReference(0, VK_IMAGE_LAYOUT_COLOR_ATTACHMENT_OPTIMAL)] &&
      info.attachments[0].format == colorFormat &&
      ReferencesInRange(info) && DependenciesInRange(info)
  {
  }

  /**
   * Load and store operations: color is cleared or loaded as `clear` says, depth is
   * cleared or left undefined; both are stored, and the depth stencil aspect too.
   */
  lemma RenderPassOps(colorFormat: Enum, depthFormat: Enum, includeDepth: bool, clear: bool,
    finalLayout: Enum, initialLayout: Enum)
    requires RenderPassArgsValid(clear, initialLayout)
    ensures var info := RenderPassFor(colorFormat, depthFormat, includeDepth, clear, finalLayout, initialLayout);
      info.attachments[0].loadOp == (if clear then VK_ATTACHMENT_LOAD_OP_CLEAR else VK_ATTACHMENT_LOAD_OP_LOAD) &&
      info.attachments[0].storeOp == VK_ATTACHMENT_STORE_OP_STORE &&
      info.attachments[0].initialLayout == initialLayout && info.attachments[0].finalLayout == finalLayout &&
      (info.attachments[0].loadOp == VK_ATTACHMENT_LOAD_OP_LOAD ==> info.attachments[0].initialLayout != VK_IMAGE_LAYOUT_UNDEFINED) &&
      (includeDepth ==>
        info.attachments[1].loadOp == (if clear then VK_ATTACHMENT_LOAD_OP_CLEAR else VK_ATTACHMENT_LOAD_OP_DONT_CARE) &&
        info.attachments[1].storeOp == VK_ATTACHMENT_STORE_OP_STORE &&
        info.attachments[1].stencilStoreOp == VK_ATTACHMENT_STORE_OP_STORE &&
        info.attachments[1].finalLayout == VK_IMAGE_LAYOUT_DEPTH_STENCIL_ATTACHMENT_OPTIMAL)
  {
  }

  /** The single dependency runs from outside the pass into subpass 0 at the color output stage. */
  lemma RenderPassDependency(colorFormat: Enum, depthFormat: Enum, includeDepth: bool, clear: bool,
    finalLayout: Enum, initialLayout: Enum)
    requires RenderPassArgsValid(clear, initialLayout)
    ensures var info := RenderPassFor(colorFormat, depthFormat, includeDepth, clear, finalLayout, initialLayout);
      info.dependencies == [SubpassDependency(VK_SUBPASS_EXTERNAL, 0,
        VK_PIPELINE_STAGE_COLOR_ATTACHMENT_OUTPUT_BIT, VK_PIPELINE_STAGE_COLOR_ATTACHMENT_OUTPUT_BIT,
        0, VK_ACCESS_COLOR_ATTACHMENT_WRITE_BIT, 0)]
  {
  }
}
