/**
 * The depth-buffer configuration of initDepthBuffer: its format, tiling, the
 * create-info of the image and the aspect of its view.
 */
module Depth {
  import opened Vk

  /** An undefined depth format is replaced by D16_UNORM; a defined one is kept. */
  function DepthFormat(format: Enum): Enum
  {
    if format == VK_FORMAT_UNDEFINED then VK_FORMAT_D16_UNORM else format
  }

  /** LINEAR if linear tiling can be a depth attachment, else OPTIMAL if optimal can, else none (exit(-1)). */
  function DepthTiling(props: FormatProperties): Option<Enum>
  {
    if HasAny(props.linearTilingFeatures, VK_FORMAT_FEATURE_DEPTH_STENCIL_ATTACHMENT_BIT) then Some(VK_IMAGE_TILING_LINEAR)
    else if HasAny(props.optimalTilingFeatures, VK_FORMAT_FEATURE_DEPTH_STENCIL_ATTACHMENT_BIT) then Some(VK_IMAGE_TILING_OPTIMAL)
    else None
  }

  /** The three combined depth/stencil formats initDepthBuffer recognises. */
  predicate HasStencil(format: Enum)
  {
    format == VK_FORMAT_D16_UNORM_S8_UINT || format == VK_FORMAT_D24_UNORM_S8_UINT || format == VK_FORMAT_D32_SFLOAT_S8_UINT
  }

  /** The view aspect: DEPTH, with STENCIL added for the combined formats. */
  function DepthAspect(format: Enum): Flags
  {
    if HasStencil(format) then VK_IMAGE_ASPECT_DEPTH_BIT | VK_IMAGE_ASPECT_STENCIL_BIT else VK_IMAGE_ASPECT_DEPTH_BIT
  }

  /** VkExtent3D. */
  datatype Extent3D = Extent3D(width: uint32, height: uint32, depth: uint32)

  /** The fields of VkImageCreateInfo that the setup sets. */
  datatype ImageCreateInfo = ImageCreateInfo(
    imageType: Enum,
    format: Enum,
    extent: Extent3D,
    mipLevels: uint32,
    arrayLayers: uint32,
    samples: Flags,
    tiling: Enum,
    initialLayout: Enum,
    sharingMode: Enum,
    queueFamilyIndices: seq<uint32>,
    usage: Flags)

  /** The depth image: 2D, one mip and layer, single-sampled, exclusive, a depth/stencil attachment. */
  function DepthImageCreateInfo(format: Enum, tiling: Enum, width: uint32, height: uint32): ImageCreateInfo
  {
    ImageCreateInfo(VK_IMAGE_TYPE_2D, format, Extent3D(width, height, 1), 1, 1, VK_SAMPLE_COUNT_1_BIT, tiling,
      VK_IMAGE_LAYOUT_UNDEFINED, VK_SHARING_MODE_EXCLUSIVE, [], VK_IMAGE_USAGE_DEPTH_STENCIL_ATTACHMENT_BIT)
  }

  /** The depth view of `image`. */
  function DepthViewCreateInfo(image: Handle, format: Enum): ImageViewCreateInfo
  {
    View2D(image, format, DepthAspect(format))
  }

  /** The resulting depth format is never UNDEFINED, and a defined format is left alone. */
  lemma DepthFormatRule(format: Enum)
    ensures DepthFormat(format) != VK_FORMAT_UNDEFINED
    ensures format != VK_FORMAT_UNDEFINED ==> DepthFormat(format) == format
    ensures DepthFormat(DepthFormat(format)) == DepthFormat(format)
  {
  }

  /** Linear tiling wins whenever it can be a depth attachment; failure only when neither tiling can. */
  lemma DepthTilingRule(props: FormatProperties)
    ensures DepthTiling(props) == Some(VK_IMAGE_TILING_LINEAR) <==>
      HasAny(props.linearTilingFeatures, VK_FORMAT_FEATURE_DEPTH_STENCIL_ATTACHMENT_BIT)
    ensures DepthTiling(props) == Some(VK_IMAGE_TILING_OPTIMAL) <==>
      !HasAny(props.linearTilingFeatures, VK_FORMAT_FEATURE_DEPTH_STENCIL_ATTACHMENT_BIT) &&
      HasAny(props.optimalTilingFeatures, VK_FORMAT_FEATURE_DEPTH_STENCIL_ATTACHMENT_BIT)
    ensures DepthTiling(props).None? <==>
      !HasAny(props.linearTilingFeatures, VK_FORMAT_FEATURE_DEPTH_STENCIL_ATTACHMENT_BIT) &&
      !HasAny(props.optimalTilingFeatures, VK_FORMAT_FEATURE_DEPTH_STENCIL_ATTACHMENT_BIT)
  {
  }

  /** The aspect always has DEPTH, never COLOR, and has STENCIL exactly for the combined formats. */
  lemma DepthAspectRule(format: Enum)
    ensures HasAll(DepthAspect(format), VK_IMAGE_ASPECT_DEPTH_BIT)
    ensures !HasAny(DepthAspect(format), VK_IMAGE_ASPECT_COLOR_BIT)
    ensures HasAny(DepthAspect(format), VK_IMAGE_ASPECT_STENCIL_BIT) <==> HasStencil(format)
  {
  }

  /** The default D16_UNORM has no stencil, so its view is depth only. */
  lemma DefaultDepthViewDepthOnly()
    ensures DepthAspect(DepthFormat(VK_FORMAT_UNDEFINED)) == VK_IMAGE_ASPECT_DEPTH_BIT
  {
  }
}
