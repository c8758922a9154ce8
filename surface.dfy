/**
 * The surface and swapchain negotiation of initSwapchainExtension and
 * initSwapChain: surface format, extent, pre-transform, composite alpha, sharing
 * mode, and the swapchain create-info built from them.
 */
module Surface {
  import opened Vk

  /** The format initSwapchainExtension picks: B8G8R8A8_UNORM if offered, else the first. */
  predicate Offers(formats: seq<SurfaceFormat>, format: Enum)
  {
    exists i :: 0 <= i < |formats| && formats[i].format == format
  }

  /** The surface format rule: B8G8R8A8_UNORM wherever it occurs, else the first entry's format. */
  function PreferredFormat(formats: seq<SurfaceFormat>): Enum
    requires |formats| > 0
  {
    if Offers(formats, VK_FORMAT_B8G8R8A8_UNORM) then VK_FORMAT_B8G8R8A8_UNORM else formats[0].format
  }

  /** The format scan: start with the first entry and stop at the first B8G8R8A8_UNORM. */
  method ChooseSurfaceFormat(surfFormats: seq<SurfaceFormat>) returns (format: Enum)
    requires |surfFormats| > 0
    ensures format == PreferredFormat(surfFormats)
  {
    format := surfFormats[0].format;
    var i := 0;
    while i < |surfFormats|
      invariant 0 <= i <= |surfFormats|
      invariant format == surfFormats[0].format
      invariant forall j :: 0 <= j < i ==> surfFormats[j].format != VK_FORMAT_B8G8R8A8_UNORM
    {
      if surfFormats[i].format == VK_FORMAT_B8G8R8A8_UNORM {
        format := VK_FORMAT_B8G8R8A8_UNORM;
        return;
      }
      i := i + 1;
    }
  }

  /** The chosen format is always one the surface offers. */
  lemma PreferredFormatOffered(formats: seq<SurfaceFormat>)
    requires |formats| > 0
    ensures Offers(formats, PreferredFormat(formats))
    ensures PreferredFormat(formats) == VK_FORMAT_B8G8R8A8_UNORM || PreferredFormat(formats) == formats[0].format
  {
    if !Offers(formats, VK_FORMAT_B8G8R8A8_UNORM) {
      assert formats[0].format == PreferredFormat(formats);
    }
  }

  /** The special currentExtent width meaning "the swapchain decides the size". */
  const EXTENT_UNDEFINED: uint32 := 0xFFFF_FFFF

  /** One dimension: raised to min when below it, otherwise lowered to max when above it. */
  function ClampDimension(requested: uint32, min: uint32, max: uint32): uint32
  {
    if requested < min then min
    else if requested > max then max
    else requested
  }

  /** initSwapChain's extent: clamp the window size when the surface leaves it open, else take the surface's. */
  function SwapchainExtent(caps: SurfaceCapabilities, requested: Extent2D): Extent2D
  {
    if caps.currentExtent.width == EXTENT_UNDEFINED then
      Extent2D(
        ClampDimension(requested.width, caps.minImageExtent.width, caps.maxImageExtent.width),
        ClampDimension(requested.height, caps.minImageExtent.height, caps.maxImageExtent.height))
    else caps.currentExtent
  }

  /**
   * With a consistent range a clamped dimension lies in [min, max], equals the
   * request when the request is already in range, and clamping twice changes
   * nothing.
   */
  lemma ClampDimensionInRange(requested: uint32, min: uint32, max: uint32)
    requires min <= max
    ensures min <= ClampDimension(requested, min, max) <= max
    ensures min <= requested <= max ==> ClampDimension(requested, min, max) == requested
    ensures requested < min ==> ClampDimension(requested, min, max) == min
    ensures requested > max ==> ClampDimension(requested, min, max) == max
    ensures ClampDimension(ClampDimension(requested, min, max), min, max) == ClampDimension(requested, min, max)
  {
  }

  /**
   * With an open extent each dimension is the request moved into the surface's
   * range; otherwise the extent is exactly the surface's current extent.
   */
  lemma SwapchainExtentRule(caps: SurfaceCapabilities, requested: Extent2D)
    ensures caps.currentExtent.width != EXTENT_UNDEFINED ==> SwapchainExtent(caps, requested) == caps.currentExtent
    ensures (caps.currentExtent.width == EXTENT_UNDEFINED &&
      caps.minImageExtent.width <= caps.maxImageExtent.width &&
      caps.minImageExtent.height <= caps.maxImageExtent.height) ==>
        caps.minImageExtent.width <= SwapchainExtent(caps, requested).width <= caps.maxImageExtent.width &&
        caps.minImageExtent.height <= SwapchainExtent(caps, requested).height <= caps.maxImageExtent.height &&
        (caps.minImageExtent.width <= requested.width <= caps.maxImageExtent.width ==>
          SwapchainExtent(caps, requested).width == requested.width) &&
        (caps.minImageExtent.height <= requested.height <= caps.maxImageExtent.height ==>
          SwapchainExtent(caps, requested).height == requested.height)
  {
    if caps.currentExtent.width == EXTENT_UNDEFINED &&
      caps.minImageExtent.width <= caps.maxImageExtent.width &&
      caps.minImageExtent.height <= caps.maxImageExtent.height
    {
      ClampDimensionInRange(requested.width, caps.minImageExtent.width, caps.maxImageExtent.width);
      ClampDimensionInRange(requested.height, caps.minImageExtent.height, caps.maxImageExtent.height);
    }
  }

  /** IDENTITY when the surface supports it, otherwise the current transform. */
  function PreTransform(caps: SurfaceCapabilities): Flags
  {
    if HasAny(caps.supportedTransforms, VK_SURFACE_TRANSFORM_IDENTITY_BIT_KHR) then VK_SURFACE_TRANSFORM_IDENTITY_BIT_KHR
    else caps.currentTransform
  }

  /**
   * The pre-transform is IDENTITY exactly when the surface supports it, and
   * otherwise the surface's current transform.
   */
  lemma PreTransformRule(caps: SurfaceCapabilities)
    ensures HasAny(caps.supportedTransforms, VK_SURFACE_TRANSFORM_IDENTITY_BIT_KHR) ==>
      PreTransform(caps) == VK_SURFACE_TRANSFORM_IDENTITY_BIT_KHR
    ensures !HasAny(caps.supportedTransforms, VK_SURFACE_TRANSFORM_IDENTITY_BIT_KHR) ==>
      PreTransform(caps) == caps.currentTransform
  {
  }

  /** The composite-alpha preference order of compositeAlphaFlags[4]. */
  const COMPOSITE_ALPHA_PREFERENCE: seq<Flags> := [
    VK_COMPOSITE_ALPHA_OPAQUE_BIT_KHR,
    VK_COMPOSITE_ALPHA_PRE_MULTIPLIED_BIT_KHR,
    VK_COMPOSITE_ALPHA_POST_MULTIPLIED_BIT_KHR,
    VK_COMPOSITE_ALPHA_INHERIT_BIT_KHR]

  /** The first of `prefs` that `supported` has, or `fallback` when none is. */
  function FirstSupported(prefs: seq<Flags>, supported: Flags, fallback: Flags): Flags
    decreases |prefs|
  {
    if |prefs| == 0 then fallback
    else if HasAny(supported, prefs[0]) then prefs[0]
    else FirstSupported(prefs[1..], supported, fallback)
  }

  /** The composite alpha initSwapChain asks for: the first supported preference, else OPAQUE. */
  function CompositeAlpha(supportedCompositeAlpha: Flags): Flags
  {
    FirstSupported(COMPOSITE_ALPHA_PREFERENCE, supportedCompositeAlpha, VK_COMPOSITE_ALPHA_OPAQUE_BIT_KHR)
  }

  /** The scan over compositeAlphaFlags, stopping at the first supported entry. */
  method ChooseCompositeAlpha(supportedCompositeAlpha: Flags) returns (compositeAlpha: Flags)
    ensures compositeAlpha == CompositeAlpha(supportedCompositeAlpha)
  {
    compositeAlpha := VK_COMPOSITE_ALPHA_OPAQUE_BIT_KHR;
    var compositeAlphaFlags := COMPOSITE_ALPHA_PREFERENCE;
    var i := 0;
    while i < |compositeAlphaFlags|
      invariant 0 <= i <= |compositeAlphaFlags|
      invariant compositeAlpha == VK_COMPOSITE_ALPHA_OPAQUE_BIT_KHR
      invariant CompositeAlpha(supportedCompositeAlpha) ==
        FirstSupported(compositeAlphaFlags[i..], supportedCompositeAlpha, VK_COMPOSITE_ALPHA_OPAQUE_BIT_KHR)
    {
      if HasAny(supportedCompositeAlpha, compositeAlphaFlags[i]) {
        compositeAlpha := compositeAlphaFlags[i];
        return;
      }
      assert compositeAlphaFlags[i..][1..] == compositeAlphaFlags[i + 1..];
      i := i + 1;
    }
  }

  /**
   * The chosen composite alpha is the first preference the surface supports; when
   * it supports none the result is OPAQUE, which the surface then does not support.
   */
  lemma CompositeAlphaFirstMatch(supported: Flags)
    ensures var r := CompositeAlpha(supported);
      (exists i :: 0 <= i < 4 && COMPOSITE_ALPHA_PREFERENCE[i] == r && HasAny(supported, r) &&
         forall j :: 0 <= j < i ==> !HasAny(supported, COMPOSITE_ALPHA_PREFERENCE[j])) ||
      (r == VK_COMPOSITE_ALPHA_OPAQUE_BIT_KHR && forall j :: 0 <= j < 4 ==> !HasAny(supported, COMPOSITE_ALPHA_PREFERENCE[j]))
  {
    var p := COMPOSITE_ALPHA_PREFERENCE;
    var o := VK_COMPOSITE_ALPHA_OPAQUE_BIT_KHR;
    assert p[1..][0] == p[1] && p[1..][1..][0] == p[2] && p[1..][1..][1..][0] == p[3];
    assert p[1..][1..][1..][1..] == [];
    if !HasAny(supported, p[0]) {
      assert FirstSupported(p, supported, o) == FirstSupported(p[1..], supported, o);
      if !HasAny(supported, p[1]) {
        assert FirstSupported(p[1..], supported, o) == FirstSupported(p[1..][1..], supported, o);
        if !HasAny(supported, p[2]) {
          assert FirstSupported(p[1..][1..], supported, o) == FirstSupported(p[1..][1..][1..], supported, o);
          if !HasAny(supported, p[3]) {
            assert FirstSupported(p[1..][1..][1..], supported, o) == FirstSupported(p[1..][1..][1..][1..], supported, o);
          }
        }
      }
    }
  }

  /** imageSharingMode and pQueueFamilyIndices for the chosen graphics and present families. */
  datatype Sharing = Sharing(mode: Enum, queueFamilyIndices: seq<uint32>)

  function SharingFor(graphics: uint32, present: uint32): Sharing
  {
    if graphics != present then Sharing(VK_SHARING_MODE_CONCURRENT, [graphics, present])
    else Sharing(VK_SHARING_MODE_EXCLUSIVE, [])
  }

  /** Exclusive with no index list for one family; concurrent with both indices for two. */
  lemma SharingRule(graphics: uint32, present: uint32)
    ensures SharingFor(graphics, present).mode == VK_SHARING_MODE_EXCLUSIVE <==> graphics == present
    ensures |SharingFor(graphics, present).queueFamilyIndices| == (if graphics == present then 0 else 2)
    ensures graphics != present ==> SharingFor(graphics, present).queueFamilyIndices == [graphics, present]
    ensures forall i :: 0 <= i < |SharingFor(graphics, present).queueFamilyIndices| ==>
      SharingFor(graphics, present).queueFamilyIndices[i] in {graphics, present}
  {
  }

  /** The fields of VkSwapchainCreateInfoKHR that initSwapChain sets. */
  datatype SwapchainCreateInfo = SwapchainCreateInfo(
    surface: Handle,
    minImageCount: uint32,
    imageFormat: Enum,
    imageExtent: Extent2D,
    preTransform: Flags,
    compositeAlpha: Flags,
    imageArrayLayers: uint32,
    presentMode: Enum,
    oldSwapchain: Handle,
    clipped: bool,
    imageColorSpace: Enum,
    imageUsage: Flags,
    sharing: Sharing)

  /** The create-info initSwapChain passes to vkCreateSwapchainKHR (non-Android build). */
  function SwapchainCreateInfoFor(
    surface: Handle, caps: SurfaceCapabilities, format: Enum, requested: Extent2D,
    usageFlags: Flags, graphics: uint32, present: uint32): SwapchainCreateInfo
  {
    SwapchainCreateInfo(
      surface, caps.minImageCount, format, SwapchainExtent(caps, requested), PreTransform(caps),
      CompositeAlpha(caps.supportedCompositeAlpha), 1, VK_PRESENT_MODE_FIFO_KHR, VK_NULL_HANDLE,
      false, VK_COLORSPACE_SRGB_NONLINEAR_KHR, usageFlags, SharingFor(graphics, present))
  }

  /**
   * Every field of the swapchain create-info: the surface, format and usage as
   * given, the surface's minimum image count, FIFO presentation, one array layer,
   * no old swapchain, unclipped sRGB; the extent, pre-transform, composite alpha
   * and sharing follow their rules.
   */
  lemma SwapchainCreateInfoRule(
    surface: Handle, caps: SurfaceCapabilities, format: Enum, requested: Extent2D,
    usageFlags: Flags, graphics: uint32, present: uint32)
    ensures var info := SwapchainCreateInfoFor(surface, caps, format, requested, usageFlags, graphics, present);
      info.surface == surface && info.imageFormat == format && info.imageUsage == usageFlags &&
      info.minImageCount == caps.minImageCount && info.presentMode == VK_PRESENT_MODE_FIFO_KHR &&
      info.imageArrayLayers == 1 && info.oldSwapchain == VK_NULL_HANDLE && !info.clipped &&
      info.imageColorSpace == VK_COLORSPACE_SRGB_NONLINEAR_KHR
    ensures var info := SwapchainCreateInfoFor(surface, caps, format, requested, usageFlags, graphics, present);
      caps.currentExtent.width != EXTENT_UNDEFINED ==> info.imageExtent == caps.currentExtent
    ensures var info := SwapchainCreateInfoFor(surface, caps, format, requested, usageFlags, graphics, present);
      (caps.currentExtent.width == EXTENT_UNDEFINED &&
       caps.minImageExtent.width <= caps.maxImageExtent.width &&
       caps.minImageExtent.height <= caps.maxImageExtent.height) ==>
        caps.minImageExtent.width <= info.imageExtent.width <= caps.maxImageExtent.width &&
        caps.minImageExtent.height <= info.imageExtent.height <= caps.maxImageExtent.height &&
        (caps.minImageExtent.width <= requested.width <= caps.maxImageExtent.width ==>
          info.imageExtent.width == requested.width) &&
        (caps.minImageExtent.height <= requested.height <= caps.maxImageExtent.height ==>
          info.imageExtent.height == requested.height)
    ensures var info := SwapchainCreateInfoFor(surface, caps, format, requested, usageFlags, graphics, present);
      info.preTransform == (if HasAny(caps.supportedTransforms, VK_SURFACE_TRANSFORM_IDENTITY_BIT_KHR)
        then VK_SURFACE_TRANSFORM_IDENTITY_BIT_KHR else caps.currentTransform)
    ensures var info := SwapchainCreateInfoFor(surface, caps, format, requested, usageFlags, graphics, present);
      (exists i :: 0 <= i < 4 && COMPOSITE_ALPHA_PREFERENCE[i] == info.compositeAlpha &&
         HasAny(caps.supportedCompositeAlpha, info.compositeAlpha) &&
         forall j :: 0 <= j < i ==> !HasAny(caps.supportedCompositeAlpha, COMPOSITE_ALPHA_PREFERENCE[j])) ||
      (info.compositeAlpha == VK_COMPOSITE_ALPHA_OPAQUE_BIT_KHR &&
         forall j :: 0 <= j < 4 ==> !HasAny(caps.supportedCompositeAlpha, COMPOSITE_ALPHA_PREFERENCE[j]))
    ensures var info := SwapchainCreateInfoFor(surface, caps, format, requested, usageFlags, graphics, present);
      (info.sharing.mode == VK_SHARING_MODE_EXCLUSIVE <==> graphics == present) &&
      (graphics == present ==> info.sharing.queueFamilyIndices == []) &&
      (graphics != present ==> info.sharing.queueFamilyIndices == [graphics, present])
  {
    SwapchainExtentRule(caps, requested);
    PreTransformRule(caps);
    CompositeAlphaFirstMatch(caps.supportedCompositeAlpha);
    SharingRule(graphics, present);
  }

  /**
   * A 500x500 window on a surface that leaves the extent open between 640x480 and
   * 1920x1080: the width is raised to 640, the height kept; with identity
   * supported and only premultiplied alpha, those are chosen; two families give
   * concurrent sharing.
   */
  lemma SwapchainExample()
    ensures var caps := SurfaceCapabilities(2, Extent2D(EXTENT_UNDEFINED, EXTENT_UNDEFINED),
        Extent2D(640, 480), Extent2D(1920, 1080), 0x3, 0x2, 0x2);
      SwapchainCreateInfoFor(7, caps, VK_FORMAT_B8G8R8A8_UNORM, Extent2D(500, 500),
        VK_IMAGE_USAGE_COLOR_ATTACHMENT_BIT, 0, 1) ==
      SwapchainCreateInfo(7, 2, VK_FORMAT_B8G8R8A8_UNORM, Extent2D(640, 500),
        VK_SURFACE_TRANSFORM_IDENTITY_BIT_KHR, VK_COMPOSITE_ALPHA_PRE_MULTIPLIED_BIT_KHR, 1,
        VK_PRESENT_MODE_FIFO_KHR, VK_NULL_HANDLE, false, VK_COLORSPACE_SRGB_NONLINEAR_KHR,
        VK_IMAGE_USAGE_COLOR_ATTACHMENT_BIT, Sharing(VK_SHARING_MODE_CONCURRENT, [0, 1]))
  {
    var p := COMPOSITE_ALPHA_PREFERENCE;
    assert !HasAny(0x2, p[0]) && HasAny(0x2, p[1..][0]);
    assert CompositeAlpha(0x2) == FirstSupported(p[1..], 0x2, VK_COMPOSITE_ALPHA_OPAQUE_BIT_KHR) == p[1];
    assert HasAny(0x3, VK_SURFACE_TRANSFORM_IDENTITY_BIT_KHR);
  }
}
