/** Swapchain negotiation: how the backend chooses a surface format, a
    present mode, an image extent, an image count and a sharing mode from
    what the surface reports, and what it records about the swapchain it
    creates. Enumerant values are those of the Vulkan API headers. */
module Swapchain {
  import opened Common

  /** `VK_FORMAT_B8G8R8A8_SRGB`. */
  const FormatB8G8R8A8Srgb: nat := 50
  /** `VK_COLOR_SPACE_SRGB_NONLINEAR_KHR`. */
  const ColorSpaceSrgbNonlinear: nat := 0

  /** `VK_PRESENT_MODE_*_KHR`. */
  const PresentModeMailbox: nat := 1
  const PresentModeFifo: nat := 2

  /** `VK_IMAGE_USAGE_COLOR_ATTACHMENT_BIT`. */
  const ImageUsageColorAttachment: bv32 := 0x10
  /** `VK_COMPOSITE_ALPHA_OPAQUE_BIT_KHR`. */
  const CompositeAlphaOpaque: bv32 := 0x1

  datatype SurfaceFormat = SurfaceFormat(format: nat, colorSpace: nat)

  /** The format the backend prefers: 8-bit BGRA in the non-linear sRGB space. */
  const PreferredFormat: SurfaceFormat := SurfaceFormat(FormatB8G8R8A8Srgb, ColorSpaceSrgbNonlinear)

  datatype Extent2D = Extent2D(width: U32, height: U32)

  /** The fields of `VkSurfaceCapabilitiesKHR` the backend reads. */
  datatype SurfaceCapabilities = SurfaceCapabilities(
    minImageCount: U32,
    maxImageCount: U32,
    currentExtent: Extent2D,
    minImageExtent: Extent2D,
    maxImageExtent: Extent2D,
    currentTransform: bv32)

  /** What the device manager stored about the chosen device's surface
      support: capabilities, the list of formats, and the `format_count`
      and `present_modes` fields the swapchain creator reads. */
  datatype SwapchainSupport = SwapchainSupport(
    capabilities: SurfaceCapabilities,
    formats: seq<SurfaceFormat>,
    formatCount: nat,
    presentModes: seq<nat>)

  /** An image lent by the presentation engine; opaque to the backend. */
  datatype ImageHandle = ImageHandle(id: nat)

  /** The fields the backend fills in `VkSwapchainCreateInfoKHR`. */
  datatype SwapchainCreateInfo = SwapchainCreateInfo(
    minImageCount: U32,
    imageFormat: nat,
    imageColorSpace: nat,
    imageExtent: Extent2D,
    imageArrayLayers: nat,
    imageUsage: bv32,
    imageSharingMode: SharingMode,
    queueFamilyIndices: seq<U32>,
    preTransform: bv32,
    compositeAlpha: bv32,
    presentMode: nat,
    clipped: bool)

  /** What the backend keeps about a created swapchain. */
  datatype SwapchainState = SwapchainState(images: seq<ImageHandle>, imageFormat: nat, extent: Extent2D)

  datatype SwapchainCreation = SwapchainCreation(createInfo: SwapchainCreateInfo, swapchain: SwapchainState)

  datatype SharingChoice = SharingChoice(mode: SharingMode, queueFamilyIndices: seq<U32>)

  predicate IsPreferred(f: SurfaceFormat)
  {
    f.format == FormatB8G8R8A8Srgb && f.colorSpace == ColorSpaceSrgbNonlinear
  }

  /** The scan of `formats` from index `i` on for the first preferred entry. */
  function FindPreferredFormat(formats: seq<SurfaceFormat>, i: nat): (r: Option<nat>)
    requires i <= |formats|
    ensures r.Some? ==> i <= r.value < |formats| && IsPreferred(formats[r.value])
    ensures r.Some? ==> forall j :: i <= j < r.value ==> !IsPreferred(formats[j])
    ensures r.None? ==> forall j :: i <= j < |formats| ==> !IsPreferred(formats[j])
    decreases |formats| - i
  {
    if i == |formats| then None
    else if IsPreferred(formats[i]) then Some(i)
    else FindPreferredFormat(formats, i + 1)
  }

  /** The first preferred entry if there is one, otherwise the first entry. */
  function SelectSurfaceFormat(formats: seq<SurfaceFormat>): (r: SurfaceFormat)
    requires |formats| > 0
    ensures r in formats
    ensures PreferredFormat in formats ==> r == PreferredFormat
    ensures PreferredFormat !in formats ==> r == formats[0]
  {
    match FindPreferredFormat(formats, 0)
    case Some(i) => formats[i]
    case None => formats[0]
  }

  /** The scan of the first `count` present modes for MAILBOX; FIFO, which
      every surface supports, is the fallback whether listed or not. */
  function SelectPresentMode(count: nat, modes: seq<nat>): (r: nat)
    requires count <= |modes|
    ensures r == PresentModeMailbox <==> PresentModeMailbox in modes[..count]
    ensures r != PresentModeMailbox ==> r == PresentModeFifo
    decreases count
  {
    if count == 0 then PresentModeFifo
    else if modes[0] == PresentModeMailbox then PresentModeMailbox
    else
      assert modes[..count] == [modes[0]] + modes[1..][..count - 1];
      SelectPresentMode(count - 1, modes[1..])
  }

  /** Distance between two integers. */
  function Distance(a: int, b: int): nat
  {
    if a <= b then b - a else a - b
  }

  /** `r` is the point of `[lo, hi]` closest to `x`. */
  predicate IsNearestWithin(r: int, x: int, lo: int, hi: int)
  {
    && lo <= r <= hi
    && forall w :: lo <= w <= hi ==> Distance(r, x) <= Distance(w, x)
  }

  /** `std::clamp(v, lo, hi)`, which demands `lo <= hi`. */
  function Clamp(v: U32, lo: U32, hi: U32): (r: U32)
    requires lo <= hi
    ensures IsNearestWithin(r, v, lo, hi)
    ensures lo <= v <= hi ==> r == v
  {
    if v < lo then lo else if hi < v then hi else v
  }

  /** The surface's current extent when it defines one (its width is not
      UINT32_MAX); otherwise the framebuffer size, converted to `uint32_t`
      and clamped into the surface's extent bounds. */
  function SelectExtent(caps: SurfaceCapabilities, framebufferWidth: int, framebufferHeight: int): (r: Extent2D)
    requires caps.currentExtent.width == U32Max ==>
               && caps.minImageExtent.width <= caps.maxImageExtent.width
               && caps.minImageExtent.height <= caps.maxImageExtent.height
    ensures caps.currentExtent.width != U32Max ==> r == caps.currentExtent
    ensures caps.currentExtent.width == U32Max ==>
              && IsNearestWithin(r.width, ToU32(framebufferWidth), caps.minImageExtent.width, caps.maxImageExtent.width)
              && IsNearestWithin(r.height, ToU32(framebufferHeight), caps.minImageExtent.height, caps.maxImageExtent.height)
  {
    if caps.currentExtent.width != U32Max then caps.currentExtent
    else
      Extent2D(
        Clamp(ToU32(framebufferWidth), caps.minImageExtent.width, caps.maxImageExtent.width),
        Clamp(ToU32(framebufferHeight), caps.minImageExtent.height, caps.maxImageExtent.height))
  }

  /** One image more than the minimum, computed in `uint32_t`, lowered to
      the maximum when the surface sets one (a maximum of 0 means none). */
  function SelectImageCount(caps: SurfaceCapabilities): (r: U32)
    ensures caps.maxImageCount > 0 ==> r <= caps.maxImageCount
    ensures caps.minImageCount < U32Max && (caps.maxImageCount == 0 || caps.maxImageCount >= caps.minImageCount) ==>
              r >= caps.minImageCount
    ensures caps.minImageCount < U32Max && (caps.maxImageCount == 0 || caps.minImageCount < caps.maxImageCount) ==>
              r == caps.minImageCount + 1
  {
    var count := ToU32(caps.minImageCount + 1);
    if caps.maxImageCount > 0 && count > caps.maxImageCount then caps.maxImageCount else count
  }

  /** Concurrent sharing across exactly the graphics and present families
      when they differ; exclusive ownership with no family list otherwise. */
  function SelectSharing(graphicsFamily: U32, presentFamily: U32): (r: SharingChoice)
    ensures r.mode == Concurrent <==> graphicsFamily != presentFamily
    ensures r.mode == Concurrent ==> r.queueFamilyIndices == [graphicsFamily, presentFamily]
    ensures r.mode == Exclusive ==> r.queueFamilyIndices == []
  {
    if graphicsFamily != presentFamily then SharingChoice(Concurrent, [graphicsFamily, presentFamily])
    else SharingChoice(Exclusive, [])
  }

  /** The create-info the backend fills and the swapchain record it keeps.
      `images` is what the presentation engine hands back for the new
      swapchain. As in the source, the present-mode scan runs over
      `formatCount` entries. */
  function CreateSwapchain(
    support: SwapchainSupport, graphicsFamily: U32, presentFamily: U32,
    framebufferWidth: int, framebufferHeight: int, images: seq<ImageHandle>): (r: SwapchainCreation)
    requires |support.formats| > 0
    requires support.formatCount <= |support.presentModes|
    requires support.capabilities.currentExtent.width == U32Max ==>
               && support.capabilities.minImageExtent.width <= support.capabilities.maxImageExtent.width
               && support.capabilities.minImageExtent.height <= support.capabilities.maxImageExtent.height
    ensures SurfaceFormat(r.createInfo.imageFormat, r.createInfo.imageColorSpace) in support.formats
    ensures PreferredFormat in support.formats ==>
              SurfaceFormat(r.createInfo.imageFormat, r.createInfo.imageColorSpace) == PreferredFormat
    ensures PreferredFormat !in support.formats ==>
              SurfaceFormat(r.createInfo.imageFormat, r.createInfo.imageColorSpace) == support.formats[0]
    ensures r.swapchain.imageFormat == r.createInfo.imageFormat
    ensures r.swapchain.extent == r.createInfo.imageExtent
    ensures r.swapchain.images == images
    ensures r.createInfo.presentMode == PresentModeMailbox <==>
              PresentModeMailbox in support.presentModes[..support.formatCount]
    ensures r.createInfo.presentMode in {PresentModeMailbox, PresentModeFifo}
    ensures support.capabilities.currentExtent.width != U32Max ==>
              r.createInfo.imageExtent == support.capabilities.currentExtent
    ensures support.capabilities.currentExtent.width == U32Max ==>
              && IsNearestWithin(r.createInfo.imageExtent.width, ToU32(framebufferWidth),
                                 support.capabilities.minImageExtent.width, support.capabilities.maxImageExtent.width)
              && IsNearestWithin(r.createInfo.imageExtent.height, ToU32(framebufferHeight),
                                 support.capabilities.minImageExtent.height, support.capabilities.maxImageExtent.height)
    ensures support.capabilities.maxImageCount > 0 ==> r.createInfo.minImageCount <= support.capabilities.maxImageCount
    ensures var caps := support.capabilities;
            caps.minImageCount < U32Max && (caps.maxImageCount == 0 || caps.maxImageCount >= caps.minImageCount) ==>
              r.createInfo.minImageCount >= caps.minImageCount
    ensures var caps := support.capabilities;
            caps.minImageCount < U32Max && (caps.maxImageCount == 0 || caps.minImageCount < caps.maxImageCount) ==>
              r.createInfo.minImageCount == caps.minImageCount + 1
    ensures r.createInfo.imageSharingMode == Concurrent <==> graphicsFamily != presentFamily
    ensures graphicsFamily != presentFamily ==> r.createInfo.queueFamilyIndices == [graphicsFamily, presentFamily]
    ensures graphicsFamily == presentFamily ==> r.createInfo.queueFamilyIndices == []
    ensures r.createInfo.imageArrayLayers == 1 && r.createInfo.clipped
    ensures r.createInfo.imageUsage == ImageUsageColorAttachment && r.createInfo.compositeAlpha == CompositeAlphaOpaque
    ensures r.createInfo.preTransform == support.capabilities.currentTransform
  {
    var format := SelectSurfaceFormat(support.formats);
    var presentMode := SelectPresentMode(support.formatCount, support.presentModes);
    var extent := SelectExtent(support.capabilities, framebufferWidth, framebufferHeight);
    var imageCount := SelectImageCount(support.capabilities);
    var sharing := SelectSharing(graphicsFamily, presentFamily);
    var createInfo := SwapchainCreateInfo(
      imageCount, format.format, format.colorSpace, extent, 1, ImageUsageColorAttachment,
      sharing.mode, sharing.queueFamilyIndices, support.capabilities.currentTransform,
      CompositeAlphaOpaque, presentMode, true);
    SwapchainCreation(createInfo, SwapchainState(images, format.format, extent))
  }

  /** The scan length the creator passes is the format count: with no
      formats counted, FIFO is chosen even when MAILBOX is listed. */
  lemma PresentModeFollowsFormatCount(support: SwapchainSupport, graphicsFamily: U32, presentFamily: U32,
                                      framebufferWidth: int, framebufferHeight: int, images: seq<ImageHandle>)
    requires |support.formats| > 0
    requires support.formatCount == 0
    requires support.capabilities.currentExtent.width == U32Max ==>
               && support.capabilities.minImageExtent.width <= support.capabilities.maxImageExtent.width
               && support.capabilities.minImageExtent.height <= support.capabilities.maxImageExtent.height
    ensures CreateSwapchain(support, graphicsFamily, presentFamily, framebufferWidth, framebufferHeight, images)
              .createInfo.presentMode == PresentModeFifo
  {
  }

  /** The `uint32_t` addition wraps: a surface reporting the largest
      minimum and no maximum yields an image count of zero. */
  lemma ImageCountWrapsAtU32Max(caps: SurfaceCapabilities)
    requires caps.minImageCount == U32Max && caps.maxImageCount == 0
    ensures SelectImageCount(caps) == 0
  {
  }

  /** When the surface defines its current extent, the framebuffer size
      does not matter. */
  lemma DefinedExtentIgnoresFramebuffer(caps: SurfaceCapabilities, w1: int, h1: int, w2: int, h2: int)
    requires caps.currentExtent.width != U32Max
    ensures SelectExtent(caps, w1, h1) == SelectExtent(caps, w2, h2)
  {
  }
}
