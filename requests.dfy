/**
  The create requests Telescope's bring-up code builds before calling into
  Vulkan: instance, device (with its queue list), swapchain (extent clamping,
  image count, sharing mode) and per-image views.
 */
module Requests {
  import opened VkTypes

  /** VK_KHR_SWAPCHAIN_EXTENSION_NAME. */
  const SWAPCHAIN_EXTENSION_NAME: string := "VK_KHR_swapchain"

  /** The engine name the instance announces. */
  const ENGINE_NAME: string := "Telescope"

  /** The application info and extension list of TS_VkCreateInstance: no layers, SDL's extensions. */
  function InstanceRequestFor(windowName: string, extensions: seq<string>): (info: InstanceCreateInfo) {
    InstanceCreateInfo(windowName, MakeVersion(0, 1, 0), ENGINE_NAME, MakeVersion(0, 1, 0),
                       MakeVersion(1, 0, 0), [], extensions)
  }

  /**
    The device request of TS_VkCreateDevice: one queue from the graphics family
    and one from the present family, in that order and never merged, the
    swapchain extension and anisotropic sampling. The `int` indices are passed
    as `uint32_t`.
   */
  function DeviceRequestFor(graphicsIndex: int, presentIndex: int): (info: DeviceCreateInfo) {
    DeviceCreateInfo(
      [DeviceQueueCreateInfo(ToU32(graphicsIndex), 1), DeviceQueueCreateInfo(ToU32(presentIndex), 1)],
      [],
      [SWAPCHAIN_EXTENSION_NAME],
      true)
  }

  /** The CLAMP macro: lo below the range, hi above it, x otherwise. */
  function Clamp(x: int, lo: int, hi: int): (r: int)
    ensures r == x || r == lo || r == hi
    ensures lo <= hi ==> lo <= r <= hi
    ensures lo <= x <= hi ==> r == x
    ensures x < lo ==> r == lo
    ensures lo <= x && hi < x ==> r == hi
  {
    if x < lo then lo else if x > hi then hi else x
  }

  /**
    The swapchain extent: the drawable size clamped to the surface's extent
    range, width and height independently of each other.
   */
  function SwapchainExtent(width: U32, height: U32, caps: SurfaceCapabilities): (e: Extent2D)
    ensures caps.minImageExtent.width <= caps.maxImageExtent.width ==>
              caps.minImageExtent.width <= e.width <= caps.maxImageExtent.width
    ensures caps.minImageExtent.height <= caps.maxImageExtent.height ==>
              caps.minImageExtent.height <= e.height <= caps.maxImageExtent.height
    ensures caps.minImageExtent.width <= width <= caps.maxImageExtent.width ==> e.width == width
    ensures caps.minImageExtent.height <= height <= caps.maxImageExtent.height ==> e.height == height
    ensures width < caps.minImageExtent.width ==> e.width == caps.minImageExtent.width
    ensures height < caps.minImageExtent.height ==> e.height == caps.minImageExtent.height
    ensures caps.minImageExtent.width <= width && caps.maxImageExtent.width < width ==>
              e.width == caps.maxImageExtent.width
    ensures caps.minImageExtent.height <= height && caps.maxImageExtent.height < height ==>
              e.height == caps.maxImageExtent.height
  {
    Extent2D(Clamp(width, caps.minImageExtent.width, caps.maxImageExtent.width),
             Clamp(height, caps.minImageExtent.height, caps.maxImageExtent.height))
  }

  /**
    The image count TS_VkCreateSwapchain computes: minImageCount + 1 in
    `uint32_t` arithmetic, lowered to maxImageCount when that bound is set and
    exceeded.
   */
  function ImageCount(caps: SurfaceCapabilities): (n: U32)
    ensures caps.maxImageCount > 0 ==> n <= caps.maxImageCount
    ensures (caps.minImageCount + 1 < U32_MODULUS &&
             (caps.maxImageCount == 0 || caps.minImageCount + 1 <= caps.maxImageCount)) ==> n == caps.minImageCount + 1
    ensures (caps.minImageCount + 1 < U32_MODULUS && caps.maxImageCount > 0 &&
             caps.minImageCount + 1 > caps.maxImageCount) ==> n == caps.maxImageCount
    ensures caps.minImageCount + 1 == U32_MODULUS ==> n == 0
  {
    var imageCount := (caps.minImageCount + 1) % U32_MODULUS;
    if caps.maxImageCount > 0 && imageCount > caps.maxImageCount then caps.maxImageCount else imageCount
  }

  /**
    Given consistent capabilities (maxImageCount is 0 or at least
    minImageCount, and minImageCount is not the largest uint32), the computed
    count lies within the platform's bounds.
   */
  lemma ImageCountWithinBounds(caps: SurfaceCapabilities)
    requires caps.maxImageCount == 0 || caps.minImageCount <= caps.maxImageCount
    requires caps.minImageCount + 1 < U32_MODULUS
    ensures caps.minImageCount <= ImageCount(caps)
    ensures caps.maxImageCount > 0 ==> ImageCount(caps) <= caps.maxImageCount
  {
  }

  /**
    The swapchain request of TS_VkCreateSwapchain. As in the source, the image
    count it asks for is the surface's minImageCount, not ImageCount(caps).
   */
  function SwapchainRequestFor(surface: Handle, caps: SurfaceCapabilities, format: SurfaceFormat,
                               extent: Extent2D, graphicsIndex: int, presentIndex: int): (info: SwapchainCreateInfo)
  {
    var concurrent := graphicsIndex != presentIndex;
    SwapchainCreateInfo(
      surface,
      caps.minImageCount,
      format.format,
      format.colorSpace,
      extent,
      1,
      ColorAttachment,
      if concurrent then Concurrent else Exclusive,
      if concurrent then [ToU32(graphicsIndex), ToU32(presentIndex)] else [],
      caps.currentTransform,
      Opaque,
      Fifo,
      true)
  }

  /**
    Sharing mode: concurrent across exactly the two families (graphics, then
    present) when their indices differ, exclusive with no family list
    otherwise. Present mode is always FIFO, composite alpha always opaque,
    images are always single-layer colour attachments and clipped.
   */
  lemma SwapchainRequestPolicy(surface: Handle, caps: SurfaceCapabilities, format: SurfaceFormat,
                               extent: Extent2D, g: int, p: int)
    requires -1 <= g < U32_MODULUS - 1 && -1 <= p < U32_MODULUS - 1
    ensures var info := SwapchainRequestFor(surface, caps, format, extent, g, p);
      && (info.imageSharingMode == Concurrent <==> g != p)
      && (info.imageSharingMode == Concurrent ==>
            |info.queueFamilyIndices| == 2 && info.queueFamilyIndices[0] != info.queueFamilyIndices[1] &&
            info.queueFamilyIndices == [ToU32(g), ToU32(p)])
      && (info.imageSharingMode == Exclusive ==> info.queueFamilyIndices == [])
      && info.presentMode == Fifo && info.compositeAlpha == Opaque
      && info.imageArrayLayers == 1 && info.imageUsage == ColorAttachment && info.clipped
      && info.surface == surface && info.imageExtent == extent
      && info.imageFormat == format.format && info.imageColorSpace == format.colorSpace
      && info.preTransform == caps.currentTransform
  {
  }

  /**
    The computed image count is not what the request carries: whenever the
    count is not capped, the request asks for one image fewer than computed.
   */
  lemma RequestIgnoresImageCount(surface: Handle, caps: SurfaceCapabilities, format: SurfaceFormat,
                                 extent: Extent2D, g: int, p: int)
    requires caps.minImageCount + 1 < U32_MODULUS
    requires caps.maxImageCount == 0 || caps.minImageCount + 1 <= caps.maxImageCount
    ensures SwapchainRequestFor(surface, caps, format, extent, g, p).minImageCount == caps.minImageCount
    ensures SwapchainRequestFor(surface, caps, format, extent, g, p).minImageCount + 1 == ImageCount(caps)
  {
  }

  /**
    The device request always holds exactly two single-queue infos, graphics
    first and present second, even when both name the same family.
   */
  lemma DeviceRequestShape(g: int, p: int)
    ensures var info := DeviceRequestFor(g, p);
      && |info.queueCreateInfos| == 2
      && info.queueCreateInfos[0].queueFamilyIndex == ToU32(g) && info.queueCreateInfos[0].queueCount == 1
      && info.queueCreateInfos[1].queueFamilyIndex == ToU32(p) && info.queueCreateInfos[1].queueCount == 1
      && (g == p ==> info.queueCreateInfos[0] == info.queueCreateInfos[1])
      && info.enabledExtensions == [SWAPCHAIN_EXTENSION_NAME] && info.enabledLayers == []
      && info.samplerAnisotropy
  {
  }

  /** One 2D colour view of a swapchain image: full single mip level and single layer. */
  function ViewRequestFor(image: Handle, format: int): (info: ImageViewCreateInfo) {
    ImageViewCreateInfo(image, View2D, format, ColorAspect, 0, 1, 0, 1)
  }
}
