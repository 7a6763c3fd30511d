/**
  Values exchanged between Telescope's bring-up code and the Vulkan/SDL layer:
  the capabilities the platform reports, the create requests the code builds,
  and the events an instrumented backend records.
 */
module VkTypes {

  /** `uint32_t`. */
  type U32 = x: int | 0 <= x < 0x1_0000_0000

  const U32_MODULUS: int := 0x1_0000_0000

  /** A Vulkan or SDL object handle; VK_NULL_HANDLE is 0. */
  type Handle = nat

  const NULL_HANDLE: Handle := 0

  datatype Option<T> = None | Some(value: T)

  /** The C++ conversion of an `int` to `uint32_t` (reduction modulo 2^32). */
  function ToU32(x: int): (r: U32)
    ensures 0 <= x < U32_MODULUS ==> r == x
    ensures x == -1 ==> r == U32_MODULUS - 1
  {
    x % U32_MODULUS
  }

  /** VK_MAKE_VERSION from the Vulkan headers: major in bits 22.., minor in bits 12..21, patch below. */
  function MakeVersion(major: nat, minor: nat, patch: nat): (v: U32)
    requires major < 1024 && minor < 1024 && patch < 4096
    ensures v / 4194304 == major && (v / 4096) % 1024 == minor && v % 4096 == patch
  {
    major * 4194304 + minor * 4096 + patch
  }

  datatype Extent2D = Extent2D(width: U32, height: U32)

  /** VkSurfaceCapabilitiesKHR, the fields the bring-up code reads. */
  datatype SurfaceCapabilities = SurfaceCapabilities(
    minImageCount: U32,
    maxImageCount: U32,          // 0 means "no upper bound"
    minImageExtent: Extent2D,
    maxImageExtent: Extent2D,
    currentTransform: U32)

  /** A value-initialised vk::SurfaceCapabilitiesKHR. */
  const ZERO_CAPABILITIES: SurfaceCapabilities :=
    SurfaceCapabilities(0, 0, Extent2D(0, 0), Extent2D(0, 0), 0)

  datatype SurfaceFormat = SurfaceFormat(format: int, colorSpace: int)

  /**
    One entry of getQueueFamilyProperties(), together with what
    vkGetPhysicalDeviceSurfaceSupportKHR answers for it and the window surface.
   */
  datatype QueueFamily = QueueFamily(queueCount: U32, queueFlags: bv32, presentSupport: bool)

  /** What the driver reports about one physical device for the window surface. */
  datatype PhysicalDevice = PhysicalDevice(
    queueFamilies: seq<QueueFamily>,
    capabilities: SurfaceCapabilities,
    surfaceFormats: seq<SurfaceFormat>)

  /**
    Everything the foreign layer answers during bring-up: the window title, the
    instance extensions SDL requires, the enumerated physical devices, the
    drawable size of the window and the number of images the driver puts into
    a swapchain.
   */
  datatype Platform = Platform(
    windowName: string,
    windowExtensions: seq<string>,
    devices: seq<PhysicalDevice>,
    drawableWidth: U32,
    drawableHeight: U32,
    driverImageCount: nat)

  /** The bring-up code indexes element 0 of both lists without checking. */
  predicate Supported(p: Platform) {
    |p.devices| > 0 && |p.devices[0].surfaceFormats| > 0
  }

  datatype InstanceCreateInfo = InstanceCreateInfo(
    applicationName: string,
    applicationVersion: U32,
    engineName: string,
    engineVersion: U32,
    apiVersion: U32,
    enabledLayers: seq<string>,
    enabledExtensions: seq<string>)

  datatype DeviceQueueCreateInfo = DeviceQueueCreateInfo(queueFamilyIndex: U32, queueCount: U32)

  datatype DeviceCreateInfo = DeviceCreateInfo(
    queueCreateInfos: seq<DeviceQueueCreateInfo>,
    enabledLayers: seq<string>,
    enabledExtensions: seq<string>,
    samplerAnisotropy: bool)

  datatype SharingMode = Exclusive | Concurrent

  datatype PresentMode = Immediate | Mailbox | Fifo | FifoRelaxed

  datatype CompositeAlpha = Opaque | PreMultiplied | PostMultiplied | Inherit

  datatype ImageUsage = ColorAttachment

  datatype SwapchainCreateInfo = SwapchainCreateInfo(
    surface: Handle,
    minImageCount: U32,
    imageFormat: int,
    imageColorSpace: int,
    imageExtent: Extent2D,
    imageArrayLayers: nat,
    imageUsage: ImageUsage,
    imageSharingMode: SharingMode,
    queueFamilyIndices: seq<U32>,   // pQueueFamilyIndices[0 .. queueFamilyIndexCount)
    preTransform: U32,
    compositeAlpha: CompositeAlpha,
    presentMode: PresentMode,
    clipped: bool)

  datatype ImageViewType = View2D

  datatype ImageAspect = ColorAspect

  datatype ImageViewCreateInfo = ImageViewCreateInfo(
    image: Handle,
    viewType: ImageViewType,
    format: int,
    aspectMask: ImageAspect,
    baseMipLevel: nat,
    levelCount: nat,
    baseArrayLayer: nat,
    layerCount: nat)

  /** A queue fetched with getQueue(family, index) from a device. */
  datatype Queue = NoQueue | Queue(device: Handle, familyIndex: U32, queueIndex: nat)

  /** The kinds of object the bring-up code creates and destroys. */
  datatype Kind = Instance | Surface | Device | Swapchain | ImageView | Semaphore

  /** A create call, with the request it was given. */
  datatype Request =
    | InstanceRequest(instanceInfo: InstanceCreateInfo)
    | SurfaceRequest(instance: Handle)
    | DeviceRequest(deviceInfo: DeviceCreateInfo)
    | SwapchainRequest(swapchainInfo: SwapchainCreateInfo)
    | ImageViewRequest(viewInfo: ImageViewCreateInfo)
    | SemaphoreRequest

  function KindOf(r: Request): Kind {
    match r
    case InstanceRequest(_) => Instance
    case SurfaceRequest(_) => Surface
    case DeviceRequest(_) => Device
    case SwapchainRequest(_) => Swapchain
    case ImageViewRequest(_) => ImageView
    case SemaphoreRequest => Semaphore
  }

  /** What the instrumented backend records, in call order. */
  datatype Event = Create(request: Request, handle: Handle) | Destroy(kind: Kind, handle: Handle)
}
