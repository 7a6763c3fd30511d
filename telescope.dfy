/**
  Telescope's Vulkan bring-up and teardown. The process-wide globals of the
  renderer are the fields of `Graphics`; the Vulkan/SDL layer is `Backend`,
  which answers queries from a fixed `Platform` description, hands out fresh
  handles and records every create and destroy call in an event log.
 */
module Telescope {
  import opened VkTypes
  import opened QueueFamilyScan
  import opened Requests

  /** `count` consecutive handles starting at `start`. */
  function Range(start: nat, count: nat): (r: seq<Handle>)
    ensures |r| == count
  {
    seq(count, k requires 0 <= k < count => start + k)
  }

  /** The create events of one image view per image, views numbered from `first`. */
  function ViewCreates(images: seq<Handle>, format: int, first: nat): (events: seq<Event>)
    ensures |events| == |images|
  {
    seq(|images|, k requires 0 <= k < |images| => Create(ImageViewRequest(ViewRequestFor(images[k], format)), first + k))
  }

  /** The destroy events of a list of image views, in list order. */
  function ViewDestroys(views: seq<Handle>): (events: seq<Event>)
    ensures |events| == |views|
  {
    seq(|views|, k requires 0 <= k < |views| => Destroy(ImageView, views[k]))
  }

  /** The Vulkan/SDL layer, seen through the calls the bring-up code makes. */
  class Backend {
    const platform: Platform
    var log: seq<Event>
    var nextHandle: nat

    constructor (platform: Platform)
      ensures this.platform == platform && log == [] && nextHandle == 1
    {
      this.platform := platform;
      log := [];
      nextHandle := 1;
    }

    /** A create call: returns a fresh handle and records it with its request. */
    method CreateObject(request: Request) returns (h: Handle)
      modifies this
      ensures h == old(nextHandle) && nextHandle == old(nextHandle) + 1
      ensures log == old(log) + [Create(request, h)]
    {
      h := nextHandle;
      nextHandle := nextHandle + 1;
      log := log + [Create(request, h)];
    }

    /** A destroy call, recorded with the kind of object and its handle. */
    method DestroyObject(kind: Kind, h: Handle)
      modifies this`log
      ensures log == old(log) + [Destroy(kind, h)]
    {
      log := log + [Destroy(kind, h)];
    }

    /** getSwapchainImagesKHR: the driver's images, which the application does not own. */
    method GetSwapchainImages(swapchain: Handle) returns (images: seq<Handle>)
      modifies this`nextHandle
      ensures images == Range(old(nextHandle), platform.driverImageCount)
      ensures nextHandle == old(nextHandle) + platform.driverImageCount
    {
      images := Range(nextHandle, platform.driverImageCount);
      nextHandle := nextHandle + platform.driverImageCount;
    }
  }

  /** The renderer's globals and the TS_Vk* steps that assign them. */
  class Graphics {
    const backend: Backend
    var inst: Handle
    var srf: Handle
    var pdev: Option<PhysicalDevice>
    var dev: Handle
    var graphicsQueueFamilyIndex: int
    var presentQueueFamilyIndex: int
    var gq: Queue
    var pq: Queue
    var swapchain: Handle
    var surfaceCapabilities: SurfaceCapabilities
    var surfaceFormat: SurfaceFormat
    var swapchainSize: Extent2D
    var swapchainImages: seq<Handle>
    var swapchainImageCount: U32
    var swapchainImageViews: seq<Handle>
    var imageAvailableSemaphore: Handle
    var renderingFinishedSemaphore: Handle

    /** The globals as the program starts: null handles, both family indices -1, empty lists. */
    constructor (backend: Backend)
      ensures this.backend == backend
      ensures inst == srf == dev == swapchain == NULL_HANDLE
      ensures imageAvailableSemaphore == renderingFinishedSemaphore == NULL_HANDLE
      ensures pdev == None && gq == NoQueue && pq == NoQueue
      ensures graphicsQueueFamilyIndex == -1 && presentQueueFamilyIndex == -1
      ensures surfaceCapabilities == ZERO_CAPABILITIES && surfaceFormat == SurfaceFormat(0, 0)
      ensures swapchainSize == Extent2D(0, 0) && swapchainImageCount == 0
      ensures swapchainImages == [] && swapchainImageViews == []
    {
      this.backend := backend;
      inst, srf, dev, swapchain := NULL_HANDLE, NULL_HANDLE, NULL_HANDLE, NULL_HANDLE;
      imageAvailableSemaphore, renderingFinishedSemaphore := NULL_HANDLE, NULL_HANDLE;
      pdev, gq, pq := None, NoQueue, NoQueue;
      graphicsQueueFamilyIndex, presentQueueFamilyIndex := -1, -1;
      surfaceCapabilities, surfaceFormat := ZERO_CAPABILITIES, SurfaceFormat(0, 0);
      swapchainSize, swapchainImageCount := Extent2D(0, 0), 0;
      swapchainImages, swapchainImageViews := [], [];
    }

    method CreateInstance()
      modifies this`inst, backend
      ensures inst == old(backend.nextHandle) && backend.nextHandle == old(backend.nextHandle) + 1
      ensures backend.log == old(backend.log) +
        [Create(InstanceRequest(InstanceRequestFor(backend.platform.windowName, backend.platform.windowExtensions)), inst)]
    {
      var extensionNames := backend.platform.windowExtensions;
      var ici := InstanceRequestFor(backend.platform.windowName, extensionNames);
      inst := backend.CreateObject(InstanceRequest(ici));
    }

    method CreateSurface()
      modifies this`srf, backend
      ensures srf == old(backend.nextHandle) && backend.nextHandle == old(backend.nextHandle) + 1
      ensures backend.log == old(backend.log) + [Create(SurfaceRequest(inst), srf)]
    {
      srf := backend.CreateObject(SurfaceRequest(inst));
    }

    /** The first enumerated device is taken; enumeration must not be empty. */
    method SelectPhysicalDevice()
      requires |backend.platform.devices| > 0
      modifies this`pdev
      ensures pdev == Some(backend.platform.devices[0])
    {
      pdev := Some(backend.platform.devices[0]);
    }

    /** Runs the scan over the selected device's families and stores both results. */
    method SelectQueueFamily()
      requires pdev.Some?
      modifies this`graphicsQueueFamilyIndex, this`presentQueueFamilyIndex
      ensures (graphicsQueueFamilyIndex, presentQueueFamilyIndex) == ScanResult(pdev.value.queueFamilies)
    {
      var graphicIndex, presentIndex := ScanQueueFamilies(pdev.value.queueFamilies);
      graphicsQueueFamilyIndex := graphicIndex;
      presentQueueFamilyIndex := presentIndex;
    }

    /** Creates the device and fetches queue 0 of the graphics and of the present family. */
    method CreateDevice()
      modifies this`dev, this`gq, this`pq, backend
      ensures dev == old(backend.nextHandle) && backend.nextHandle == old(backend.nextHandle) + 1
      ensures backend.log == old(backend.log) +
        [Create(DeviceRequest(DeviceRequestFor(graphicsQueueFamilyIndex, presentQueueFamilyIndex)), dev)]
      ensures gq == Queue(dev, ToU32(graphicsQueueFamilyIndex), 0)
      ensures pq == Queue(dev, ToU32(presentQueueFamilyIndex), 0)
    {
      var deviceCreateInfo := DeviceRequestFor(graphicsQueueFamilyIndex, presentQueueFamilyIndex);
      dev := backend.CreateObject(DeviceRequest(deviceCreateInfo));
      gq := Queue(dev, ToU32(graphicsQueueFamilyIndex), 0);
      pq := Queue(dev, ToU32(presentQueueFamilyIndex), 0);
    }

    /**
      Reads the surface's capabilities and first format, clamps the drawable
      size, computes (and drops) an image count, creates the swapchain and
      fetches its images.
     */
    method CreateSwapchain()
      requires pdev.Some? && |pdev.value.surfaceFormats| > 0
      modifies this`surfaceCapabilities, this`surfaceFormat, this`swapchainSize, this`swapchain
      modifies this`swapchainImages, backend
      ensures surfaceCapabilities == pdev.value.capabilities
      ensures surfaceFormat == pdev.value.surfaceFormats[0]
      ensures swapchainSize ==
        SwapchainExtent(backend.platform.drawableWidth, backend.platform.drawableHeight, surfaceCapabilities)
      ensures swapchain == old(backend.nextHandle)
      ensures backend.log == old(backend.log) + [Create(SwapchainRequest(SwapchainRequestFor(
        srf, surfaceCapabilities, surfaceFormat, swapchainSize, graphicsQueueFamilyIndex, presentQueueFamilyIndex)), swapchain)]
      ensures swapchainImages == Range(swapchain + 1, backend.platform.driverImageCount)
      ensures backend.nextHandle == swapchain + 1 + backend.platform.driverImageCount
    {
      surfaceCapabilities := pdev.value.capabilities;
      var surfaceFormats := pdev.value.surfaceFormats;
      surfaceFormat := surfaceFormats[0];
      var width, height := backend.platform.drawableWidth, backend.platform.drawableHeight;
      width := Clamp(width, surfaceCapabilities.minImageExtent.width, surfaceCapabilities.maxImageExtent.width);
      height := Clamp(height, surfaceCapabilities.minImageExtent.height, surfaceCapabilities.maxImageExtent.height);
      swapchainSize := Extent2D(width, height);
      var imageCount := ImageCount(surfaceCapabilities);  // computed, never passed on
      var createInfo := SwapchainRequestFor(srf, surfaceCapabilities, surfaceFormat, swapchainSize,
                                            graphicsQueueFamilyIndex, presentQueueFamilyIndex);
      swapchain := backend.CreateObject(SwapchainRequest(createInfo));
      swapchainImages := backend.GetSwapchainImages(swapchain);
    }

    /** Appends one view per swapchain image, in image order, to the view list. */
    method CreateImageViews()
      modifies this`swapchainImageViews, backend
      ensures swapchainImageViews == old(swapchainImageViews) + Range(old(backend.nextHandle), |swapchainImages|)
      ensures backend.nextHandle == old(backend.nextHandle) + |swapchainImages|
      ensures backend.log == old(backend.log) + ViewCreates(swapchainImages, surfaceFormat.format, old(backend.nextHandle))
    {
      var i := 0;
      while i < |swapchainImages|
        invariant 0 <= i <= |swapchainImages|
        invariant swapchainImageViews == old(swapchainImageViews) + Range(old(backend.nextHandle), i)
        invariant backend.nextHandle == old(backend.nextHandle) + i
        invariant backend.log == old(backend.log) + ViewCreates(swapchainImages[..i], surfaceFormat.format, old(backend.nextHandle))
      {
        var viewInfo := ViewRequestFor(swapchainImages[i], surfaceFormat.format);
        var view := backend.CreateObject(ImageViewRequest(viewInfo));
        swapchainImageViews := swapchainImageViews + [view];
        assert ViewCreates(swapchainImages[..i + 1], surfaceFormat.format, old(backend.nextHandle)) ==
               ViewCreates(swapchainImages[..i], surfaceFormat.format, old(backend.nextHandle)) + [Create(ImageViewRequest(viewInfo), view)];
        i := i + 1;
      }
      assert swapchainImages[..i] == swapchainImages;
    }

    /** The image-available semaphore first, then the rendering-finished one. */
    method CreateSemaphores()
      modifies this`imageAvailableSemaphore, this`renderingFinishedSemaphore, backend
      ensures imageAvailableSemaphore == old(backend.nextHandle)
      ensures renderingFinishedSemaphore == old(backend.nextHandle) + 1
      ensures backend.nextHandle == old(backend.nextHandle) + 2
      ensures backend.log == old(backend.log) +
        [Create(SemaphoreRequest, imageAvailableSemaphore), Create(SemaphoreRequest, renderingFinishedSemaphore)]
    {
      imageAvailableSemaphore := backend.CreateObject(SemaphoreRequest);
      renderingFinishedSemaphore := backend.CreateObject(SemaphoreRequest);
    }

    /** The first part of TS_VkInit: instance, surface, physical device, queue families, device. */
    method BringUpDevice()
      requires Supported(backend.platform)
      modifies this`inst, this`srf, this`pdev, this`graphicsQueueFamilyIndex, this`presentQueueFamilyIndex
      modifies this`dev, this`gq, this`pq, backend
      ensures var p := backend.platform; var d := p.devices[0]; var h0 := old(backend.nextHandle);
        var (g, pr) := ScanResult(d.queueFamilies);
        && backend.log == old(backend.log) + InitHead(p, h0)[..3]
        && backend.nextHandle == h0 + 3
        && inst == h0 && srf == h0 + 1 && dev == h0 + 2
        && pdev == Some(d)
        && graphicsQueueFamilyIndex == g && presentQueueFamilyIndex == pr
        && gq == Queue(h0 + 2, ToU32(g), 0) && pq == Queue(h0 + 2, ToU32(pr), 0)
    {
      CreateInstance();
      CreateSurface();
      SelectPhysicalDevice();
      SelectQueueFamily();
      CreateDevice();
    }

    /** The second part of TS_VkInit: swapchain and its images, image views. */
    method BringUpSwapchain()
      requires Supported(backend.platform) && pdev == Some(backend.platform.devices[0])
      modifies this`surfaceCapabilities, this`surfaceFormat, this`swapchainSize, this`swapchain
      modifies this`swapchainImages, this`swapchainImageViews, backend
      ensures var p := backend.platform; var d := p.devices[0]; var h0 := old(backend.nextHandle);
        var n := p.driverImageCount;
        && backend.log == old(backend.log) + [Create(SwapchainRequest(SwapchainRequestFor(
             srf, d.capabilities, d.surfaceFormats[0], swapchainSize, graphicsQueueFamilyIndex, presentQueueFamilyIndex)), h0)]
           + ViewCreates(Range(h0 + 1, n), d.surfaceFormats[0].format, h0 + 1 + n)
        && backend.nextHandle == h0 + 1 + 2 * n
        && swapchain == h0
        && surfaceCapabilities == d.capabilities && surfaceFormat == d.surfaceFormats[0]
        && swapchainSize == SwapchainExtent(p.drawableWidth, p.drawableHeight, d.capabilities)
        && swapchainImages == Range(h0 + 1, n)
        && swapchainImageViews == old(swapchainImageViews) + Range(h0 + 1 + n, n)
    {
      CreateSwapchain();
      CreateImageViews();
    }

    method SetupDepthStencil() { }

    method CreateRenderPass() { }

    method CreateFramebuffers() { }

    method CreateCommandPool() { }

    method CreateCommandBuffers() { }

    method CreateFences() { }

    /** The last part of TS_VkInit: the empty render-setup steps, the two semaphores, the (empty) fences. */
    method BringUpFrameResources()
      modifies this`imageAvailableSemaphore, this`renderingFinishedSemaphore, backend
      ensures imageAvailableSemaphore == old(backend.nextHandle)
      ensures renderingFinishedSemaphore == old(backend.nextHandle) + 1
      ensures backend.nextHandle == old(backend.nextHandle) + 2
      ensures backend.log == old(backend.log) +
        [Create(SemaphoreRequest, imageAvailableSemaphore), Create(SemaphoreRequest, renderingFinishedSemaphore)]
    {
      SetupDepthStencil();
      CreateRenderPass();
      CreateFramebuffers();
      CreateCommandPool();
      CreateCommandBuffers();
      CreateSemaphores();
      CreateFences();
    }

    /**
      TS_VkInit: the fourteen bring-up steps in source order. They are grouped
      into the three parts above only to keep each proof small; the grouping
      changes nothing in what is called or in which order.
     */
    method Init()
      requires Supported(backend.platform)
      modifies this, backend
      ensures var p := backend.platform; var d := p.devices[0]; var h0 := old(backend.nextHandle);
        var n := p.driverImageCount; var (g, pr) := ScanResult(d.queueFamilies);
        && backend.log == old(backend.log) + InitEvents(p, h0)
        && backend.nextHandle == h0 + 6 + 2 * n
        && inst == h0 && srf == h0 + 1 && dev == h0 + 2 && swapchain == h0 + 3
        && pdev == Some(d)
        && graphicsQueueFamilyIndex == g && presentQueueFamilyIndex == pr
        && gq == Queue(h0 + 2, ToU32(g), 0) && pq == Queue(h0 + 2, ToU32(pr), 0)
        && surfaceCapabilities == d.capabilities && surfaceFormat == d.surfaceFormats[0]
        && swapchainSize == SwapchainExtent(p.drawableWidth, p.drawableHeight, d.capabilities)
        && swapchainImages == Range(h0 + 4, n)
        && swapchainImageViews == old(swapchainImageViews) + Range(h0 + 4 + n, n)
        && imageAvailableSemaphore == h0 + 4 + 2 * n && renderingFinishedSemaphore == h0 + 5 + 2 * n
        && swapchainImageCount == old(swapchainImageCount)
    {
      BringUpDevice();
      BringUpSwapchain();
      BringUpFrameResources();
    }

    /** Destroys the two semaphores in the order they were created. */
    method DestroySemaphores()
      modifies backend`log
      ensures backend.log == old(backend.log) +
        [Destroy(Semaphore, imageAvailableSemaphore), Destroy(Semaphore, renderingFinishedSemaphore)]
    {
      backend.DestroyObject(Semaphore, imageAvailableSemaphore);
      backend.DestroyObject(Semaphore, renderingFinishedSemaphore);
    }

    method DestroyFences() { }

    method FreeCommandBuffers() { }

    method DestroyCommandPool() { }

    method FreeFramebuffers() { }

    method DestroyRenderPass() { }

    method TeardownDepthStencil() { }

    /** Destroys every view in list order, then empties the list. */
    method DestroyImageViews()
      modifies this`swapchainImageViews, backend`log
      ensures swapchainImageViews == []
      ensures backend.log == old(backend.log) + ViewDestroys(old(swapchainImageViews))
    {
      var views := swapchainImageViews;
      var k := 0;
      while k < |views|
        invariant 0 <= k <= |views|
        invariant backend.log == old(backend.log) + ViewDestroys(views[..k])
      {
        backend.DestroyObject(ImageView, views[k]);
        assert ViewDestroys(views[..k + 1]) == ViewDestroys(views[..k]) + [Destroy(ImageView, views[k])];
        k := k + 1;
      }
      assert views[..k] == views;
      swapchainImageViews := [];
    }

    method DestroySwapchain()
      modifies backend`log
      ensures backend.log == old(backend.log) + [Destroy(Swapchain, swapchain)]
    {
      backend.DestroyObject(Swapchain, swapchain);
    }

    /** Resets both family indices to -1, then destroys the device. */
    method DestroyDevice()
      modifies this`graphicsQueueFamilyIndex, this`presentQueueFamilyIndex, backend`log
      ensures graphicsQueueFamilyIndex == -1 && presentQueueFamilyIndex == -1
      ensures backend.log == old(backend.log) + [Destroy(Device, dev)]
    {
      graphicsQueueFamilyIndex := -1;
      presentQueueFamilyIndex := -1;
      backend.DestroyObject(Device, dev);
    }

    method FreeSurface()
      modifies backend`log
      ensures backend.log == old(backend.log) + [Destroy(Surface, srf)]
    {
      backend.DestroyObject(Surface, srf);
    }

    method DestroyInstance()
      modifies backend`log
      ensures backend.log == old(backend.log) + [Destroy(Instance, inst)]
    {
      backend.DestroyObject(Instance, inst);
    }

    /** TS_VkQuit: the twelve teardown steps in source order. */
    method Quit()
      modifies this`swapchainImageViews, this`graphicsQueueFamilyIndex, this`presentQueueFamilyIndex, backend`log
      ensures backend.log == old(backend.log) + QuitEvents(imageAvailableSemaphore, renderingFinishedSemaphore,
        old(swapchainImageViews), swapchain, dev, srf, inst)
      ensures swapchainImageViews == []
      ensures graphicsQueueFamilyIndex == -1 && presentQueueFamilyIndex == -1
    {
      DestroyFences();
      DestroySemaphores();
      FreeCommandBuffers();
      DestroyCommandPool();
      FreeFramebuffers();
      DestroyRenderPass();
      TeardownDepthStencil();
      DestroyImageViews();
      DestroySwapchain();
      DestroyDevice();
      FreeSurface();
      DestroyInstance();
    }
  }

  /** The four create events of TS_VkInit before the image views: instance, surface, device, swapchain. */
  function InitHead(p: Platform, h0: nat): seq<Event>
    requires Supported(p)
  {
    var d := p.devices[0];
    var (g, pr) := ScanResult(d.queueFamilies);
    var extent := SwapchainExtent(p.drawableWidth, p.drawableHeight, d.capabilities);
    [Create(InstanceRequest(InstanceRequestFor(p.windowName, p.windowExtensions)), h0),
     Create(SurfaceRequest(h0), h0 + 1),
     Create(DeviceRequest(DeviceRequestFor(g, pr)), h0 + 2),
     Create(SwapchainRequest(SwapchainRequestFor(h0 + 1, d.capabilities, d.surfaceFormats[0], extent, g, pr)), h0 + 3)]
  }

  /** The events TS_VkInit records, when the backend's next handle is h0. */
  function InitEvents(p: Platform, h0: nat): seq<Event>
    requires Supported(p)
  {
    var n := p.driverImageCount;
    InitHead(p, h0)
    + ViewCreates(Range(h0 + 4, n), p.devices[0].surfaceFormats[0].format, h0 + 4 + n)
    + [Create(SemaphoreRequest, h0 + 4 + 2 * n), Create(SemaphoreRequest, h0 + 5 + 2 * n)]
  }

  /** The events TS_VkQuit records for the given handles. */
  function QuitEvents(imageAvailable: Handle, renderingFinished: Handle, views: seq<Handle>,
                      swapchain: Handle, dev: Handle, srf: Handle, inst: Handle): seq<Event>
  {
    [Destroy(Semaphore, imageAvailable), Destroy(Semaphore, renderingFinished)]
    + ViewDestroys(views)
    + [Destroy(Swapchain, swapchain), Destroy(Device, dev), Destroy(Surface, srf), Destroy(Instance, inst)]
  }

  /** The whole log of a process that initialises the renderer and shuts it down again. */
  function LifecycleLog(p: Platform): seq<Event>
    requires Supported(p)
  {
    var n := p.driverImageCount;
    InitEvents(p, 1) + QuitEvents(5 + 2 * n, 6 + 2 * n, Range(5 + n, n), 4, 3, 2, 1)
  }

  /** TS_Init's Vulkan part followed by TS_Quit's, on a fresh backend and fresh globals. */
  method Lifecycle(p: Platform) returns (log: seq<Event>)
    requires Supported(p)
    ensures log == LifecycleLog(p)
  {
    var backend := new Backend(p);
    var graphics := new Graphics(backend);
    graphics.Init();
    ghost var n := p.driverImageCount;
    ghost var initLog := backend.log;
    ghost var quitLog := QuitEvents(graphics.imageAvailableSemaphore, graphics.renderingFinishedSemaphore,
      graphics.swapchainImageViews, graphics.swapchain, graphics.dev, graphics.srf, graphics.inst);
    assert initLog == InitEvents(p, 1);
    assert quitLog == QuitEvents(5 + 2 * n, 6 + 2 * n, Range(5 + n, n), 4, 3, 2, 1);
    graphics.Quit();
    log := backend.log;
    assert log == initLog + quitLog;
  }

  /** An object created or destroyed: its kind and handle. */
  datatype Resource = Resource(kind: Kind, handle: Handle)

  /** The object an event creates or destroys. */
  function ResourceOf(e: Event): Resource {
    match e
    case Create(request, h) => Resource(KindOf(request), h)
    case Destroy(kind, h) => Resource(kind, h)
  }

  /** The objects created in a log, in creation order. */
  function Creations(log: seq<Event>): seq<Resource> {
    if log == [] then []
    else (if log[0].Create? then [ResourceOf(log[0])] else []) + Creations(log[1..])
  }

  /** The objects destroyed in a log, in destruction order. */
  function Destructions(log: seq<Event>): seq<Resource> {
    if log == [] then []
    else (if log[0].Destroy? then [ResourceOf(log[0])] else []) + Destructions(log[1..])
  }

  lemma {:induction false} CreationsAppend(a: seq<Event>, b: seq<Event>)
    ensures Creations(a + b) == Creations(a) + Creations(b)
  {
    if a == [] {
      assert a + b == b;
    } else {
      assert (a + b)[0] == a[0] && (a + b)[1..] == a[1..] + b;
      CreationsAppend(a[1..], b);
    }
  }

  lemma {:induction false} DestructionsAppend(a: seq<Event>, b: seq<Event>)
    ensures Destructions(a + b) == Destructions(a) + Destructions(b)
  {
    if a == [] {
      assert a + b == b;
    } else {
      assert (a + b)[0] == a[0] && (a + b)[1..] == a[1..] + b;
      DestructionsAppend(a[1..], b);
    }
  }

  /** The objects of a list of events, one per event. */
  function Resources(es: seq<Event>): (r: seq<Resource>)
    ensures |r| == |es|
  {
    seq(|es|, i requires 0 <= i < |es| => ResourceOf(es[i]))
  }

  /** A log of create calls only creates, one object per call; likewise for destroy calls. */
  lemma {:induction false} UniformLog(es: seq<Event>)
    ensures (forall i :: 0 <= i < |es| ==> es[i].Create?) ==> Creations(es) == Resources(es) && Destructions(es) == []
    ensures (forall i :: 0 <= i < |es| ==> es[i].Destroy?) ==> Destructions(es) == Resources(es) && Creations(es) == []
  {
    if es != [] {
      UniformLog(es[1..]);
      assert Resources(es) == [ResourceOf(es[0])] + Resources(es[1..]);
      assert forall i :: 0 < i < |es| ==> es[i] == es[1..][i - 1];
    }
  }

  /** `count` image views numbered from `first`. */
  function ViewResources(first: nat, count: nat): (r: seq<Resource>)
    ensures |r| == count
  {
    seq(count, k requires 0 <= k < count => Resource(ImageView, first + k))
  }

  /** The objects a full lifecycle creates, in order, when the swapchain has n images. */
  function CreatedOrder(n: nat): seq<Resource> {
    [Resource(Instance, 1), Resource(Surface, 2), Resource(Device, 3), Resource(Swapchain, 4)]
    + ViewResources(5 + n, n)
    + [Resource(Semaphore, 5 + 2 * n), Resource(Semaphore, 6 + 2 * n)]
  }

  /** The objects a full lifecycle destroys, in order, when the swapchain has n images. */
  function DestroyedOrder(n: nat): seq<Resource> {
    [Resource(Semaphore, 5 + 2 * n), Resource(Semaphore, 6 + 2 * n)]
    + ViewResources(5 + n, n)
    + [Resource(Swapchain, 4), Resource(Device, 3), Resource(Surface, 2), Resource(Instance, 1)]
  }

  lemma ResourcesAppend(a: seq<Event>, b: seq<Event>)
    ensures Resources(a + b) == Resources(a) + Resources(b)
  {
  }

  lemma ViewCreatesResources(images: seq<Handle>, format: int, first: nat)
    ensures var es := ViewCreates(images, format, first);
      (forall i :: 0 <= i < |es| ==> es[i].Create?) && Resources(es) == ViewResources(first, |images|)
  {
  }

  lemma ViewDestroysResources(first: nat, count: nat)
    ensures var es := ViewDestroys(Range(first, count));
      (forall i :: 0 <= i < |es| ==> es[i].Destroy?) && Resources(es) == ViewResources(first, count)
  {
  }

  lemma InitHeadResources(p: Platform, h0: nat)
    requires Supported(p)
    ensures var es := InitHead(p, h0);
      && (forall i :: 0 <= i < |es| ==> es[i].Create?)
      && Resources(es) == [Resource(Instance, h0), Resource(Surface, h0 + 1), Resource(Device, h0 + 2), Resource(Swapchain, h0 + 3)]
  {
  }

  /** Three runs of create calls, one after the other, create their objects in that order. */
  lemma CreationsOfCreates(a: seq<Event>, b: seq<Event>, c: seq<Event>)
    requires forall i :: 0 <= i < |a| ==> a[i].Create?
    requires forall i :: 0 <= i < |b| ==> b[i].Create?
    requires forall i :: 0 <= i < |c| ==> c[i].Create?
    ensures Creations(a + b + c) == Resources(a) + Resources(b) + Resources(c)
    ensures Destructions(a + b + c) == []
  {
    ResourcesAppend(a + b, c);
    ResourcesAppend(a, b);
    UniformLog(a + b + c);
  }

  /** Four create calls, the views of n images and two semaphores create the objects of CreatedOrder. */
  lemma InitShapeResources(head: seq<Event>, format: int, n: nat)
    requires forall i :: 0 <= i < |head| ==> head[i].Create?
    requires Resources(head) == [Resource(Instance, 1), Resource(Surface, 2), Resource(Device, 3), Resource(Swapchain, 4)]
    ensures var es := head + ViewCreates(Range(5, n), format, 5 + n)
                      + [Create(SemaphoreRequest, 5 + 2 * n), Create(SemaphoreRequest, 6 + 2 * n)];
      Creations(es) == CreatedOrder(n) && Destructions(es) == []
  {
    ViewCreatesResources(Range(5, n), format, 5 + n);
    CreationsOfCreates(head, ViewCreates(Range(5, n), format, 5 + n),
                       [Create(SemaphoreRequest, 5 + 2 * n), Create(SemaphoreRequest, 6 + 2 * n)]);
  }

  /** TS_VkInit, started on a fresh backend, creates the objects of CreatedOrder and destroys none. */
  lemma InitResources(p: Platform)
    requires Supported(p)
    ensures Creations(InitEvents(p, 1)) == CreatedOrder(p.driverImageCount)
    ensures Destructions(InitEvents(p, 1)) == []
  {
    InitHeadResources(p, 1);
    InitShapeResources(InitHead(p, 1), p.devices[0].surfaceFormats[0].format, p.driverImageCount);
  }

  /** TS_VkQuit, on the handles a fresh lifecycle hands out, destroys the objects of DestroyedOrder. */
  lemma QuitResources(n: nat)
    ensures Destructions(QuitEvents(5 + 2 * n, 6 + 2 * n, Range(5 + n, n), 4, 3, 2, 1)) == DestroyedOrder(n)
    ensures Creations(QuitEvents(5 + 2 * n, 6 + 2 * n, Range(5 + n, n), 4, 3, 2, 1)) == []
  {
    var head := [Destroy(Semaphore, 5 + 2 * n), Destroy(Semaphore, 6 + 2 * n)];
    var views := ViewDestroys(Range(5 + n, n));
    var tail := [Destroy(Swapchain, 4), Destroy(Device, 3), Destroy(Surface, 2), Destroy(Instance, 1)];
    ViewDestroysResources(5 + n, n);
    ResourcesAppend(head + views, tail);
    ResourcesAppend(head, views);
    UniformLog(head + views + tail);
  }

  /**
    A lifecycle creates instance, surface, device, swapchain, one view per
    swapchain image and two semaphores, in that order (the selection steps and
    the stubs create nothing), and destroys semaphores, views, swapchain,
    device, surface and instance, in that order.
   */
  lemma LifecycleResources(p: Platform)
    requires Supported(p)
    ensures Creations(LifecycleLog(p)) == CreatedOrder(p.driverImageCount)
    ensures Destructions(LifecycleLog(p)) == DestroyedOrder(p.driverImageCount)
  {
    var n := p.driverImageCount;
    var init, quit := InitEvents(p, 1), QuitEvents(5 + 2 * n, 6 + 2 * n, Range(5 + n, n), 4, 3, 2, 1);
    assert LifecycleLog(p) == init + quit;
    CreationsAppend(init, quit);
    DestructionsAppend(init, quit);
    InitResources(p);
    QuitResources(n);
    assert Creations(init + quit) == CreatedOrder(n) + [];
    assert Destructions(init + quit) == [] + DestroyedOrder(n);
  }

  /** Every object is created once: the handles of the created objects are pairwise distinct. */
  lemma CreatedHandlesDistinct(n: nat)
    ensures forall i, j :: 0 <= i < j < |CreatedOrder(n)| ==> CreatedOrder(n)[i].handle != CreatedOrder(n)[j].handle
  {
    var c := CreatedOrder(n);
    forall i | 0 <= i < |c| ensures c[i].handle == if i < 4 then i + 1 else 1 + n + i {
      if 4 <= i < 4 + n {
        assert c[i] == ViewResources(5 + n, n)[i - 4];
      }
    }
  }

  /** The kind-by-kind mirror, on the explicit orders. */
  lemma OrdersMirrorKinds(n: nat)
    ensures var c := CreatedOrder(n); var d := DestroyedOrder(n);
      && |d| == |c|
      && (forall k :: 0 <= k < |c| ==> d[k].kind == c[|c| - 1 - k].kind)
  {
    var c := CreatedOrder(n);
    var d := DestroyedOrder(n);
    var views := ViewResources(5 + n, n);
    forall k | 0 <= k < |c| ensures d[k].kind == c[|c| - 1 - k].kind {
      if k < 2 {
      } else if k < 2 + n {
        assert d[k] == views[k - 2];
        assert c[|c| - 1 - k] == views[|c| - 1 - k - 4];
      } else {
      }
    }
  }

  /** The four long-lived objects, destroyed in the reverse of their creation order. */
  lemma CoreObjectsSameMultiset()
    ensures multiset([Resource(Instance, 1), Resource(Surface, 2), Resource(Device, 3), Resource(Swapchain, 4)])
         == multiset([Resource(Swapchain, 4), Resource(Device, 3), Resource(Surface, 2), Resource(Instance, 1)])
  {
  }

  lemma MultisetRearranged<T>(head: seq<T>, middle: seq<T>, last: seq<T>, head': seq<T>)
    requires multiset(head) == multiset(head')
    ensures multiset(head + middle + last) == multiset(last + middle + head')
  {
  }

  /** The same objects, each as often, on the explicit orders. */
  lemma OrdersSameObjects(n: nat)
    ensures multiset(DestroyedOrder(n)) == multiset(CreatedOrder(n))
  {
    var views := ViewResources(5 + n, n);
    var sems := [Resource(Semaphore, 5 + 2 * n), Resource(Semaphore, 6 + 2 * n)];
    var instance, surface, device, swapchain := Resource(Instance, 1), Resource(Surface, 2), Resource(Device, 3), Resource(Swapchain, 4);
    CoreObjectsSameMultiset();
    MultisetRearranged([instance, surface, device, swapchain], views, sems, [swapchain, device, surface, instance]);
  }

  /**
    Teardown mirrors bring-up kind by kind: the k-th destroyed object has the
    kind of the k-th created object counted from the end, and exactly the
    created objects are destroyed, each once.
   */
  lemma TeardownMirrorsInit(p: Platform)
    requires Supported(p)
    ensures var c := Creations(LifecycleLog(p)); var d := Destructions(LifecycleLog(p));
      && |d| == |c|
      && (forall k :: 0 <= k < |c| ==> d[k].kind == c[|c| - 1 - k].kind)
      && multiset(d) == multiset(c)
      && (forall i, j :: 0 <= i < j < |c| ==> c[i].handle != c[j].handle)
  {
    LifecycleResources(p);
    OrdersMirrorKinds(p.driverImageCount);
    OrdersSameObjects(p.driverImageCount);
    CreatedHandlesDistinct(p.driverImageCount);
  }

  /**
    The mirror is by kind, not by object: the two semaphores (and likewise the
    views) are destroyed in the order they were created, so the destroy list
    is not the creation list reversed.
   */
  lemma TeardownNotObjectReversed(p: Platform)
    requires Supported(p)
    ensures var c := Creations(LifecycleLog(p)); var d := Destructions(LifecycleLog(p));
      && |c| == |d| == 6 + p.driverImageCount
      && d[0] == c[|c| - 2] && d[1] == c[|c| - 1]
      && d[0] != c[|c| - 1]
  {
    LifecycleResources(p);
  }
}
