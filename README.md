# Telescope's Vulkan bring-up and the Vulkan Memory Allocator bindings, in Dafny

This project models two parts of Telescope, a small Julia-callable 2D engine
written in C++.

**Vulkan bring-up and teardown** (`src/Telescope.cpp`). The renderer keeps its
state in process-wide globals. A fixed sequence of `TS_Vk*` steps fills them:

1. instance and window surface;
2. the first physical device, and a graphics queue family and a present queue family found by one scan;
3. the logical device and its two queues;
4. the swapchain, with a clamped extent and a sharing mode chosen from the two families;
5. one image view per swapchain image;
6. two semaphores.

`TS_VkQuit` destroys these objects again. The globals are the fields of the
class `Telescope.Graphics`, and each step is a method of it. Vulkan and SDL are
modelled by `Telescope.Backend`, which works like this:

- it answers queries from a fixed `Platform` value: devices, queue families, capabilities, surface formats, drawable size and the number of swapchain images;
- it hands out fresh handles;
- it records every create call, with the request fields the model keeps, and every destroy call in an event log.

The ordering properties are lemmas about that log.

**Vulkan Memory Allocator C++ bindings** (`src/vk_mem_alloc.hpp`). Three parts are modelled:

- **`to_string` overloads.** One call per enumerator becomes a first-match case table. One call per flags type becomes a method that appends `"Name | "` for each tested bit the value has. It then cuts the last three characters with `substr(0, size() - 3)`, and `size_t` wrap-around is written out.
- **Handle wrappers.** `Allocator`, `Pool`, `Allocation` and `DefragmentationContext` are one class with a tag type each, because the four are the same code.
- **Create-info structs.** `AllocationCreateInfo`, `AllocationInfo` and `PoolCreateInfo` have fluent setters and field-wise `operator==`/`!=`.

The numeric enumerator values live in the C header `vk_mem_alloc.h`, which is
not part of this model. The serialisers therefore take them as parameters, in
declaration order, and the properties hold for every choice of values.

The files are:

- `vk_types.dfy`: the values exchanged with Vulkan.
- `queue_family.dfy`: the queue-family scan.
- `requests.dfy`: the create requests.
- `telescope.dfy`: the globals, the steps, bring-up and teardown, and the log lemmas.
- `vma_strings.dfy`, `vma_handles.dfy` and `vma_create_info.dfy`: the bindings.

**Where the code and the documented behaviour differ, the model follows the code:**

- **The image count.** `TS_VkCreateSwapchain` computes an image count (`minImageCount + 1`, capped by `maxImageCount`) but never uses it. The swapchain request carries `minImageCount` (`src/Telescope.cpp:162-170`).
- **The image-count global.** `swapchainImageCount` is never assigned anywhere (`src/Telescope.cpp:38`). `Graphics.Init` states that it is left unchanged.
- **The device request.** It always holds two queue infos, graphics then present. They are not merged when both indices name the same family (`src/Telescope.cpp:131-132`).
- **The queue-family scan.** The documented behaviour records the first qualifying family. The loop in `src/Telescope.cpp:96-104` overwrites the stored index on every match. So it keeps the last qualifying family examined before the scan stops. `ScanResultMeaning` states this.
- **The teardown order.** It mirrors bring-up *by kind*: semaphores, views, swapchain, device, surface, instance. Within a group, though, objects are destroyed in creation order: the image-available semaphore before the rendering-finished one, and views in list order. So the destroy list is not the creation list reversed. `TeardownMirrorsInit` proves the first statement and `TeardownNotObjectReversed` the second.

## Model

| member | source | states |
|---|---|---|
| VkTypes.ToU32 | src/Telescope.cpp:176 | an `int` passed where `uint32_t` is expected keeps a value in range and turns -1 into 0xFFFFFFFF |
| VkTypes.MakeVersion | src/Telescope.cpp:61-67 | VK_MAKE_VERSION packs major, minor and patch into disjoint bit fields that decode back to the three parts |
| QueueFamilyScan.ScanQueueFamilies | src/Telescope.cpp:93-104 | the loop with its early `break` yields exactly the (graphics, present) pair of the scan specification: the last qualifying index of each kind among the families examined up to the stop |
| QueueFamilyScan.LastQualifyingMeaning | src/Telescope.cpp:98-101 | a non-negative index names a family with queues and the capability and no later examined family qualifies; -1 exactly when no examined family qualifies |
| QueueFamilyScan.ExaminedIsFirstStop | src/Telescope.cpp:102 | the scan examines families up to the first prefix after which both indices are set, or all of them |
| QueueFamilyScan.ScanResultMeaning | src/Telescope.cpp:93-106 | each stored index is -1 or the last examined family with `queueCount > 0` and the capability (graphics flag, resp. present support); -1 iff none of the examined families qualified |
| QueueFamilyScan.StopFamilyIsUsed | src/Telescope.cpp:98-102 | when the scan breaks after family k, at least one of the two indices is k |
| QueueFamilyScan.NoStopScansAll | src/Telescope.cpp:96-104 | if no prefix ever has both capabilities, every family is examined |
| Requests.Clamp | src/Telescope.cpp:150 | CLAMP returns one of x, lo, hi; lies in [lo, hi] when lo <= hi; keeps x when it is in range; gives lo below it and hi above it (for x >= lo) |
| Requests.SwapchainExtent | src/Telescope.cpp:156-161 | width and height are clamped independently: each lies within its extent range, an in-range component is kept even when the other is clamped, one below the minimum becomes the minimum, one above the maximum (and not below the minimum) becomes the maximum |
| Requests.ImageCount | src/Telescope.cpp:162-166 | the computed count is `minImageCount + 1` in `uint32_t` arithmetic, lowered to `maxImageCount` when that bound is set and exceeded; never above a set bound; 0 on wrap-around |
| Requests.ImageCountWithinBounds | src/Telescope.cpp:162-166 | for consistent capabilities the computed count lies between `minImageCount` and a set `maxImageCount` |
| Requests.RequestIgnoresImageCount | src/Telescope.cpp:162-170 | the swapchain request carries `minImageCount`, one less than the uncapped computed count |
| Requests.SwapchainRequestPolicy | src/Telescope.cpp:168-190 | concurrent sharing over exactly [graphics, present] iff the indices differ, exclusive with no family list otherwise; FIFO present mode, opaque alpha, one colour-attachment layer, clipped, surface/format/extent/transform as given |
| Requests.DeviceRequestShape | src/Telescope.cpp:111-142 | the device request is exactly two single-queue infos, graphics then present (identical when the families coincide), the swapchain extension, no layers, anisotropic sampling |
| Telescope.Graphics.constructor | src/Telescope.cpp:23-50 | the globals start as null handles, both family indices -1, empty image and view lists |
| Telescope.Graphics.CreateInstance | src/Telescope.cpp:52-79 | one instance is created from the window name and SDL's extension list, and stored |
| Telescope.Graphics.CreateSurface | src/Telescope.cpp:81-84 | one surface is created for the instance and stored |
| Telescope.Graphics.SelectPhysicalDevice | src/Telescope.cpp:86-89 | the first enumerated device is selected; nothing is created |
| Telescope.Graphics.SelectQueueFamily | src/Telescope.cpp:91-107 | both family globals receive the scan's results; nothing is created |
| Telescope.Graphics.CreateDevice | src/Telescope.cpp:109-148 | one device is created from the two-queue request, and both queues are queue 0 of their families on it |
| Telescope.Graphics.CreateSwapchain | src/Telescope.cpp:151-193 | capabilities and the first surface format are stored, the size is the clamped drawable size, one swapchain is created from the request and its images are stored |
| Telescope.Graphics.CreateImageViews | src/Telescope.cpp:195-211 | one view per swapchain image is created, in image order and with the surface format, and appended to the view list |
| Telescope.Graphics.CreateSemaphores | src/Telescope.cpp:238-242 | the image-available semaphore is created, then the rendering-finished one |
| Telescope.Graphics.BringUpDevice | src/Telescope.cpp:251-255 | the first five steps create instance, surface and device in that order and select the first device and the scanned families |
| Telescope.Graphics.BringUpSwapchain | src/Telescope.cpp:256-257 | the swapchain, then one view per image |
| Telescope.Graphics.BringUpFrameResources | src/Telescope.cpp:258-264 | the empty steps create nothing; the two semaphores are created |
| Telescope.Graphics.Init | src/Telescope.cpp:249-265 | TS_VkInit records exactly the create events of InitEvents and sets every global accordingly; `swapchainImageCount` is not written |
| Telescope.Graphics.DestroySemaphores | src/Telescope.cpp:272-276 | both semaphores are destroyed, in creation order |
| Telescope.Graphics.DestroyImageViews | src/Telescope.cpp:303-310 | every view in the list is destroyed in list order, and the list is left empty |
| Telescope.Graphics.DestroySwapchain | src/Telescope.cpp:312-315 | the swapchain is destroyed |
| Telescope.Graphics.DestroyDevice | src/Telescope.cpp:317-322 | both family indices are reset to -1 and the device is destroyed |
| Telescope.Graphics.FreeSurface | src/Telescope.cpp:324-327 | the surface is destroyed |
| Telescope.Graphics.DestroyInstance | src/Telescope.cpp:329-332 | the instance is destroyed |
| Telescope.Graphics.Quit | src/Telescope.cpp:334-348 | TS_VkQuit records exactly: semaphores, every view, swapchain, device, surface, instance; the view list ends empty and both family indices -1 |
| Telescope.Lifecycle | src/Telescope.cpp:249-348 | bring-up followed by teardown on fresh globals records exactly LifecycleLog |
| Telescope.InitResources | src/Telescope.cpp:249-265 | bring-up creates instance, surface, device, swapchain, n views, two semaphores, in that order, and destroys nothing |
| Telescope.QuitResources | src/Telescope.cpp:334-348 | teardown destroys semaphores, views, swapchain, device, surface, instance, in that order, and creates nothing |
| Telescope.LifecycleResources | src/Telescope.cpp:249-348 | the objects a lifecycle creates and destroys, in order |
| Telescope.CreatedHandlesDistinct | src/Telescope.cpp:249-265 | no object is created twice |
| Telescope.OrdersMirrorKinds | src/Telescope.cpp:249-348 | the k-th destroyed object has the kind of the k-th created object counted from the end |
| Telescope.OrdersSameObjects | src/Telescope.cpp:249-348 | the destroyed objects are the created ones, each once |
| Telescope.TeardownMirrorsInit | src/Telescope.cpp:249-348 | every created object is destroyed exactly once, and the kinds are destroyed in the reverse of their creation order |
| Telescope.TeardownNotObjectReversed | src/Telescope.cpp:272-276 | the two semaphores are destroyed in creation order, so the destroy list is not the creation list reversed |
| VmaStrings.SwitchToString | src/vk_mem_alloc.hpp:45-58 | a case table gives "invalid" for a value not among the cases, a case's name otherwise, and, with distinct case values, the name of the matching case |
| VmaStrings.MemoryUsageToString | src/vk_mem_alloc.hpp:45-58 | each of the seven enumerators gets its name, any other value "invalid" |
| VmaStrings.AllocationCreateFlagBitsToString | src/vk_mem_alloc.hpp:80-98 | only the first twelve enumerators have a case; a value none of them has is "invalid" |
| VmaStrings.AllocatorCreateFlagBitsToString | src/vk_mem_alloc.hpp:146-159 | each of the seven enumerators gets its name, any other value "invalid" |
| VmaStrings.DefragmentationFlagBitsToString | src/vk_mem_alloc.hpp:193-200 | "Incremental" for that enumerator, "invalid" otherwise |
| VmaStrings.PoolCreateFlagBitsToString | src/vk_mem_alloc.hpp:231-241 | each of the four enumerators, AlgorithmMask included, gets its name, any other value "invalid" |
| VmaStrings.RecordFlagBitsToString | src/vk_mem_alloc.hpp:271-278 | "FlushAfterCall" for that enumerator, "invalid" otherwise |
| VmaStrings.SizeMinus | src/vk_mem_alloc.hpp:132 | `size() - 3` on `size_t`: exact when size() >= 3, wraps to at least 2^64 - 3 otherwise |
| VmaStrings.Substr | src/vk_mem_alloc.hpp:132 | `substr(pos, count)` yields exactly min(`count`, `size() - pos`) characters starting at `pos`: the whole rest when `count` reaches past the end |
| VmaStrings.TrimmedSuffixIsJoined | src/vk_mem_alloc.hpp:132 | cutting the last three characters of the accumulated string leaves the names joined by the bar separator with no trailing separator, and leaves an empty string empty |
| VmaStrings.SuffixedIsJoinedPlusSeparator | src/vk_mem_alloc.hpp:116-131 | the accumulated string is the joined names followed by one separator |
| VmaStrings.FlagsToString | src/vk_mem_alloc.hpp:112-133 | a flags formatter returns "{}" for zero and otherwise the names of the tested masks the value intersects, in table order, joined by the bar separator, between "{ " and " }" |
| VmaStrings.SelectedSound | src/vk_mem_alloc.hpp:116-130 | every listed name belongs to a tested mask that intersects the value |
| VmaStrings.SelectedComplete | src/vk_mem_alloc.hpp:116-130 | every tested mask that intersects the value has its name listed |
| VmaStrings.NothingSelected | src/vk_mem_alloc.hpp:116-130 | a value that intersects no tested mask lists no names |
| VmaStrings.NoKnownBitFormat | src/vk_mem_alloc.hpp:112-133 | a nonzero value that intersects no tested mask prints as "{  }" |
| VmaStrings.SingleBitSelected | src/vk_mem_alloc.hpp:116-130 | with disjoint masks, a value equal to one mask lists exactly that name |
| VmaStrings.SingleBitFormat | src/vk_mem_alloc.hpp:112-133 | with disjoint masks, a single flag prints as "{ Name }" |
| VmaStrings.AliasesBothListed | src/vk_mem_alloc.hpp:125-130 | two tested enumerators with the same value, like the strategy aliases, are both listed when the value has that bit |
| VmaStrings.SuffixedBound | src/vk_mem_alloc.hpp:116-130 | the accumulated string is at most (longest name + 3) characters per table entry, so far below the `size_t` range |
| VmaStrings.AllocationCreateFlagsToString | src/vk_mem_alloc.hpp:112-133 | the AllocationCreateFlags formatter over its fifteen tested bits |
| VmaStrings.AllocatorCreateFlagsToString | src/vk_mem_alloc.hpp:173-186 | the AllocatorCreateFlags formatter over its seven tested bits |
| VmaStrings.DefragmentationFlagsToString | src/vk_mem_alloc.hpp:214-221 | the DefragmentationFlags formatter over its one tested bit |
| VmaStrings.PoolCreateFlagsToString | src/vk_mem_alloc.hpp:255-264 | the PoolCreateFlags formatter over its three tested bits |
| VmaStrings.RecordFlagsToString | src/vk_mem_alloc.hpp:292-299 | the RecordFlags formatter over its one tested bit |
| VmaStrings.PoolFlagsOmitAlgorithmMask | src/vk_mem_alloc.hpp:231-264 | the PoolCreateFlags formatter never lists "AlgorithmMask", though the single-enumerator overload names it |
| VmaHandles.HandleWrapper.constructor | src/vk_mem_alloc.hpp:307-317 | default- and `nullptr`-constructed wrappers are null; the explicit constructor wraps the given handle |
| VmaHandles.HandleWrapper.AssignRaw | src/vk_mem_alloc.hpp:319-325 | assigning a raw handle stores it and returns the same wrapper |
| VmaHandles.HandleWrapper.AssignNull | src/vk_mem_alloc.hpp:327-331 | assigning `nullptr` makes the wrapper null (`!` true, `bool` false) and returns the same wrapper |
| VmaHandles.NullTest | src/vk_mem_alloc.hpp:535-543 | `operator!` is the negation of `operator bool`, which is true iff the handle is not null |
| VmaHandles.EqualityOfHandles | src/vk_mem_alloc.hpp:333-341 | `==` compares the wrapped handles, `!=` is its negation, and equal wrappers agree on `bool` |
| VmaHandles.EqualsIsEquivalence | src/vk_mem_alloc.hpp:333-336 | `==` is reflexive, symmetric and transitive |
| VmaHandles.LessIsStrictTotalOrder | src/vk_mem_alloc.hpp:343-346 | `<` is irreflexive, transitive, asymmetric and total with respect to `==` |
| VmaHandles.NullIsLeast | src/vk_mem_alloc.hpp:343-346 | nothing is below a null wrapper, and a null wrapper is below exactly the valid ones |
| VmaCreateInfo.AllocationCreateInfo.constructor | src/vk_mem_alloc.hpp:758-774 | the constructor stores each argument in its field, with empty flags, zero type bits, a null pool and no user data by default |
| VmaCreateInfo.AllocationCreateInfo.SetFlags | src/vk_mem_alloc.hpp:787-791 | assigns `flags` only and returns the same struct |
| VmaCreateInfo.AllocationCreateInfo.SetUsage | src/vk_mem_alloc.hpp:793-797 | assigns `usage` only and returns the same struct |
| VmaCreateInfo.AllocationCreateInfo.SetRequiredFlags | src/vk_mem_alloc.hpp:799-803 | assigns `requiredFlags` only and returns the same struct |
| VmaCreateInfo.AllocationCreateInfo.SetPreferredFlags | src/vk_mem_alloc.hpp:805-809 | assigns `preferredFlags` only and returns the same struct |
| VmaCreateInfo.AllocationCreateInfo.SetMemoryTypeBits | src/vk_mem_alloc.hpp:811-815 | assigns `memoryTypeBits` only and returns the same struct |
| VmaCreateInfo.AllocationCreateInfo.SetPool | src/vk_mem_alloc.hpp:817-821 | stores a copy of the pool's handle only and returns the same struct |
| VmaCreateInfo.AllocationCreateInfo.SetPUserData | src/vk_mem_alloc.hpp:823-827 | assigns `pUserData` only and returns the same struct |
| VmaCreateInfo.AllocationCreateInfoEquality | src/vk_mem_alloc.hpp:845-860 | `==` holds iff every modelled field agrees; `!=` is its negation |
| VmaCreateInfo.AllocationCreateInfoPoolComparison | src/vk_mem_alloc.hpp:851 | the `pool` conjunct is Pool's `==` on the copied wrappers |
| VmaCreateInfo.AllocationInfo.constructor | src/vk_mem_alloc.hpp:877-890 | the constructor stores each argument, zero or null by default |
| VmaCreateInfo.AllocationInfo.SetMemoryType | src/vk_mem_alloc.hpp:902-906 | assigns `memoryType` only and returns the same struct |
| VmaCreateInfo.AllocationInfo.SetDeviceMemory | src/vk_mem_alloc.hpp:908-912 | assigns `deviceMemory` only and returns the same struct |
| VmaCreateInfo.AllocationInfo.SetOffset | src/vk_mem_alloc.hpp:914-918 | assigns `offset` only and returns the same struct |
| VmaCreateInfo.AllocationInfo.SetSize | src/vk_mem_alloc.hpp:920-924 | assigns `size` only and returns the same struct |
| VmaCreateInfo.AllocationInfo.SetPMappedData | src/vk_mem_alloc.hpp:926-930 | assigns `pMappedData` only and returns the same struct |
| VmaCreateInfo.AllocationInfo.SetPUserData | src/vk_mem_alloc.hpp:932-936 | assigns `pUserData` only and returns the same struct |
| VmaCreateInfo.AllocationInfoEquality | src/vk_mem_alloc.hpp:948-961 | `==` holds iff every field agrees; `!=` is its negation |
| VmaCreateInfo.PoolCreateInfo.constructor | src/vk_mem_alloc.hpp:1822-1840 | the constructor stores each argument, zero, empty or null by default |
| VmaCreateInfo.PoolCreateInfo.SetMemoryTypeIndex | src/vk_mem_alloc.hpp:1853-1857 | assigns `memoryTypeIndex` only and returns the same struct |
| VmaCreateInfo.PoolCreateInfo.SetFlags | src/vk_mem_alloc.hpp:1859-1863 | assigns `flags` only and returns the same struct |
| VmaCreateInfo.PoolCreateInfo.SetBlockSize | src/vk_mem_alloc.hpp:1865-1869 | assigns `blockSize` only and returns the same struct |
| VmaCreateInfo.PoolCreateInfo.SetMinBlockCount | src/vk_mem_alloc.hpp:1871-1875 | assigns `minBlockCount` only and returns the same struct |
| VmaCreateInfo.PoolCreateInfo.SetMaxBlockCount | src/vk_mem_alloc.hpp:1877-1881 | assigns `maxBlockCount` only and returns the same struct |
| VmaCreateInfo.PoolCreateInfo.SetFrameInUseCount | src/vk_mem_alloc.hpp:1883-1887 | assigns `frameInUseCount` only and returns the same struct |
| VmaCreateInfo.PoolCreateInfo.SetMinAllocationAlignment | src/vk_mem_alloc.hpp:1895-1899 | assigns `minAllocationAlignment` only and returns the same struct |
| VmaCreateInfo.PoolCreateInfo.SetPMemoryAllocateNext | src/vk_mem_alloc.hpp:1901-1905 | assigns `pMemoryAllocateNext` only and returns the same struct |
| VmaCreateInfo.PoolCreateInfoEquality | src/vk_mem_alloc.hpp:1917-1933 | `==` holds iff every modelled field agrees; `!=` is its negation |

## Left out

- Vulkan and SDL calls (`vk::createInstance`, `SDL_Vulkan_*`, `vkGetPhysicalDeviceSurfaceSupportKHR`, the `destroy` calls) are foreign. They are stood in for by `Backend` and the `Platform` value. Vulkan exceptions and failed calls are not modelled: every create call succeeds.
- The dispatcher initialisation (`VULKAN_HPP_DEFAULT_DISPATCHER.init`) is loader set-up with no state the model needs.
- Depth/stencil, render pass, framebuffers, command pool, command buffers and fences, in both bring-up and teardown, are empty functions in the source. They are no-op methods in the sequence.
- `TS_Init`/`TS_Quit` (SDL, TTF and mixer set-up), `TS_PlaySound`, the drawing calls, `TS_Fill`, `TS_Present` and `define_julia_module` are I/O, audio, UI and binding glue with no logic.
- VmaHandles.LessIsStrictTotalOrder: the totality, and VmaHandles.NullIsLeast, follow from modelling raw handles as `nat`. In C++, `<` on unrelated pointers gives an unspecified result (`src/vk_mem_alloc.hpp:343-346`), so the source promises no total order.
- There is no per-frame acquire, submit or present loop in the source, and none is modelled.
- Telescope.Graphics.SelectPhysicalDevice: it requires a non-empty device list. Indexing an empty `enumeratePhysicalDevices()` result is undefined behaviour in the source, not a handled case. The same holds for the first surface format in Telescope.Graphics.CreateSwapchain.
- Telescope.Graphics.CreateSwapchain: the drawable size is taken as a `uint32_t`. SDL reports it as `int`, and CLAMP's mixed signed/unsigned comparison of a negative size is not modelled.
- Telescope.Graphics.Init: TS_VkInit's fourteen calls are grouped into three consecutive parts (BringUpDevice, BringUpSwapchain, BringUpFrameResources). This only keeps each proof small; the calls and their order are the source's.
- The `1.0f` queue priority and the `float priority` fields of AllocationCreateInfo and PoolCreateInfo, with their setters, are floating point and are left out.
- VmaCreateInfo.AllocationCreateInfoEquality and VmaCreateInfo.PoolCreateInfoEquality do not include the `priority == rhs.priority` conjunct. In the source, a NaN priority makes `==` false even for a struct compared with itself. Here `==` is reflexive.
- VmaCreateInfo.AllocationCreateInfo.constructor: the default `usage` is `MemoryUsage::eUnknown`. That value is defined in `vk_mem_alloc.h`, which is not part of this model, so `usage` has no default here.
- All `Allocator` member functions and `createAllocator` are one-line forwards to the C library, which is not part of this model.
- The `reinterpret_cast` conversions to and from the C structs and handles, the `static_assert` layout checks, and the `Stats` `memcpy`/`memcmp` code are raw memory operations.
- The flag-bit `operator|` and `operator~` are left out. They belong to the `vk::Flags` template of the Vulkan C++ headers, which is not part of this model.
- `DeviceMemoryCallbacks`, `VulkanFunctions`, `RecordSettings`, `AllocatorCreateInfo`, `DefragmentationInfo2`, `DefragmentationStats`, `PoolStats`, `StatInfo` and `Budget` are left out. Their setters and `operator==` follow the same one-field-per-setter and field-wise-conjunction pattern as the three modelled structs, over function and data pointers.
- VmaStrings.AllocationCreateFlagBitsToString and the other single-enumerator overloads are attached to the source's cases by position, since the enumerator values are parameters. C++ rejects duplicate case values, so the real values at the cased positions are distinct. The exact-name clause of each contract is stated under that hypothesis.
- VmaStrings.FlagsToString: `value & mask` is tested as a 32-bit bitwise and, as `VkFlags` is `uint32_t`. The flags overloads convert each enumerator with `vk::Flags`, which is not part of this model.
