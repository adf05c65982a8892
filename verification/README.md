# vulkan_demo: device selection, swapchain settings and the frame loop

This project models the renderer core of vulkan_demo, which is in
`src/vulkan_main.cpp` and `src/vulkan_main.h`.

The renderer makes two kinds of decisions:

- **Selection rules.** These are deterministic choices over the lists a Vulkan driver reports:
  - which validation layers and instance extensions to enable;
  - which GPU to use;
  - which queue families serve graphics and presentation;
  - which surface format, present mode, extent, image count and sharing mode the swapchain gets;
  - which memory type to allocate from.
- **The frame loop.** Two frame slots take turns. Each slot has an in-flight fence, and each frame:
  - waits on the current slot's fence;
  - acquires a swapchain image, then submits and presents;
  - rebuilds the swapchain when it is out of date or the window was resized;
  - advances to the next slot.

Nothing here calls Vulkan or GLFW:
- Anything the driver or window reports is an input value: queue family flags, extension names, surface capabilities, result codes and framebuffer sizes.
- Every driver call the frame loop makes is appended to a `trace`.
- Fences are booleans, one per slot; true means signalled.
- An arena is a generation counter, so `arena_clear` invalidates every view handed out before it.

The files:

- `vk_types.dfy` (`VkTypes`) holds 32-bit integer types, the Vulkan codes the renderer uses, and records for what the driver reports.
- `vulkan_main_h.dfy` (`VulkanMainH`) holds `MAX_FRAMES_IN_FLIGHT`, the vertex binding and attribute layout, and `BufferView` with its two conventions for `size`.
- `queue_families.dfy` (`QueueFamilies`) holds `find_queue_families` and `get_queue_create_infos`.
- `swapchain_support.dfy` (`SwapchainSupport`) holds `CLAMP`, the surface format, present mode, extent, image count and sharing mode, and `create_swapchain`.
- `device_selection.dfy` (`DeviceSelection`) holds the layer and extension checks, `createInstance`, device suitability, `find_physical_device` and `find_memory_type`.
- `frame_loop.dfy` (`FrameLoop`) holds the class `Runtime`, with `destroy_swapchain`, `recreate_swapchain`, `render` and `vulkanMainLoop`.

The model follows the code as written in these places:

- **`choose_swap_present_mode`.** It assigns where it should compare (`=` at line 474). Both versions are modelled (see Findings). The swapchain uses the intended one on surfaces that offer FIFO, as the Vulkan specification requires of every surface. On those surfaces both versions give FIFO (`PresentModesAgreeWhenFifoOffered`), so `create_swapchain` behaves as written.
- **`find_queue_families`.** Each graphics-capable family overwrites the one recorded before it, until both roles are filled.
- **Presenting.** `render` checks the present result with `VK_CHECK` (line 1662) before testing it for out-of-date or suboptimal (line 1663). So any present result other than success aborts, and the rebuild after presenting happens exactly when the resize flag was set.
- **`vulkanMainLoop`.** It advances `current_frame` even when `render` skipped the frame because the swapchain was out of date.
- **The instance-extension check in `createInstance`.** It takes a `strncmp` mismatch for a match (line 363). Both versions are modelled (see Findings), and `CreateInstance` runs the one as written.
- **`create_swapchain`.** It stores `image_count` in `SwapchainInfo` (line 573), but the struct in `vulkan_main.h` declares no such field. The model's `SwapchainInfo` has the field.
- **`VK_CHECK` in `render`.** A failing check aborts the program. The model represents this as the outcome `Fatal`.
- **`TINY_ASSERT` on the renderer's own invariants.** Each becomes a precondition:
  - the image index is below the framebuffer count (line 1124);
  - at least one swapchain image exists (line 760);
  - the driver reports no fewer instance extensions than are required (line 357).
- **`TINY_ASSERT` on allocations and GLFW.** The asserts that GLFW returned an extension list (line 190) and that the arena returned the queue create infos (line 712) cannot fail in the model. There, both are sequences and never null.
- **`Vertex`.** The test vertices at lines 39-45 of `vulkan_main.cpp` are initialised with three groups: a position, a 2-float texture coordinate and a colour. The struct in `vulkan_main.h` declares only a position and a colour. The model follows the header's two members and its attribute descriptions.

## Model

| member | source | states |
|---|---|---|
| VkTypes.U32OfS32 | src/vulkan_main.cpp:494 | the `(u32)` cast of a framebuffer size is the u32 congruent to it modulo 2^32: non-negative values are kept, a negative x becomes x + 2^32 (above 0x7FFFFFFF) |
| VkTypes.IncU32 | src/vulkan_main.cpp:513 | `minImageCount + 1` in u32 arithmetic: the successor, or 0 when minImageCount is UINT32_MAX |
| VulkanMainH.SizeOfVertexIs20 | src/vulkan_main.h:26-29 | sizeof(Vertex) is 20 bytes: a vec2 then a vec3 of 4-byte floats, laid out without padding |
| VulkanMainH.GetBindingDescription | src/vulkan_main.h:30-37 | the single binding is binding 0, with stride sizeof(Vertex) and per-vertex input rate |
| VulkanMainH.GetAttributeDescriptions | src/vulkan_main.h:38-51 | exactly two attributes on binding 0: location 0 is R32G32_SFLOAT at offset 0, location 1 is R32G32B32_SFLOAT at offset 8 |
| VulkanMainH.AttributesMatchVertexLayout | src/vulkan_main.h:26-51 | attribute i reads exactly the bytes of member i of Vertex (format size equals member size), the attributes are contiguous, and together they fill the binding's stride |
| VulkanMainH.InitFromArena | src/vulkan_main.h:61-67 | init_from_arena returns a view in the arena's current contents whose size is the requested element count |
| VulkanMainH.ByteSizedView | src/vulkan_main.cpp:1174-1179 | create_sync_objects (and create_command_buffers) set `size` to a byte count: count times element size |
| VulkanMainH.ArenaClear | src/vulkan_main.cpp:1568 | after arena_clear no view handed out by the arena before the clear is valid |
| VulkanMainH.GetNumElements | src/vulkan_main.h:60 | get_num_elements is the floor of size / sizeof(T) (r·sizeof(T) ≤ size < (r+1)·sizeof(T)) when that fits in u32 |
| VulkanMainH.ElementCountConventions | src/vulkan_main.h:60-67 | get_num_elements recovers the count of a byte-sized view, but under-reports the count of any non-empty init_from_arena view whenever sizeof(T) > 1 |
| QueueFamilies.FindQueueFamilies | src/vulkan_main.cpp:379-410 | the scan result equals the indices after the families up to and including the first one at which both roles are filled (or all families) |
| QueueFamilies.ScanStopsAtFirstComplete | src/vulkan_main.cpp:405-406 | the scan looks at no family after the first complete prefix: every shorter prefix is incomplete, and stopping early means the result is complete |
| QueueFamilies.IndicesAfterAreLastCapable | src/vulkan_main.cpp:389-402 | each role holds the LAST capable family seen (later ones overwrite), and is empty exactly when no family seen has that capability |
| QueueFamilies.FilledRolesAreCapable | src/vulkan_main.cpp:379-410 | a filled graphics role names a family below the family count with the graphics bit; a filled present role names one that can present |
| QueueFamilies.CompleteIffBothRolesExist | src/vulkan_main.cpp:379-410 | is_complete holds of the result iff some family supports graphics and some family can present |
| QueueFamilies.GraphicsFamilyIsOverwritten | src/vulkan_main.cpp:391-395 | for families [graphics, graphics, present] the recorded graphics family is 1, not 0 |
| QueueFamilies.QueueCreateInfos | src/vulkan_main.cpp:677-702 | one create info per distinct family of {graphics, present} (1 or 2), in ascending index order, each asking for one queue |
| SwapchainSupport.Clamp | src/vulkan_main.cpp:21 | CLAMP is min when x < min, x when min ≤ x ≤ max, and max when x > max and x ≥ min, also when the bounds cross; it lies in [min, max] whenever min ≤ max |
| SwapchainSupport.ChooseSwapchainSurfaceFormat | src/vulkan_main.cpp:443-457 | returns B8G8R8A8_SRGB with non-linear sRGB if offered, else the first offered format; the result is always among the offered ones; requires a non-empty list |
| SwapchainSupport.ChooseSwapPresentModeAsWritten | src/vulkan_main.cpp:467-480 | as written: FIFO for every non-empty list, whatever it holds, and IMMEDIATE for an empty one |
| SwapchainSupport.ChooseSwapPresentMode | src/vulkan_main.cpp:467-480 | with `==`: FIFO when offered, otherwise the first offered mode, otherwise IMMEDIATE |
| SwapchainSupport.PresentModesAgreeWhenFifoOffered | src/vulkan_main.cpp:474 | on every list containing FIFO (which the Vulkan specification guarantees) both versions return FIFO |
| SwapchainSupport.PresentModeDefectWitness | src/vulkan_main.cpp:474 | for [MAILBOX] the code as written returns FIFO, a mode not offered, while the intended version returns MAILBOX |
| SwapchainSupport.PresentModeIntendedIsOffered | src/vulkan_main.cpp:479 | the intended version returns one of the offered modes whenever any is offered |
| SwapchainSupport.ChooseSwapExtent | src/vulkan_main.cpp:483-499 | the current extent when its width is not UINT32_MAX; otherwise each side is CLAMP of the u32-cast framebuffer side into the reported [min, max], so it lies within the bounds when min ≤ max and is the framebuffer side when that is already inside |
| SwapchainSupport.ImageCount | src/vulkan_main.cpp:513-518 | minImageCount + 1 unless a non-zero maximum is exceeded, then the maximum; never above a non-zero maximum; 0 when the increment wraps |
| SwapchainSupport.ImageCountExamples | src/vulkan_main.cpp:513-518 | minimum 2 with no maximum gives 3 images; minimum 2 with maximum 2 gives 2 |
| SwapchainSupport.SharingFor | src/vulkan_main.cpp:532-547 | CONCURRENT over [graphics, present] iff the two families differ, else EXCLUSIVE with no family indices |
| SwapchainSupport.ConcurrentIffTwoQueues | src/vulkan_main.cpp:532-547 | images are shared concurrently exactly when the device was opened with two queue create infos, exclusively when with one |
| SwapchainSupport.CreateSwapchain | src/vulkan_main.cpp:501-576 | the create info combines the chosen format, present mode, extent, image count and sharing; its present mode is FIFO, the value the code as written produces; the images view holds the driver's image count in the given arena; the returned info repeats format, extent and count |
| SwapchainSupport.MockSurfaceExample | src/vulkan_main.cpp:501-547 | a surface with minimum 2, no maximum, an 800x600 current extent, one sRGB format and FIFO, on one family doing both roles, gives 3 images of 800x600, FIFO, exclusive sharing |
| DeviceSelection.MissingNames | src/vulkan_main.cpp:288-303 | the missing names are exactly the required names absent from the available list, and there are none iff every required name is available |
| DeviceSelection.FindName | src/vulkan_main.cpp:290-297 | the inner strcmp loop finds a name iff it is in the list |
| DeviceSelection.CheckValidationLayerSupport | src/vulkan_main.cpp:280-306 | warns once for each missing layer, in order, without stopping early, and returns true iff every required layer is available |
| DeviceSelection.DoesPhysicalDeviceHaveRequiredExtensions | src/vulkan_main.cpp:578-613 | true iff every required device extension is among the device's extensions |
| DeviceSelection.GetRequiredInstanceExtensions | src/vulkan_main.cpp:186-204 | GLFW's extensions in order, followed by the debug-utils extension |
| DeviceSelection.CheckInstanceExtensionsAsWritten | src/vulkan_main.cpp:357-373 | as written: warns about a required name only when every supported name equals it within 256 characters |
| DeviceSelection.AsWrittenSilentWithTwoDistinctNames | src/vulkan_main.cpp:363 | as written, once the driver reports two different extension names, nothing is ever reported |
| DeviceSelection.InstanceExtensionCheckWitness | src/vulkan_main.cpp:363 | a missing extension goes unreported and an exactly matching one is reported, while the corrected check does the opposite |
| DeviceSelection.CheckInstanceExtensions | src/vulkan_main.cpp:357-373 | with `strncmp(...) == 0`: warns about exactly the required extensions the driver lacks, and about none iff all are supported |
| DeviceSelection.CreateInstance | src/vulkan_main.cpp:309-376 | the validation layer is enabled iff every required layer is available, with a warning for exactly each missing layer and the summary warning exactly when one is missing; the enabled extensions are GLFW's plus debug utils; the extension warnings are those of the check as written, so there are none once the driver reports two different names |
| DeviceSelection.IsPhysicalDeviceSuitable | src/vulkan_main.cpp:615-642 | suitable iff discrete GPU, complete queue families, every required extension, and (queried only with the extensions) at least one format and one present mode |
| DeviceSelection.SuitableIff | src/vulkan_main.cpp:615-642 | suitability in terms of the reported data: discrete, some graphics family, some present family, the swapchain extension, a format and a present mode |
| DeviceSelection.FindPhysicalDevice | src/vulkan_main.cpp:644-674 | the first suitable device in enumeration order; none iff no device is suitable, including an empty list |
| DeviceSelection.FindMemoryType | src/vulkan_main.cpp:1198-1216 | the smallest index whose filter bit is set and whose property flags include all requested ones, else U32_INVALID_ID exactly when there is none |
| FrameLoop.NumberedAt | src/vulkan_main.cpp:1559-1566 | a `for i < n` loop of driver calls makes the call for index i as its i-th call |
| FrameLoop.DestroyOrder | src/vulkan_main.cpp:1557-1569 | destroy_swapchain destroys framebuffers 0..n-1, then image views 0..m-1, then the swapchain, each exactly once |
| FrameLoop.RecreateNeverSubmits | src/vulkan_main.cpp:1571-1590 | rebuilding the swapchain never resets a fence, submits or presents |
| FrameLoop.FirstUsableIndex | src/vulkan_main.cpp:1573-1579 | the first framebuffer size reading with both sides non-zero: every earlier reading has a zero side |
| FrameLoop.WaitForUsableSize | src/vulkan_main.cpp:1573-1579 | the wait loop stops at the first reading with both sides non-zero, having called glfwWaitEvents once per reading after the first |
| FrameLoop.CreateSwapchainImageViews | src/vulkan_main.cpp:753-789 | one image view per swapchain image, created in index order, in the given arena; no images is a fatal assertion |
| FrameLoop.CreateFramebuffers | src/vulkan_main.cpp:1036-1061 | one framebuffer per image view, created in index order, in the given arena |
| FrameLoop.BuildSwapchain | src/vulkan_main.cpp:1585-1587 | swapchain, views and framebuffers built together: the driver's new handle, the extent chosen for the framebuffer size, the chosen surface format and the requested image count, as many views and framebuffers as images, all in the arena |
| FrameLoop.FenceResetBeforeSubmit | src/vulkan_main.cpp:1597-1661 | in a presented frame the slot's fence is waited on, then reset, then given to the submit |
| FrameLoop.Runtime.constructor | src/vulkan_main.cpp:1534-1544 | initVulkan builds the swapchain (handle, extent, format, image count), views and framebuffers in the swapchain arena and creates every in-flight fence signalled; frame 0, resize flag clear |
| FrameLoop.Runtime.OnFramebufferResize | src/main.cpp:19-23 | the resize callback sets the flag and changes nothing else |
| FrameLoop.Runtime.DestroySwapchain | src/vulkan_main.cpp:1557-1569 | appends the framebuffer, image-view and swapchain destroys in that order and clears the swapchain arena, invalidating the old views |
| FrameLoop.Runtime.RecreateSwapchain | src/vulkan_main.cpp:1571-1590 | after the size wait: device idle, destroy, then a new swapchain (handle, extent for the first usable reading, format, image count) with as many views and framebuffers as images, in the cleared arena; the resize flag is kept, and set when the window reports a resize during the wait's glfwWaitEvents; the runtime stays valid |
| FrameLoop.Runtime.Render | src/vulkan_main.cpp:1592-1668 | `FrameDone`: an out-of-date acquire rebuilds and skips the frame with the fence signalled; otherwise the fence is reset before the submit; failing results are fatal; after presenting, a set resize flag is cleared and causes exactly one rebuild, after which the flag is set only by a resize during that rebuild's wait; a rebuild yields the new swapchain built for the first usable reading in the cleared arena, and any other frame leaves the swapchain, views, framebuffers and arena unchanged; other slots' fences are unchanged |
| FrameLoop.Runtime.VulkanMainLoop | src/vulkan_main.cpp:1706-1711 | `FrameDone` for the slot current on entry (render's calls, fences, flag and swapchain state); after every frame that does not abort, including a skipped one, current_frame becomes (old + 1) mod 2, and an abort leaves it |

## Left out

- Vulkan and GLFW calls are not modelled as such. What they report is an input (`SwapchainEnv`, `FrameInput`, `PhysicalDevice`, name lists, result codes). The calls the frame loop makes are recorded in `trace`.
- The results of these driver calls are taken as success:
  - `vkCreateInstance` (lines 345-346);
  - the surface queries in `query_swapchain_support` (lines 422-423 and after);
  - the create calls in `create_swapchain`, `create_swapchain_image_views`, `create_framebuffers` and `create_sync_objects`;
  - `vkBeginCommandBuffer` and `vkEndCommandBuffer` in `record_cmd_buffer` (lines 1118-1119 and 1162-1163). They run inside `render`, but the model never lets them fail.
- Only the acquire, submit and present results in `render` can fail in the model.
- Semaphores, command buffers and the command pool are not modelled. They appear only as the slot number in the trace.
- `update_uniform_buffer`, `tick`, ImGui, the render pass, the graphics pipeline, descriptor sets and the vertex, index and uniform buffers are not modelled. They are floating-point maths, key polling, an external UI library, or fixed driver structs. Of `record_cmd_buffer` only its assertion on the image index is kept, as a precondition.
- `read_file_bin`, the debug messenger, `create_logical_device`, `get_native_window_surface`, `query_swapchain_support` and `vulkanCleanup` are not modelled; they are file I/O, logging, or driver calls.
- CPU–GPU concurrency is not modelled. A fence is a boolean. Returning from `vkWaitForFences` sets the slot's fence to signalled, which stands for the GPU finishing the slot's previous frame. Resetting clears it. `vkDeviceWaitIdle` is recorded but changes no fence.
- FrameLoop.Runtime.RecreateSwapchain: `choose_swap_extent` reads the framebuffer size once more after the wait loop. The model takes that reading to be the one that ended the wait.
- FrameLoop.Runtime.RecreateSwapchain: of the callbacks GLFW may run inside `glfwWaitEvents`, only the resize callback is modelled. Whether it fires during the wait is one input (`resizeInWait`) for all of the wait's `glfwWaitEvents` calls, and it counts only when the wait made at least one such call.
- SwapchainSupport.CreateSwapchain: it requires FIFO among the reported present modes, as the Vulkan specification guarantees. With a driver that breaks that rule, the code as written would request FIFO anyway; the model does not cover that case.
- FrameLoop.WaitForUsableSize: the readings are given as a sequence that contains a usable one. That the window eventually gets a non-zero size is assumed, not proved.
- FrameLoop.Runtime.Render: it requires the inputs for a rebuild to be usable whenever a rebuild happens. These are a usable window size, a format, both queue roles, and at least one image.
- FrameLoop.Runtime.Render: `VK_CHECK` is modelled as the outcome `Fatal`. The model says nothing about the state after it, since the program aborts.
- DeviceSelection.FindPhysicalDevice returns the index of the chosen device rather than its handle; no device (`VK_NULL_HANDLE`) is `None`.
- DeviceSelection.CheckValidationLayerSupport, CheckInstanceExtensions and CheckInstanceExtensionsAsWritten return the names they log instead of writing to a log.
- DeviceSelection.FindName: `strcmp` is modelled as equality of names; `strncmp(·, ·, 256)` compares the first 256 characters.
- src/tiny/tiny_arena.h is not part of this model. An arena is modelled only by how many times it has been cleared.
- src/defines.h and build.py are not part of this model.

## Findings

| source | as written | input that shows it | evidently intended | confidence | as-written member | corrected member |
|---|---|---|---|---|---|---|
| src/vulkan_main.cpp:474 | `if (present_mode = VK_PRESENT_MODE_FIFO_KHR)` assigns FIFO and tests it, so the first iteration always returns FIFO | present modes [MAILBOX]: returns FIFO, which the surface does not offer | `==`: FIFO if offered, else the first mode | high (not executed) | SwapchainSupport.ChooseSwapPresentModeAsWritten, SwapchainSupport.PresentModeDefectWitness | SwapchainSupport.ChooseSwapPresentMode |
| src/vulkan_main.cpp:363 | `if (strncmp(required, supported, 256))` counts a required extension as supported when a supported name DIFFERS from it | required ["VK_KHR_wayland_surface"], supported ["VK_KHR_surface", "VK_EXT_debug_utils"]: no warning; required and supported ["VK_KHR_surface"]: a warning | `strncmp(...) == 0`: warn about exactly the missing extensions | high (not executed) | DeviceSelection.CheckInstanceExtensionsAsWritten, DeviceSelection.InstanceExtensionCheckWitness | DeviceSelection.CheckInstanceExtensions |
