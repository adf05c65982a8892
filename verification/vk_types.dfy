/**
 * Plain-value stand-ins for the Vulkan and GLFW types that the renderer's
 * device and swapchain logic reads. Enumerations keep the numeric codes the
 * Vulkan headers give them; structs the driver fills in become records.
 */
module VkTypes {

  datatype Option<+T> = None | Some(value: T)

  /** C `unsigned int` / Vulkan `uint32_t`. */
  type u32 = x: int | 0 <= x <= 0xFFFF_FFFF

  /** C `int`, as returned by glfwGetFramebufferSize. */
  type s32 = x: int | -0x8000_0000 <= x <= 0x7FFF_FFFF

  const UINT32_MAX: u32 := 0xFFFF_FFFF

  /** Sentinel returned by find_memory_type when nothing matches (defines.h). */
  const U32_INVALID_ID: u32 := 0xDEAD_BEEF

  /**
   * `(u32)x` for an `s32` x: the one u32 congruent to x modulo 2^32 (the C
   * rule for conversion to an unsigned type), which is the two's-complement
   * reinterpretation.
   */
  function U32OfS32(x: s32): (r: u32)
    ensures r % 0x1_0000_0000 == x % 0x1_0000_0000
    ensures 0 <= x ==> r == x
    ensures x < 0 ==> r == x + 0x1_0000_0000 && r > 0x7FFF_FFFF
  {
    if x < 0 then x + 0x1_0000_0000 else x
  }

  /** `x + 1` in 32-bit unsigned arithmetic. */
  function IncU32(x: u32): (r: u32)
    ensures x < UINT32_MAX ==> r == x + 1
    ensures x == UINT32_MAX ==> r == 0
  {
    (x + 1) % 0x1_0000_0000
  }

  /** Opaque driver handle. */
  type Handle = nat

  // VkFormat and VkColorSpaceKHR codes used by the renderer.
  type Format = nat
  const FORMAT_R32G32_SFLOAT: Format := 103
  const FORMAT_R32G32B32_SFLOAT: Format := 106
  const FORMAT_B8G8R8A8_SRGB: Format := 50

  type ColorSpace = nat
  const COLOR_SPACE_SRGB_NONLINEAR: ColorSpace := 0

  // VkPresentModeKHR codes.
  type PresentMode = nat
  const PRESENT_MODE_IMMEDIATE: PresentMode := 0
  const PRESENT_MODE_MAILBOX: PresentMode := 1
  const PRESENT_MODE_FIFO: PresentMode := 2

  // VkPhysicalDeviceType code.
  const PHYSICAL_DEVICE_TYPE_DISCRETE_GPU: nat := 2

  /** VK_QUEUE_GRAPHICS_BIT. */
  const QUEUE_GRAPHICS_BIT: bv32 := 0x1

  /** VK_MAX_MEMORY_TYPES: the length of VkPhysicalDeviceMemoryProperties.memoryTypes. */
  const MAX_MEMORY_TYPES: nat := 32

  datatype SurfaceFormat = SurfaceFormat(format: Format, colorSpace: ColorSpace)

  datatype Extent2D = Extent2D(width: u32, height: u32)

  /** The fields of VkSurfaceCapabilitiesKHR that the renderer reads. */
  datatype SurfaceCapabilities = SurfaceCapabilities(
    minImageCount: u32,
    maxImageCount: u32,          // 0 means "no maximum"
    currentExtent: Extent2D,     // width UINT32_MAX means "window decides"
    minImageExtent: Extent2D,
    maxImageExtent: Extent2D)

  /**
   * One queue family as the driver reports it: its VkQueueFlags, and the answer
   * vkGetPhysicalDeviceSurfaceSupportKHR gives for this family and the window surface.
   */
  datatype QueueFamily = QueueFamily(queueFlags: bv32, presentSupport: bool)

  predicate SupportsGraphics(f: QueueFamily) {
    f.queueFlags & QUEUE_GRAPHICS_BIT != 0
  }

  /** Size of a framebuffer as glfwGetFramebufferSize reports it. */
  datatype FramebufferSize = FramebufferSize(width: s32, height: s32)

  /** The subset of VkResult codes the frame loop distinguishes. */
  datatype VkResult = Success | SuboptimalKhr | ErrorOutOfDateKhr | OtherError(code: int)

  type Name = string
}
