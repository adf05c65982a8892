/**
 * The swapchain settings create_swapchain derives from what the driver reports
 * for the window surface: pixel format, present mode, extent, image count and
 * image sharing mode.
 */
module SwapchainSupport {
  import opened VkTypes
  import opened VulkanMainH
  import opened QueueFamilies

  /** The CLAMP(x, min, max) macro: `x < min ? min : (x > max ? max : x)`. */
  function Clamp(x: int, lo: int, hi: int): (r: int)
    ensures lo <= hi ==> lo <= r <= hi
    ensures lo <= x <= hi ==> r == x
    ensures lo <= x && hi < x ==> r == hi
    ensures r == x || r == lo || r == hi
    ensures x < lo ==> r == lo  // the lower bound wins when the bounds cross
  {
    if x < lo then lo else if x > hi then hi else x
  }

  // ------------------------------------------------------------ surface format

  const PREFERRED_SURFACE_FORMAT: SurfaceFormat :=
    SurfaceFormat(FORMAT_B8G8R8A8_SRGB, COLOR_SPACE_SRGB_NONLINEAR)

  /** The format choose_swapchain_surface_format picks: the preferred one if offered, else the first offered. */
  function SurfaceFormatFor(formats: seq<SurfaceFormat>): SurfaceFormat
    requires |formats| > 0
  {
    if PREFERRED_SURFACE_FORMAT in formats then PREFERRED_SURFACE_FORMAT else formats[0]
  }

  /**
   * choose_swapchain_surface_format: returns the first entry that is
   * B8G8R8A8_SRGB with the non-linear sRGB colour space, else entry 0
   * (which must exist: the function indexes it unconditionally).
   */
  method ChooseSwapchainSurfaceFormat(formats: seq<SurfaceFormat>) returns (r: SurfaceFormat)
    requires |formats| > 0
    ensures r in formats
    ensures r == SurfaceFormatFor(formats)
  {
    var i := 0;
    while i < |formats|
      invariant i <= |formats|
      invariant PREFERRED_SURFACE_FORMAT !in formats[..i]
    {
      var available := formats[i];
      if available.format == FORMAT_B8G8R8A8_SRGB && available.colorSpace == COLOR_SPACE_SRGB_NONLINEAR {
        return available;
      }
      assert formats[..i + 1] == formats[..i] + [available];
      i := i + 1;
    }
    assert formats[..i] == formats;
    return formats[0];
  }

  // -------------------------------------------------------------- present mode

  /** What choose_swap_present_mode returns as written: FIFO for any non-empty list. */
  function PresentModeAsWritten(modes: seq<PresentMode>): PresentMode {
    if |modes| > 0 then PRESENT_MODE_FIFO else PRESENT_MODE_IMMEDIATE
  }

  /** What the function would return with `==` in place of `=`: FIFO if listed, else the first mode. */
  function PresentModeIntended(modes: seq<PresentMode>): PresentMode {
    if PRESENT_MODE_FIFO in modes then PRESENT_MODE_FIFO
    else FallbackPresentMode(modes)
  }

  /**
   * choose_swap_present_mode as written: the loop condition assigns FIFO to
   * the mode and tests the (non-zero) result, so the first iteration always
   * returns FIFO; only an empty list reaches the fallback.
   */
  method ChooseSwapPresentModeAsWritten(modes: seq<PresentMode>) returns (r: PresentMode)
    ensures |modes| > 0 ==> r == PRESENT_MODE_FIFO
    ensures |modes| == 0 ==> r == PRESENT_MODE_IMMEDIATE
    ensures r == PresentModeAsWritten(modes)
  {
    for i := 0 to |modes|
      invariant i == 0
    {
      var presentMode := modes[i];
      presentMode := PRESENT_MODE_FIFO;
      if presentMode != 0 {
        return presentMode;
      }
    }
    return FallbackPresentMode(modes);
  }

  /** The value after the loop: the first mode, or IMMEDIATE when there are none. */
  function FallbackPresentMode(modes: seq<PresentMode>): PresentMode {
    if |modes| > 0 then modes[0] else PRESENT_MODE_IMMEDIATE
  }

  /**
   * choose_swap_present_mode with the comparison it evidently intends: FIFO
   * when the list holds it, otherwise the first mode, otherwise IMMEDIATE.
   */
  method ChooseSwapPresentMode(modes: seq<PresentMode>) returns (r: PresentMode)
    ensures PRESENT_MODE_FIFO in modes ==> r == PRESENT_MODE_FIFO
    ensures PRESENT_MODE_FIFO !in modes && |modes| > 0 ==> r == modes[0]
    ensures |modes| == 0 ==> r == PRESENT_MODE_IMMEDIATE
    ensures r == PresentModeIntended(modes)
  {
    var i := 0;
    while i < |modes|
      invariant i <= |modes|
      invariant PRESENT_MODE_FIFO !in modes[..i]
    {
      var presentMode := modes[i];
      if presentMode == PRESENT_MODE_FIFO {
        return presentMode;
      }
      assert modes[..i + 1] == modes[..i] + [presentMode];
      i := i + 1;
    }
    assert modes[..i] == modes;
    return FallbackPresentMode(modes);
  }

  /**
   * The Vulkan specification guarantees FIFO is always offered; on every such
   * list the two versions agree, so the defect is invisible on a conforming driver.
   */
  lemma PresentModesAgreeWhenFifoOffered(modes: seq<PresentMode>)
    requires PRESENT_MODE_FIFO in modes
    ensures PresentModeAsWritten(modes) == PresentModeIntended(modes) == PRESENT_MODE_FIFO
  {
  }

  /** A list offering only MAILBOX: as written the result is FIFO, a mode not on the list. */
  lemma PresentModeDefectWitness()
    ensures PresentModeAsWritten([PRESENT_MODE_MAILBOX]) == PRESENT_MODE_FIFO
    ensures PRESENT_MODE_FIFO !in [PRESENT_MODE_MAILBOX]
    ensures PresentModeIntended([PRESENT_MODE_MAILBOX]) == PRESENT_MODE_MAILBOX
  {
  }

  /** The intended version never invents a mode: a non-empty list yields one of its own entries. */
  lemma {:induction false} PresentModeIntendedIsOffered(modes: seq<PresentMode>)
    requires |modes| > 0
    ensures PresentModeIntended(modes) in modes
  {
    if PRESENT_MODE_FIFO !in modes {
      assert modes[0] in modes;
    }
  }

  // -------------------------------------------------------------------- extent

  /**
   * choose_swap_extent: the reported current extent unless its width is the
   * UINT32_MAX sentinel; then the window's framebuffer size (cast to u32),
   * each dimension clamped into the reported [min, max] image extent.
   */
  function ChooseSwapExtent(caps: SurfaceCapabilities, framebuffer: FramebufferSize): (r: Extent2D)
    ensures caps.currentExtent.width != UINT32_MAX ==> r == caps.currentExtent
    ensures caps.currentExtent.width == UINT32_MAX ==>
      && (caps.minImageExtent.width <= caps.maxImageExtent.width ==>
            caps.minImageExtent.width <= r.width <= caps.maxImageExtent.width)
      && (caps.minImageExtent.height <= caps.maxImageExtent.height ==>
            caps.minImageExtent.height <= r.height <= caps.maxImageExtent.height)
      && (caps.minImageExtent.width <= framebuffer.width <= caps.maxImageExtent.width ==>
            r.width == framebuffer.width)
      && (caps.minImageExtent.height <= framebuffer.height <= caps.maxImageExtent.height ==>
            r.height == framebuffer.height)
      && r.width == Clamp(U32OfS32(framebuffer.width), caps.minImageExtent.width, caps.maxImageExtent.width)
      && r.height == Clamp(U32OfS32(framebuffer.height), caps.minImageExtent.height, caps.maxImageExtent.height)
  {
    if caps.currentExtent.width != UINT32_MAX then
      caps.currentExtent
    else
      var window := Extent2D(U32OfS32(framebuffer.width), U32OfS32(framebuffer.height));
      Extent2D(
        Clamp(window.width, caps.minImageExtent.width, caps.maxImageExtent.width),
        Clamp(window.height, caps.minImageExtent.height, caps.maxImageExtent.height))
  }

  // --------------------------------------------------------------- image count

  /**
   * The image count create_swapchain requests: minImageCount + 1 (in u32
   * arithmetic), lowered to maxImageCount when a maximum (non-zero) is
   * reported and exceeded.
   */
  function ImageCount(caps: SurfaceCapabilities): (r: u32)
    ensures caps.minImageCount < UINT32_MAX &&
            (caps.maxImageCount == 0 || caps.minImageCount + 1 <= caps.maxImageCount) ==>
            r == caps.minImageCount + 1
    ensures caps.minImageCount < UINT32_MAX &&
            caps.maxImageCount != 0 && caps.minImageCount + 1 > caps.maxImageCount ==>
            r == caps.maxImageCount
    ensures caps.maxImageCount != 0 ==> r <= caps.maxImageCount
    ensures caps.minImageCount == UINT32_MAX ==> r == 0  // the increment wraps around
  {
    var count := IncU32(caps.minImageCount);
    if caps.maxImageCount > 0 && count > caps.maxImageCount then caps.maxImageCount else count
  }

  // -------------------------------------------------------------- sharing mode

  datatype SharingMode = Exclusive | Concurrent

  /** imageSharingMode with the queue family index list (its length is queueFamilyIndexCount). */
  datatype SharingInfo = SharingInfo(mode: SharingMode, queueFamilyIndices: seq<nat>)

  /**
   * The sharing decision in create_swapchain: images are shared CONCURRENTly
   * between the two families when graphics and presentation use different
   * ones, and owned EXCLUSIVEly by the one family otherwise.
   */
  function SharingFor(indices: QueueFamilyIndices): (s: SharingInfo)
    requires indices.IsComplete()
    ensures s.mode == Concurrent <==> indices.graphicsFamily != indices.presentFamily
    ensures s.mode == Concurrent ==>
      s.queueFamilyIndices == [indices.graphicsFamily.value, indices.presentFamily.value]
    ensures s.mode == Exclusive ==> s.queueFamilyIndices == []
  {
    var g, p := indices.graphicsFamily.value, indices.presentFamily.value;
    if indices.graphicsFamily != indices.presentFamily then SharingInfo(Concurrent, [g, p])
    else SharingInfo(Exclusive, [])
  }

  /** Images are shared concurrently exactly when the device was opened with two queues. */
  lemma ConcurrentIffTwoQueues(indices: QueueFamilyIndices)
    requires indices.IsComplete()
    ensures SharingFor(indices).mode == Concurrent <==> |QueueCreateInfos(indices)| == 2
    ensures SharingFor(indices).mode == Exclusive <==> |QueueCreateInfos(indices)| == 1
  {
    var g, p := indices.graphicsFamily.value, indices.presentFamily.value;
    if g == p {
      assert {g, p} == {g};
    } else {
      assert |{g, p}| == 2;
    }
  }

  // ----------------------------------------------------------- create_swapchain

  /** What query_swapchain_support reports for a device and the window surface. */
  datatype SurfaceSupport = SurfaceSupport(
    capabilities: SurfaceCapabilities,
    formats: seq<SurfaceFormat>,
    presentModes: seq<PresentMode>)

  /**
   * Everything create_swapchain learns from the driver: the surface support,
   * the queue families, how many images vkGetSwapchainImagesKHR hands back,
   * and the handle vkCreateSwapchainKHR returns.
   */
  datatype SwapchainEnv = SwapchainEnv(
    support: SurfaceSupport,
    queueFamilies: seq<QueueFamily>,
    imagesReturned: u32,
    newSwapchain: Handle)

  /**
   * What create_swapchain needs of the driver: a format to index, both queue
   * roles (it calls `.value()` on them), and at least one image (asserted
   * when the image views are built). FIFO is among the present modes, as the
   * Vulkan specification requires of every surface; on such a list the
   * present-mode choice as written and as intended agree.
   */
  predicate EnvUsable(env: SwapchainEnv) {
    && |env.support.formats| > 0
    && PRESENT_MODE_FIFO in env.support.presentModes
    && QueueFamiliesOf(env.queueFamilies).IsComplete()
    && env.imagesReturned > 0
  }

  /** The fields of VkSwapchainCreateInfoKHR that depend on the driver's answers. */
  datatype SwapchainCreateInfo = SwapchainCreateInfo(
    minImageCount: u32,
    imageFormat: Format,
    imageColorSpace: ColorSpace,
    imageExtent: Extent2D,
    sharing: SharingInfo,
    presentMode: PresentMode)

  /** The create info create_swapchain fills in. */
  function CreateInfoFor(support: SurfaceSupport, families: seq<QueueFamily>, framebuffer: FramebufferSize): SwapchainCreateInfo
    requires |support.formats| > 0
    requires QueueFamiliesOf(families).IsComplete()
  {
    var format := SurfaceFormatFor(support.formats);
    SwapchainCreateInfo(
      ImageCount(support.capabilities),
      format.format,
      format.colorSpace,
      ChooseSwapExtent(support.capabilities, framebuffer),
      SharingFor(QueueFamiliesOf(families)),
      PresentModeIntended(support.presentModes))
  }

  /** SwapchainInfo: the swapchain, its images (a view into the swapchain arena), format, extent and requested count. */
  datatype SwapchainInfo = SwapchainInfo(
    swapchain: Handle,
    images: BufferView,
    imageFormat: Format,
    extent: Extent2D,
    imageCount: u32)

  /**
   * create_swapchain: chooses the settings, creates the swapchain and fetches
   * its images into the given arena. Creation results are taken as success.
   */
  method CreateSwapchain(arena: Arena, env: SwapchainEnv, framebuffer: FramebufferSize)
    returns (info: SwapchainInfo, createInfo: SwapchainCreateInfo)
    requires EnvUsable(env)
    ensures createInfo == CreateInfoFor(env.support, env.queueFamilies, framebuffer)
    ensures createInfo.imageFormat == FORMAT_B8G8R8A8_SRGB || createInfo.imageFormat == env.support.formats[0].format
    ensures createInfo.presentMode == PresentModeAsWritten(env.support.presentModes) == PRESENT_MODE_FIFO
    ensures info.swapchain == env.newSwapchain
    ensures info.images.size == env.imagesReturned && ValidIn(info.images, arena)
    ensures info.imageFormat == createInfo.imageFormat
    ensures info.extent == createInfo.imageExtent
    ensures info.imageCount == createInfo.minImageCount
  {
    var support := env.support;
    var surfaceFormat := ChooseSwapchainSurfaceFormat(support.formats);
    var presentMode := ChooseSwapPresentMode(support.presentModes);
    PresentModesAgreeWhenFifoOffered(support.presentModes);
    var extent := ChooseSwapExtent(support.capabilities, framebuffer);
    var imageCount := ImageCount(support.capabilities);
    var indices := FindQueueFamilies(env.queueFamilies);
    var sharing := SharingFor(indices);
    createInfo := SwapchainCreateInfo(imageCount, surfaceFormat.format, surfaceFormat.colorSpace, extent, sharing, presentMode);
    var images := BufferView(arena.generation, env.imagesReturned);
    info := SwapchainInfo(env.newSwapchain, images, surfaceFormat.format, extent, imageCount);
  }

  /**
   * A surface reporting minImageCount 2, no maximum and a current extent of
   * 800x600, one B8G8R8A8_SRGB format and FIFO, on a device with one family
   * doing both roles: three images of 800x600 in that format, FIFO, exclusive.
   */
  lemma MockSurfaceExample()
    ensures var caps := SurfaceCapabilities(2, 0, Extent2D(800, 600), Extent2D(1, 1), Extent2D(4096, 4096));
            var support := SurfaceSupport(caps, [PREFERRED_SURFACE_FORMAT], [PRESENT_MODE_FIFO]);
            var families := [QueueFamily(QUEUE_GRAPHICS_BIT, true)];
            QueueFamiliesOf(families).IsComplete() &&
            CreateInfoFor(support, families, FramebufferSize(1024, 768)) ==
              SwapchainCreateInfo(3, FORMAT_B8G8R8A8_SRGB, COLOR_SPACE_SRGB_NONLINEAR, Extent2D(800, 600),
                                  SharingInfo(Exclusive, []), PRESENT_MODE_FIFO)
  {
    var families := [QueueFamily(QUEUE_GRAPHICS_BIT, true)];
    assert SupportsGraphics(families[0]);
    assert IndicesAfter(families, 1) == QueueFamilyIndices(Some(0), Some(0));
    assert QueueFamiliesOf(families) == QueueFamilyIndices(Some(0), Some(0));
  }

  /** Two image-count examples: (2, no maximum) gives 3, (2, maximum 2) gives 2. */
  lemma ImageCountExamples(extent: Extent2D)
    ensures ImageCount(SurfaceCapabilities(2, 0, extent, extent, extent)) == 3
    ensures ImageCount(SurfaceCapabilities(2, 2, extent, extent, extent)) == 2
  {
  }
}
