/**
 * The per-frame state machine of the renderer: the frame slot counter, one
 * in-flight fence per slot, the resize flag set by the window callback, and
 * the swapchain with its image views and framebuffers, which are torn down
 * and rebuilt when the window changes.
 *
 * Driver calls are not executed; each one the renderer makes is appended to
 * `trace`, and the results the driver would return come in as inputs.
 */
module FrameLoop {
  import opened VkTypes
  import opened VulkanMainH
  import opened SwapchainSupport

  /** A driver call the frame loop makes, with the slot or index it concerns. */
  datatype Call =
    | WaitForFences(slot: nat)
    | AcquireNextImage(slot: nat)
    | ResetFences(slot: nat)
    | ResetCommandBuffer(slot: nat)
    | RecordCommandBuffer(slot: nat, imageIndex: nat)
    | QueueSubmit(slot: nat)
    | QueuePresent(imageIndex: nat)
    | DeviceWaitIdle
    | DestroyFramebuffer(index: nat)
    | DestroyImageView(index: nat)
    | DestroySwapchainKhr(swapchain: Handle)
    | CreateSwapchainKhr(swapchain: Handle)
    | CreateImageView(index: nat)
    | CreateFramebuffer(index: nat)

  /** The calls a `for (i = 0; i < n; i++)` loop makes, one per index. */
  function Numbered(n: nat, call: nat -> Call): (r: seq<Call>)
    ensures |r| == n
  {
    if n == 0 then [] else Numbered(n - 1, call) + [call(n - 1)]
  }

  /** Entry i of the loop's calls is the call for index i. */
  lemma {:induction false} NumberedAt(n: nat, call: nat -> Call)
    ensures forall i :: 0 <= i < n ==> Numbered(n, call)[i] == call(i)
  {
    if n > 0 {
      NumberedAt(n - 1, call);
    }
  }

  function FramebufferDestroys(n: nat): seq<Call> { Numbered(n, (i: nat) => DestroyFramebuffer(i)) }
  function ImageViewDestroys(n: nat): seq<Call> { Numbered(n, (i: nat) => DestroyImageView(i)) }
  function ImageViewCreates(n: nat): seq<Call> { Numbered(n, (i: nat) => CreateImageView(i)) }
  function FramebufferCreates(n: nat): seq<Call> { Numbered(n, (i: nat) => CreateFramebuffer(i)) }

  /** destroy_swapchain's calls: every framebuffer, then every image view, then the swapchain. */
  function DestroyCalls(framebuffers: nat, views: nat, swapchain: Handle): seq<Call> {
    FramebufferDestroys(framebuffers) + ImageViewDestroys(views) + [DestroySwapchainKhr(swapchain)]
  }

  /** The calls that build a swapchain of `images` images with its views and framebuffers. */
  function CreateCalls(swapchain: Handle, images: nat): seq<Call> {
    [CreateSwapchainKhr(swapchain)] + ImageViewCreates(images) + FramebufferCreates(images)
  }

  /** recreate_swapchain's calls once the window has a usable size. */
  function RecreateCalls(framebuffers: nat, views: nat, oldSwapchain: Handle, env: SwapchainEnv): seq<Call> {
    [DeviceWaitIdle] + DestroyCalls(framebuffers, views, oldSwapchain) + CreateCalls(env.newSwapchain, env.imagesReturned)
  }

  /**
   * Teardown order: no image view is destroyed before a framebuffer (which
   * uses it), the swapchain (which owns the images) goes last, and every one
   * of them is destroyed exactly once.
   */
  lemma DestroyOrder(framebuffers: nat, views: nat, swapchain: Handle)
    ensures var calls := DestroyCalls(framebuffers, views, swapchain);
      && |calls| == framebuffers + views + 1
      && (forall i :: 0 <= i < framebuffers ==> calls[i] == DestroyFramebuffer(i))
      && (forall i :: framebuffers <= i < framebuffers + views ==> calls[i] == DestroyImageView(i - framebuffers))
      && calls[framebuffers + views] == DestroySwapchainKhr(swapchain)
  {
    var fbs, vs := FramebufferDestroys(framebuffers), ImageViewDestroys(views);
    NumberedAt(framebuffers, (i: nat) => DestroyFramebuffer(i));
    NumberedAt(views, (i: nat) => DestroyImageView(i));
    var calls := DestroyCalls(framebuffers, views, swapchain);
    assert forall i :: 0 <= i < framebuffers ==> calls[i] == fbs[i];
    assert forall i :: framebuffers <= i < framebuffers + views ==> calls[i] == vs[i - framebuffers];
  }

  /** Recreating the swapchain never resets a fence or submits work. */
  lemma RecreateNeverSubmits(framebuffers: nat, views: nat, oldSwapchain: Handle, env: SwapchainEnv)
    ensures forall c :: c in RecreateCalls(framebuffers, views, oldSwapchain, env) ==>
      !c.ResetFences? && !c.QueueSubmit? && !c.QueuePresent?
  {
    var fd, vd := FramebufferDestroys(framebuffers), ImageViewDestroys(views);
    var vc, fc := ImageViewCreates(env.imagesReturned), FramebufferCreates(env.imagesReturned);
    NumberedAt(framebuffers, (i: nat) => DestroyFramebuffer(i));
    NumberedAt(views, (i: nat) => DestroyImageView(i));
    NumberedAt(env.imagesReturned, (i: nat) => CreateImageView(i));
    NumberedAt(env.imagesReturned, (i: nat) => CreateFramebuffer(i));
    assert forall c :: c in fd ==> c.DestroyFramebuffer?;
    assert forall c :: c in vd ==> c.DestroyImageView?;
    assert forall c :: c in vc ==> c.CreateImageView?;
    assert forall c :: c in fc ==> c.CreateFramebuffer?;
  }

  // ------------------------------------------------------------ window size

  /** A framebuffer size the swapchain can be built for: neither side is zero. */
  predicate Usable(size: FramebufferSize) {
    size.width != 0 && size.height != 0
  }

  /** The first usable reading in a sequence of glfwGetFramebufferSize results. */
  function FirstUsableIndex(sizes: seq<FramebufferSize>): (k: nat)
    requires exists i :: 0 <= i < |sizes| && Usable(sizes[i])
    ensures k < |sizes| && Usable(sizes[k])
    ensures forall j :: 0 <= j < k ==> !Usable(sizes[j])
  {
    if Usable(sizes[0]) then 0
    else
      var i :| 0 <= i < |sizes| && Usable(sizes[i]);
      assert 0 <= i - 1 < |sizes[1..]| && Usable(sizes[1..][i - 1]);
      1 + FirstUsableIndex(sizes[1..])
  }

  /**
   * The wait at the start of recreate_swapchain: reads the framebuffer size
   * and, while either side is zero (the window is minimised), reads it again
   * and then waits for events (glfwWaitEvents, which runs the window's
   * callbacks). The readings are given; that one of them is usable is what
   * makes the loop end. `waits` counts the glfwWaitEvents calls: one per
   * reading after the first, the usable one included.
   */
  method WaitForUsableSize(sizes: seq<FramebufferSize>) returns (k: nat, waits: nat)
    requires exists i :: 0 <= i < |sizes| && Usable(sizes[i])
    ensures k == FirstUsableIndex(sizes)
    ensures k < |sizes| && Usable(sizes[k])
    ensures waits == k
  {
    k, waits := 0, 0;
    var size := sizes[0];
    while size.width == 0 || size.height == 0
      invariant k < |sizes| && size == sizes[k]
      invariant forall j :: 0 <= j < k ==> !Usable(sizes[j])
      invariant waits == k
      decreases |sizes| - k
    {
      k := k + 1;
      size := sizes[k];
      waits := waits + 1;
    }
    FirstUsableIsUnique(sizes, k);
  }

  lemma FirstUsableIsUnique(sizes: seq<FramebufferSize>, k: nat)
    requires k < |sizes| && Usable(sizes[k])
    requires forall j :: 0 <= j < k ==> !Usable(sizes[j])
    ensures FirstUsableIndex(sizes) == k
  {
  }

  // --------------------------------------------- image views, framebuffers

  /**
   * create_swapchain_image_views: one view per swapchain image, in the
   * swapchain arena; a swapchain without images is a fatal assertion.
   */
  method CreateSwapchainImageViews(arena: Arena, info: SwapchainInfo) returns (views: BufferView, calls: seq<Call>)
    requires info.images.size > 0
    ensures views.size == info.images.size && ValidIn(views, arena)
    ensures calls == ImageViewCreates(info.images.size)
  {
    views := BufferView(arena.generation, info.images.size);
    calls := [];
    for i := 0 to info.images.size
      invariant calls == ImageViewCreates(i)
    {
      calls := calls + [CreateImageView(i)];
    }
  }

  /** create_framebuffers: one framebuffer per image view, in the swapchain arena. */
  method CreateFramebuffers(arena: Arena, views: BufferView) returns (framebuffers: BufferView, calls: seq<Call>)
    ensures framebuffers.size == views.size && ValidIn(framebuffers, arena)
    ensures calls == FramebufferCreates(views.size)
  {
    framebuffers := BufferView(arena.generation, views.size);
    calls := [];
    for i := 0 to views.size
      invariant calls == FramebufferCreates(i)
    {
      calls := calls + [CreateFramebuffer(i)];
    }
  }

  /**
   * A swapchain record with its image views and framebuffers as
   * create_swapchain, create_swapchain_image_views and create_framebuffers
   * build them from the driver's answers `env` for the framebuffer size
   * `framebuffer`: the new handle, the chosen extent, surface format and
   * requested image count, and one view and one framebuffer per image.
   */
  predicate BuiltFor(info: SwapchainInfo, views: BufferView, framebuffers: BufferView,
                     env: SwapchainEnv, framebuffer: FramebufferSize)
    requires |env.support.formats| > 0
  {
    && info.swapchain == env.newSwapchain
    && info.extent == ChooseSwapExtent(env.support.capabilities, framebuffer)
    && info.imageFormat == SurfaceFormatFor(env.support.formats).format
    && info.imageCount == ImageCount(env.support.capabilities)
    && info.images.size == env.imagesReturned
    && views.size == env.imagesReturned
    && framebuffers.size == env.imagesReturned
  }

  /**
   * The swapchain build that initVulkan and recreate_swapchain share:
   * create_swapchain, then create_swapchain_image_views, then
   * create_framebuffers, all in the given arena.
   */
  method BuildSwapchain(arena: Arena, env: SwapchainEnv, framebuffer: FramebufferSize)
    returns (info: SwapchainInfo, views: BufferView, framebuffers: BufferView, calls: seq<Call>)
    requires EnvUsable(env)
    ensures BuiltFor(info, views, framebuffers, env, framebuffer)
    ensures ValidIn(info.images, arena) && ValidIn(views, arena) && ValidIn(framebuffers, arena)
    ensures calls == CreateCalls(env.newSwapchain, env.imagesReturned)
  {
    var createInfo;
    info, createInfo := CreateSwapchain(arena, env, framebuffer);
    var viewCalls, framebufferCalls;
    views, viewCalls := CreateSwapchainImageViews(arena, info);
    framebuffers, framebufferCalls := CreateFramebuffers(arena, views);
    calls := [CreateSwapchainKhr(info.swapchain)] + viewCalls + framebufferCalls;
  }

  // ------------------------------------------------------------------ frame

  /**
   * Whether the window reports a resize (framebuffer_resize_callback) while
   * the size wait of a rebuild is in glfwWaitEvents. It takes effect only
   * when the wait calls glfwWaitEvents at all, that is when the first
   * reading was not usable.
   */
  predicate ResizedDuringWait(sizes: seq<FramebufferSize>, resizeInWait: bool)
    requires exists i :: 0 <= i < |sizes| && Usable(sizes[i])
  {
    FirstUsableIndex(sizes) > 0 && resizeInWait
  }

  /** What the driver and window report during one frame. */
  datatype FrameInput = FrameInput(
    acquireResult: VkResult,
    imageIndex: nat,          // the image vkAcquireNextImageKHR hands out
    submitResult: VkResult,
    presentResult: VkResult,
    sizes: seq<FramebufferSize>,  // framebuffer size readings, should the swapchain be rebuilt
    resizeInWait: bool,           // the resize callback fires while the rebuild waits for events
    env: SwapchainEnv)            // what the driver reports when it is rebuilt

  /** The inputs a swapchain rebuild needs: the window becomes usable, and the driver's answers are usable. */
  predicate RebuildPossible(sizes: seq<FramebufferSize>, env: SwapchainEnv) {
    && (exists i :: 0 <= i < |sizes| && Usable(sizes[i]))
    && EnvUsable(env)
  }

  /** The acquire result render accepts without aborting (SUBOPTIMAL counts as success). */
  predicate AcquireAccepted(r: VkResult) {
    r == Success || r == SuboptimalKhr
  }

  /** Whether render rebuilds the swapchain for these results and this resize flag. */
  predicate RebuildsSwapchain(input: FrameInput, resized: bool) {
    || input.acquireResult == ErrorOutOfDateKhr
    || (AcquireAccepted(input.acquireResult) && input.submitResult == Success &&
        input.presentResult == Success && resized)
  }

  /**
   * How a call of render ends: it skipped the frame because the swapchain was
   * out of date, presented (and perhaps rebuilt the swapchain), or hit a
   * failing VK_CHECK, which aborts the program.
   */
  datatype FrameOutcome = SkippedOutOfDate | Presented(rebuilt: bool) | Fatal(result: VkResult)

  /** The calls of a frame after a successful acquire, up to and including the present. */
  function SubmitCalls(slot: nat, imageIndex: nat): seq<Call> {
    [ResetFences(slot), ResetCommandBuffer(slot), RecordCommandBuffer(slot, imageIndex),
     QueueSubmit(slot), QueuePresent(imageIndex)]
  }

  /** The calls of a frame that gets as far as presenting. */
  function FrameCalls(slot: nat, imageIndex: nat): seq<Call> {
    [WaitForFences(slot), AcquireNextImage(slot)] + SubmitCalls(slot, imageIndex)
  }

  /** In a presented frame the slot's fence is waited on, then reset, then handed to the submit. */
  lemma FenceResetBeforeSubmit(slot: nat, imageIndex: nat)
    ensures var calls := FrameCalls(slot, imageIndex);
      exists w, r, s :: 0 <= w < r < s < |calls| &&
        calls[w] == WaitForFences(slot) && calls[r] == ResetFences(slot) && calls[s] == QueueSubmit(slot)
  {
    var calls := FrameCalls(slot, imageIndex);
    assert calls[0] == WaitForFences(slot) && calls[2] == ResetFences(slot) && calls[5] == QueueSubmit(slot);
  }

  /**
   * RuntimeData, restricted to the fields the frame loop changes. The fences
   * are the in-flight fences of the frame slots; true means signalled.
   */
  class Runtime {
    var currentFrame: nat
    var framebufferWasResized: bool
    const inflightFences: array<bool>
    var swapchainInfo: SwapchainInfo
    var swapchainImageViews: BufferView
    var swapchainFramebuffers: BufferView
    var swapchainArena: Arena
    var trace: seq<Call>

    /**
     * One fence per frame slot, the slot counter in range, one view per
     * swapchain image and one framebuffer per view, all of them in the
     * swapchain arena's current contents.
     */
    predicate Valid()
      reads this, inflightFences
    {
      && inflightFences.Length == MAX_FRAMES_IN_FLIGHT
      && currentFrame < MAX_FRAMES_IN_FLIGHT
      && swapchainInfo.images.size > 0
      && swapchainImageViews.size == swapchainInfo.images.size
      && swapchainFramebuffers.size == swapchainImageViews.size
      && ValidIn(swapchainInfo.images, swapchainArena)
      && ValidIn(swapchainImageViews, swapchainArena)
      && ValidIn(swapchainFramebuffers, swapchainArena)
    }

    /**
     * The part of initVulkan the frame loop depends on: the swapchain with
     * its views and framebuffers, and the sync objects, whose fences are
     * created signalled so that the first wait on each slot returns.
     * RuntimeData starts at frame 0 with the resize flag clear.
     */
    constructor(env: SwapchainEnv, framebuffer: FramebufferSize)
      requires EnvUsable(env)
      ensures Valid() && fresh(inflightFences)
      ensures currentFrame == 0 && !framebufferWasResized
      ensures forall s :: 0 <= s < MAX_FRAMES_IN_FLIGHT ==> inflightFences[s]
      ensures BuiltFor(swapchainInfo, swapchainImageViews, swapchainFramebuffers, env, framebuffer)
      ensures trace == CreateCalls(env.newSwapchain, env.imagesReturned)
    {
      var arena := Arena(0);
      var info, views, framebuffers, created := BuildSwapchain(arena, env, framebuffer);
      var fences := new bool[MAX_FRAMES_IN_FLIGHT];
      for i := 0 to MAX_FRAMES_IN_FLIGHT
        invariant forall s :: 0 <= s < i ==> fences[s]
      {
        fences[i] := true;
      }
      currentFrame := 0;
      framebufferWasResized := false;
      inflightFences := fences;
      swapchainInfo := info;
      swapchainImageViews := views;
      swapchainFramebuffers := framebuffers;
      swapchainArena := arena;
      trace := created;
    }

    /** framebuffer_resize_callback: the window reports a new size. */
    method OnFramebufferResize()
      modifies this
      ensures framebufferWasResized
      ensures currentFrame == old(currentFrame) && trace == old(trace)
      ensures swapchainInfo == old(swapchainInfo) && swapchainArena == old(swapchainArena)
      ensures swapchainImageViews == old(swapchainImageViews)
      ensures swapchainFramebuffers == old(swapchainFramebuffers)
    {
      framebufferWasResized := true;
    }

    /**
     * destroy_swapchain: destroys every framebuffer, then every image view,
     * then the swapchain, and clears the swapchain arena, so that the old
     * images, views and framebuffers are no longer valid.
     */
    method DestroySwapchain()
      modifies this
      ensures trace == old(trace) +
        DestroyCalls(old(swapchainFramebuffers.size), old(swapchainImageViews.size), old(swapchainInfo.swapchain))
      ensures swapchainArena == ArenaClear(old(swapchainArena))
      ensures old(ValidIn(swapchainImageViews, swapchainArena)) ==> !ValidIn(swapchainImageViews, swapchainArena)
      ensures old(ValidIn(swapchainFramebuffers, swapchainArena)) ==> !ValidIn(swapchainFramebuffers, swapchainArena)
      ensures currentFrame == old(currentFrame) && framebufferWasResized == old(framebufferWasResized)
      ensures swapchainInfo == old(swapchainInfo)
      ensures swapchainImageViews == old(swapchainImageViews)
      ensures swapchainFramebuffers == old(swapchainFramebuffers)
    {
      var calls := [];
      for i := 0 to swapchainFramebuffers.size
        invariant calls == FramebufferDestroys(i)
      {
        calls := calls + [DestroyFramebuffer(i)];
      }
      for i := 0 to swapchainImageViews.size
        invariant calls == FramebufferDestroys(swapchainFramebuffers.size) + ImageViewDestroys(i)
      {
        calls := calls + [DestroyImageView(i)];
      }
      trace := trace + calls + [DestroySwapchainKhr(swapchainInfo.swapchain)];
      swapchainArena := ArenaClear(swapchainArena);
    }

    /**
     * recreate_swapchain: waits until the window has a usable size, waits for
     * the device to go idle, destroys the old swapchain and builds a new one,
     * with its image views and framebuffers, in the cleared swapchain arena.
     * A resize reported while it waits for events sets the resize flag.
     */
    method RecreateSwapchain(sizes: seq<FramebufferSize>, resizeInWait: bool, env: SwapchainEnv)
      requires Valid()
      requires RebuildPossible(sizes, env)
      modifies this
      ensures Valid()
      ensures trace == old(trace) +
        RecreateCalls(old(swapchainFramebuffers.size), old(swapchainImageViews.size), old(swapchainInfo.swapchain), env)
      ensures swapchainArena == ArenaClear(old(swapchainArena))
      ensures BuiltFor(swapchainInfo, swapchainImageViews, swapchainFramebuffers, env, sizes[FirstUsableIndex(sizes)])
      ensures currentFrame == old(currentFrame)
      ensures framebufferWasResized == (old(framebufferWasResized) || ResizedDuringWait(sizes, resizeInWait))
    {
      var k, waits := WaitForUsableSize(sizes);
      // framebuffer_resize_callback, run by glfwWaitEvents
      framebufferWasResized := framebufferWasResized || (waits > 0 && resizeInWait);
      ReplaceSwapchain(env, sizes[k]);
    }

    /**
     * The part of recreate_swapchain after the size wait: waits for the
     * device to go idle, destroys the old swapchain and installs a new one.
     */
    method ReplaceSwapchain(env: SwapchainEnv, framebuffer: FramebufferSize)
      requires Valid()
      requires EnvUsable(env)
      modifies this
      ensures Valid()
      ensures trace == old(trace) +
        RecreateCalls(old(swapchainFramebuffers.size), old(swapchainImageViews.size), old(swapchainInfo.swapchain), env)
      ensures swapchainArena == ArenaClear(old(swapchainArena))
      ensures BuiltFor(swapchainInfo, swapchainImageViews, swapchainFramebuffers, env, framebuffer)
      ensures currentFrame == old(currentFrame) && framebufferWasResized == old(framebufferWasResized)
    {
      ghost var destroyed := DestroyCalls(swapchainFramebuffers.size, swapchainImageViews.size, swapchainInfo.swapchain);
      trace := trace + [DeviceWaitIdle];
      DestroySwapchain();
      assert trace == old(trace) + [DeviceWaitIdle] + destroyed;
      InstallSwapchain(env, framebuffer);
    }

    /**
     * Builds a swapchain with its views and framebuffers in the current
     * swapchain arena and makes it the runtime's swapchain.
     */
    method InstallSwapchain(env: SwapchainEnv, framebuffer: FramebufferSize)
      requires inflightFences.Length == MAX_FRAMES_IN_FLIGHT && currentFrame < MAX_FRAMES_IN_FLIGHT
      requires EnvUsable(env)
      modifies this
      ensures Valid()
      ensures trace == old(trace) + CreateCalls(env.newSwapchain, env.imagesReturned)
      ensures BuiltFor(swapchainInfo, swapchainImageViews, swapchainFramebuffers, env, framebuffer)
      ensures swapchainArena == old(swapchainArena)
      ensures currentFrame == old(currentFrame) && framebufferWasResized == old(framebufferWasResized)
    {
      var info, views, framebuffers, created := BuildSwapchain(swapchainArena, env, framebuffer);
      swapchainInfo := info;
      swapchainImageViews := views;
      swapchainFramebuffers := framebuffers;
      trace := trace + created;
    }

    /**
     * The swapchain state after a rebuild for `input`: the new swapchain,
     * sized for the first usable reading, with one view and one framebuffer
     * per returned image, in the arena cleared once more.
     */
    predicate Rebuilt(input: FrameInput, arenaBefore: Arena)
      requires RebuildPossible(input.sizes, input.env)
      reads this
    {
      && BuiltFor(swapchainInfo, swapchainImageViews, swapchainFramebuffers, input.env, input.sizes[FirstUsableIndex(input.sizes)])
      && swapchainArena == ArenaClear(arenaBefore)
    }

    /** The swapchain, its views and framebuffers, and the swapchain arena are as they were. */
    twostate predicate SwapchainKept()
      reads this
    {
      && swapchainInfo == old(swapchainInfo) && swapchainArena == old(swapchainArena)
      && swapchainImageViews == old(swapchainImageViews)
      && swapchainFramebuffers == old(swapchainFramebuffers)
    }

    /**
     * What one call of render does to the runtime, for the frame slot `slot`
     * it ran in. The outcome is a skip exactly for an out-of-date acquire and
     * a presented frame exactly when acquire, submit and present succeed;
     * only the slot's fence changes. A skip leaves the fence signalled,
     * rebuilds the swapchain and keeps the resize flag, which a resize
     * during the rebuild's wait can set. A presented frame has waited on,
     * reset and submitted with the fence; it rebuilds exactly when the flag
     * was set, clearing it first, and otherwise keeps the swapchain and ends
     * with the flag clear. A fatal result is a failing one and keeps the
     * swapchain.
     */
    twostate predicate FrameDone(input: FrameInput, outcome: FrameOutcome, slot: nat)
      reads this, inflightFences
    {
      && slot < inflightFences.Length
      && (forall s :: 0 <= s < inflightFences.Length && s != slot ==> inflightFences[s] == old(inflightFences[s]))
      && (outcome == SkippedOutOfDate <==> input.acquireResult == ErrorOutOfDateKhr)
      && (outcome.Presented? <==>
            AcquireAccepted(input.acquireResult) && input.submitResult == Success && input.presentResult == Success)
      && (outcome == SkippedOutOfDate ==>
            && RebuildPossible(input.sizes, input.env)
            && inflightFences[slot]
            && framebufferWasResized == (old(framebufferWasResized) || ResizedDuringWait(input.sizes, input.resizeInWait))
            && Rebuilt(input, old(swapchainArena))
            && trace == old(trace) + [WaitForFences(slot), AcquireNextImage(slot)] +
                 RecreateCalls(old(swapchainFramebuffers.size), old(swapchainImageViews.size), old(swapchainInfo.swapchain), input.env))
      && (outcome.Presented? ==>
            && !inflightFences[slot]
            && outcome.rebuilt == old(framebufferWasResized)
            && (outcome.rebuilt ==>
                  && RebuildPossible(input.sizes, input.env)
                  && framebufferWasResized == ResizedDuringWait(input.sizes, input.resizeInWait)
                  && Rebuilt(input, old(swapchainArena))
                  && trace == old(trace) + FrameCalls(slot, input.imageIndex) +
                       RecreateCalls(old(swapchainFramebuffers.size), old(swapchainImageViews.size), old(swapchainInfo.swapchain), input.env))
            && (!outcome.rebuilt ==>
                  && !framebufferWasResized
                  && SwapchainKept()
                  && trace == old(trace) + FrameCalls(slot, input.imageIndex)))
      && (outcome.Fatal? ==> outcome.result != Success && SwapchainKept())
    }

    /** recreate_swapchain with the readings and driver answers of `input`. */
    method RebuildFor(input: FrameInput)
      requires Valid()
      requires RebuildPossible(input.sizes, input.env)
      modifies this
      ensures Valid()
      ensures Rebuilt(input, old(swapchainArena))
      ensures trace == old(trace) +
        RecreateCalls(old(swapchainFramebuffers.size), old(swapchainImageViews.size), old(swapchainInfo.swapchain), input.env)
      ensures currentFrame == old(currentFrame)
      ensures framebufferWasResized == (old(framebufferWasResized) || ResizedDuringWait(input.sizes, input.resizeInWait))
    {
      RecreateSwapchain(input.sizes, input.resizeInWait, input.env);
    }

    /**
     * render: waits for the current slot's fence, acquires an image, and
     * either rebuilds an out-of-date swapchain and skips the frame (leaving
     * the fence signalled), or resets the fence, records and submits the
     * slot's command buffer and presents. Any other failing result is a fatal
     * VK_CHECK; since present must succeed, the rebuild after presenting
     * happens exactly when the resize flag was set. The flag is cleared
     * before that rebuild, whose wait for events may set it again.
     */
    method Render(input: FrameInput) returns (outcome: FrameOutcome)
      requires Valid()
      requires AcquireAccepted(input.acquireResult) ==> input.imageIndex < swapchainFramebuffers.size
      requires RebuildsSwapchain(input, framebufferWasResized) ==> RebuildPossible(input.sizes, input.env)
      modifies this, inflightFences
      ensures Valid()
      ensures currentFrame == old(currentFrame)
      ensures FrameDone(input, outcome, currentFrame)
    {
      BeginFrame();
      var result := input.acquireResult;
      if result == ErrorOutOfDateKhr {
        RebuildFor(input);
        return SkippedOutOfDate;
      }
      if result != Success && result != SuboptimalKhr {
        return Fatal(result);
      }
      outcome := SubmitAndPresent(input);
    }

    /**
     * The start of render: waits on the current slot's fence, which the GPU
     * then has signalled, and asks the swapchain for an image.
     */
    method BeginFrame()
      requires Valid()
      modifies this, inflightFences
      ensures Valid()
      ensures inflightFences[currentFrame]
      ensures forall s :: 0 <= s < inflightFences.Length && s != currentFrame ==> inflightFences[s] == old(inflightFences[s])
      ensures trace == old(trace) + [WaitForFences(currentFrame), AcquireNextImage(currentFrame)]
      ensures currentFrame == old(currentFrame) && framebufferWasResized == old(framebufferWasResized)
      ensures SwapchainKept()
    {
      trace := trace + [WaitForFences(currentFrame)];
      inflightFences[currentFrame] := true;
      trace := trace + [AcquireNextImage(currentFrame)];
    }

    /**
     * The rest of render once an image is acquired: resets the slot's fence,
     * records and submits the slot's command buffer, presents, and rebuilds
     * the swapchain when the resize flag is set (clearing the flag first).
     * A failing submit or present is a fatal VK_CHECK.
     */
    method SubmitAndPresent(input: FrameInput) returns (outcome: FrameOutcome)
      requires Valid()
      requires input.imageIndex < swapchainFramebuffers.size
      requires input.submitResult == Success && input.presentResult == Success && framebufferWasResized ==>
        RebuildPossible(input.sizes, input.env)
      modifies this, inflightFences
      ensures Valid()
      ensures currentFrame == old(currentFrame)
      ensures !inflightFences[currentFrame]
      ensures forall s :: 0 <= s < MAX_FRAMES_IN_FLIGHT && s != currentFrame ==> inflightFences[s] == old(inflightFences[s])
      ensures outcome != SkippedOutOfDate
      ensures outcome.Presented? <==> input.submitResult == Success && input.presentResult == Success
      ensures outcome.Presented? ==>
        && outcome.rebuilt == old(framebufferWasResized)
        && framebufferWasResized == (outcome.rebuilt && ResizedDuringWait(input.sizes, input.resizeInWait))
        && trace == old(trace) + SubmitCalls(currentFrame, input.imageIndex) +
             (if outcome.rebuilt
              then RecreateCalls(old(swapchainFramebuffers.size), old(swapchainImageViews.size), old(swapchainInfo.swapchain), input.env)
              else [])
      ensures outcome.Presented? && outcome.rebuilt ==> Rebuilt(input, old(swapchainArena))
      ensures outcome.Fatal? ==> outcome.result != Success && SwapchainKept()
      ensures outcome == Presented(false) ==> SwapchainKept()
    {
      inflightFences[currentFrame] := false;
      trace := trace + [ResetFences(currentFrame)];
      trace := trace + [ResetCommandBuffer(currentFrame), RecordCommandBuffer(currentFrame, input.imageIndex)];
      trace := trace + [QueueSubmit(currentFrame)];
      var result := input.submitResult;
      if result != Success {
        return Fatal(result);
      }
      trace := trace + [QueuePresent(input.imageIndex)];
      result := input.presentResult;
      if result != Success {
        return Fatal(result);
      }
      assert trace == old(trace) + SubmitCalls(currentFrame, input.imageIndex);
      var rebuilt := false;
      if result == ErrorOutOfDateKhr || result == SuboptimalKhr || framebufferWasResized {
        framebufferWasResized := false;
        RebuildFor(input);
        rebuilt := true;
      }
      return Presented(rebuilt);
    }

    /**
     * vulkanMainLoop: one frame, then the next frame slot. The slot advances
     * whether or not render skipped the frame; only an abort stops it.
     */
    method VulkanMainLoop(input: FrameInput) returns (outcome: FrameOutcome)
      requires Valid()
      requires AcquireAccepted(input.acquireResult) ==> input.imageIndex < swapchainFramebuffers.size
      requires RebuildsSwapchain(input, framebufferWasResized) ==> RebuildPossible(input.sizes, input.env)
      modifies this, inflightFences
      ensures Valid()
      ensures FrameDone(input, outcome, old(currentFrame))
      ensures !outcome.Fatal? ==> currentFrame == (old(currentFrame) + 1) % MAX_FRAMES_IN_FLIGHT
      ensures !outcome.Fatal? ==> currentFrame != old(currentFrame)
      ensures outcome.Fatal? ==> currentFrame == old(currentFrame)
    {
      outcome := Render(input);
      if !outcome.Fatal? {
        currentFrame := (currentFrame + 1) % MAX_FRAMES_IN_FLIGHT;
      }
    }
  }
}
