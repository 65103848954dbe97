/**
 * Frames in flight (tests/shared.h and tests/shadows.h): a small ring of
 * per-frame synchronisation objects, a per-swapchain-image record of the
 * frame that last rendered to the image, and the submission of the render
 * passes' command buffers. The GPU is not modelled; what the code asks of
 * it (waiting on and resetting fences, submitting, presenting) is appended
 * to a log.
 */
module FramePacing {
  import opened Common

  datatype GpuEvent =
    | WaitForFence(fence: Handle)
    | ResetFence(fence: Handle)
    | QueueSubmit(waitSemaphore: Handle, commandBuffers: seq<Handle>, signalSemaphore: Handle, fence: Handle)
    | QueuePresent(waitSemaphore: Handle, imageIndex: nat)

  /** The index of the frame after `i` in a ring of `count` frames, as tests/shared.h computes it. */
  function NextFrameIndex(i: nat, count: nat): (r: nat)
    requires count > 0
    ensures r < count
  {
    (i + 1) % count
  }

  /** The same step as tests/shadows.h computes it, without a remainder. */
  function NextFrame(curr: u32, frameCount: u32): u32
    requires curr < frameCount
  {
    if curr == frameCount - 1 then 0 else curr + 1
  }

  /** On every index in range the two formulations agree. */
  lemma NextFrameAgrees(curr: u32, frameCount: u32)
    requires curr < frameCount
    ensures NextFrame(curr, frameCount) as int == NextFrameIndex(curr as nat, frameCount as nat)
  {
    var c: nat, n: nat := curr as nat, frameCount as nat;
    if c + 1 == n {
      RemainderSelf(n);
    } else {
      RemainderBelow(c + 1, n);
    }
  }

  /** The frame index after `k` steps from `i`. */
  function CycleTimes(i: nat, count: nat, k: nat): (r: nat)
    requires i < count
    ensures r < count
  {
    if k == 0 then i else NextFrameIndex(CycleTimes(i, count, k - 1), count)
  }

  lemma {:induction false} CycleTimesAdditive(i: nat, count: nat, a: nat, b: nat)
    requires i < count
    ensures CycleTimes(i, count, a + b) == CycleTimes(CycleTimes(i, count, a), count, b)
    decreases b
  {
    if b > 0 {
      CycleTimesAdditive(i, count, a, b - 1);
    }
  }

  /** Before the ring wraps, each step moves one frame on. */
  lemma {:induction false} CycleTimesBeforeWrap(i: nat, count: nat, k: nat)
    requires i + k < count
    ensures CycleTimes(i, count, k) == i + k
    decreases k
  {
    if k > 0 {
      CycleTimesBeforeWrap(i, count, k - 1);
      RemainderBelow(i + k, count);
    }
  }

  lemma RemainderBelow(x: nat, n: nat)
    requires x < n
    ensures x % n == x
  {
  }

  lemma RemainderSelf(n: nat)
    requires n > 0
    ensures n % n == 0
  {
    assert n == 1 * n + 0;
  }

  /** After as many steps as there are frames, the index is back where it started. */
  lemma CycleReturnsToStart(i: nat, count: nat)
    requires i < count
    ensures CycleTimes(i, count, count) == i
  {
    var toLast := count - 1 - i;
    CycleTimesBeforeWrap(i, count, toLast);
    CycleTimesAdditive(i, count, toLast, 1);
    RemainderSelf(count);
    CycleTimesAdditive(i, count, toLast + 1, i);
    if i > 0 {
      CycleTimesBeforeWrap(0, count, i);
    }
  }

  /** The command buffers of one render pass, one per swapchain image. */
  datatype RenderPass = RenderPass(commandBuffers: seq<Handle>)

  /** Capacity of the array the command buffers are collected in. */
  const MAX_SUBMITTED_PASSES: nat := 4

  /** Collects, in order, every render pass's command buffer for the given image. */
  method CollectCommandBuffers(passes: seq<RenderPass>, imageIndex: nat) returns (cmds: BoundedArray<Handle>)
    requires |passes| <= MAX_SUBMITTED_PASSES
    requires forall p :: 0 <= p < |passes| ==> imageIndex < |passes[p].commandBuffers|
    ensures cmds.capacity == MAX_SUBMITTED_PASSES
    ensures |cmds.items| == |passes|
    ensures forall p :: 0 <= p < |passes| ==> cmds.items[p] == passes[p].commandBuffers[imageIndex]
  {
    cmds := EmptyArray(MAX_SUBMITTED_PASSES);
    var p := 0;
    while p < |passes|
      invariant 0 <= p <= |passes|
      invariant cmds.capacity == MAX_SUBMITTED_PASSES
      invariant |cmds.items| == p
      invariant forall q :: 0 <= q < p ==> cmds.items[q] == passes[q].commandBuffers[imageIndex]
    {
      cmds := Push(cmds, passes[p].commandBuffers[imageIndex]);
      p := p + 1;
    }
  }

  /** The per-frame objects of tests/shared.h. */
  datatype Frame = Frame(imageAquiredSemaphore: Handle, renderFinishedSemaphore: Handle, inFlightFence: Handle)

  /**
   * The frame state of tests/shared.h: the frames, the current frame, and
   * per swapchain image the in-flight fence of the frame that last
   * rendered to it, or `VK_NULL_HANDLE`.
   */
  class FrameState {
    var frames: seq<Frame>
    var currentFrameIndex: nat
    var previousFrameInFlightFences: seq<Handle>
    var gpuLog: seq<GpuEvent>

    ghost predicate IsFrameFence(h: Handle)
      reads this
    {
      exists j :: 0 <= j < |frames| && frames[j].inFlightFence == h
    }

    ghost predicate Valid()
      reads this
    {
      && 0 < |frames|
      && currentFrameIndex < |frames|
      && (forall j :: 0 <= j < |frames| ==> frames[j].inFlightFence != VK_NULL_HANDLE)
      && (forall i :: 0 <= i < |previousFrameInFlightFences| ==>
            previousFrameInFlightFences[i] == VK_NULL_HANDLE || IsFrameFence(previousFrameInFlightFences[i]))
    }

    function CurrentFrame(): Frame
      reads this
      requires Valid()
    {
      frames[currentFrameIndex]
    }

    /** Starts at frame 0, with no image rendered to yet. */
    constructor (frames: seq<Frame>, imageCount: nat)
      requires 0 < |frames|
      requires forall j :: 0 <= j < |frames| ==> frames[j].inFlightFence != VK_NULL_HANDLE
      ensures Valid()
      ensures this.frames == frames && currentFrameIndex == 0 && gpuLog == []
      ensures previousFrameInFlightFences == seq(imageCount, _ => VK_NULL_HANDLE)
    {
      this.frames := frames;
      currentFrameIndex := 0;
      previousFrameInFlightFences := seq(imageCount, _ => VK_NULL_HANDLE);
      gpuLog := [];
    }

    /**
     * Waits for the frame that last rendered to the image, if any, resets
     * the current frame's fence and records the current frame as the
     * image's last user.
     */
    method SynchronizeCurrentFrame(swapchainImageIndex: nat)
      requires Valid() && swapchainImageIndex < |previousFrameInFlightFences|
      modifies this
      ensures Valid()
      ensures frames == old(frames) && currentFrameIndex == old(currentFrameIndex)
      ensures previousFrameInFlightFences
           == old(previousFrameInFlightFences)[swapchainImageIndex := old(CurrentFrame()).inFlightFence]
      ensures old(previousFrameInFlightFences[swapchainImageIndex]) != VK_NULL_HANDLE ==>
                gpuLog == old(gpuLog) + [WaitForFence(old(previousFrameInFlightFences[swapchainImageIndex])),
                                         ResetFence(old(CurrentFrame()).inFlightFence)]
      ensures old(previousFrameInFlightFences[swapchainImageIndex]) == VK_NULL_HANDLE ==>
                gpuLog == old(gpuLog) + [ResetFence(old(CurrentFrame()).inFlightFence)]
    {
      var previous := previousFrameInFlightFences[swapchainImageIndex];
      if previous != VK_NULL_HANDLE {
        gpuLog := gpuLog + [WaitForFence(previous)];
      }
      var current := frames[currentFrameIndex];
      gpuLog := gpuLog + [ResetFence(current.inFlightFence)];
      assert IsFrameFence(current.inFlightFence);
      previousFrameInFlightFences := previousFrameInFlightFences[swapchainImageIndex := current.inFlightFence];
    }

    /**
     * Submits every render pass's command buffer for the image, signalling
     * the current frame's fence, then presents the image.
     */
    method SubmitRenderPasses(passes: seq<RenderPass>, swapchainImageIndex: nat)
      requires Valid()
      requires |passes| <= MAX_SUBMITTED_PASSES
      requires forall p :: 0 <= p < |passes| ==> swapchainImageIndex < |passes[p].commandBuffers|
      modifies this`gpuLog
      ensures exists cmds: seq<Handle> ::
                && |cmds| == |passes|
                && (forall p :: 0 <= p < |passes| ==> cmds[p] == passes[p].commandBuffers[swapchainImageIndex])
                && gpuLog == old(gpuLog) + [QueueSubmit(CurrentFrame().imageAquiredSemaphore, cmds,
                                                        CurrentFrame().renderFinishedSemaphore,
                                                        CurrentFrame().inFlightFence),
                                            QueuePresent(CurrentFrame().renderFinishedSemaphore, swapchainImageIndex)]
    {
      var cmds := CollectCommandBuffers(passes, swapchainImageIndex);
      var frame := frames[currentFrameIndex];
      gpuLog := gpuLog + [QueueSubmit(frame.imageAquiredSemaphore, cmds.items, frame.renderFinishedSemaphore, frame.inFlightFence),
                          QueuePresent(frame.renderFinishedSemaphore, swapchainImageIndex)];
    }

    method CycleFrame()
      requires Valid()
      modifies this`currentFrameIndex
      ensures Valid()
      ensures currentFrameIndex == NextFrameIndex(old(currentFrameIndex), |frames|)
    {
      currentFrameIndex := (currentFrameIndex + 1) % |frames|;
    }
  }

  /** The objects tests/shadows.h creates for one frame. */
  datatype FrameObjects = FrameObjects(imageAquired: Handle, renderFinished: Handle, inFlight: Handle)

  /** Capacity of each of the frame-sync arrays. */
  const FRAME_SYNC_CAPACITY: nat := 4

  /**
   * The frame-sync record of tests/shadows.h. `imgPrevFrame` holds, per
   * swapchain image, the index of the frame that last rendered to it, or
   * `U32_MAX` when none has.
   */
  class FrameSync {
    var imgAquired: seq<Handle>
    var imgPrevFrame: seq<u32>
    var renderFinished: seq<Handle>
    var inFlight: seq<Handle>
    var currFrame: u32
    var frameCount: u32
    var gpuLog: seq<GpuEvent>

    ghost predicate Valid()
      reads this
    {
      && 0 < frameCount as int <= FRAME_SYNC_CAPACITY
      && |imgAquired| == |renderFinished| == |inFlight| == frameCount as int
      && |imgPrevFrame| == frameCount as int
      && currFrame < frameCount
      && forall i :: 0 <= i < |imgPrevFrame| ==> imgPrevFrame[i] == U32_MAX || imgPrevFrame[i] < frameCount
    }

    /** The record starts zeroed, as the application state it lives in is. */
    constructor ()
      ensures imgAquired == [] && imgPrevFrame == [] && renderFinished == [] && inFlight == []
      ensures currFrame == 0 && frameCount == 0 && gpuLog == []
    {
      imgAquired, imgPrevFrame, renderFinished, inFlight := [], [], [], [];
      currFrame, frameCount, gpuLog := 0, 0, [];
    }

    /**
     * One frame per swapchain image. More images than the arrays hold fail
     * the assertion; otherwise every frame gets its created objects and no
     * image has a previous frame.
     */
    method InitFrameSync(imageCount: u32, created: seq<FrameObjects>) returns (r: Outcome)
      requires 0 < imageCount && currFrame < imageCount
      requires |created| == imageCount as int
      modifies this
      ensures frameCount == imageCount && currFrame == old(currFrame) && gpuLog == old(gpuLog)
      ensures r.Fatal? <==> imageCount as int > FRAME_SYNC_CAPACITY
      ensures r.Fatal? ==> r.error == AssertionFailed("frame_count <= ctk_size(&img_aquired)")
      ensures r.Fatal? ==> imgAquired == old(imgAquired) && imgPrevFrame == old(imgPrevFrame)
                           && renderFinished == old(renderFinished) && inFlight == old(inFlight)
      ensures r.Done? ==> Valid()
      ensures r.Done? ==> forall i :: 0 <= i < imageCount as int ==>
                            && imgAquired[i] == created[i].imageAquired
                            && renderFinished[i] == created[i].renderFinished
                            && inFlight[i] == created[i].inFlight
                            && imgPrevFrame[i] == U32_MAX
    {
      frameCount := imageCount;
      if frameCount as int > FRAME_SYNC_CAPACITY {
        return Fatal(AssertionFailed("frame_count <= ctk_size(&img_aquired)"));
      }
      var n := imageCount as int;
      // Setting the counts exposes zeroed slots; each is then written in place.
      var acquired: seq<Handle> := seq(n, _ => VK_NULL_HANDLE);
      var finished: seq<Handle> := seq(n, _ => VK_NULL_HANDLE);
      var fences: seq<Handle> := seq(n, _ => VK_NULL_HANDLE);
      var previous: seq<u32> := seq(n, _ => 0);
      var i := 0;
      while i < n
        invariant 0 <= i <= n
        invariant |acquired| == |finished| == |fences| == n
        invariant forall j :: 0 <= j < i ==>
                    && acquired[j] == created[j].imageAquired
                    && finished[j] == created[j].renderFinished
                    && fences[j] == created[j].inFlight
      {
        acquired := acquired[i := created[i].imageAquired];
        finished := finished[i := created[i].renderFinished];
        fences := fences[i := created[i].inFlight];
        i := i + 1;
      }
      i := 0;
      while i < n
        invariant 0 <= i <= n
        invariant |previous| == n
        invariant forall j :: 0 <= j < i ==> previous[j] == U32_MAX
      {
        previous := previous[i := U32_MAX];
        i := i + 1;
      }
      imgAquired, renderFinished, inFlight, imgPrevFrame := acquired, finished, fences, previous;
      return Done;
    }

    /**
     * Waits for the in-flight fence of the frame that last rendered to the
     * image, if one has, resets the current frame's fence and records the
     * current frame as the image's last user.
     */
    method SyncFrame(swapchainImageIndex: nat)
      requires Valid() && swapchainImageIndex < |imgPrevFrame|
      modifies this
      ensures Valid()
      ensures imgAquired == old(imgAquired) && renderFinished == old(renderFinished) && inFlight == old(inFlight)
      ensures currFrame == old(currFrame) && frameCount == old(frameCount)
      ensures imgPrevFrame == old(imgPrevFrame)[swapchainImageIndex := old(currFrame)]
      ensures old(imgPrevFrame[swapchainImageIndex]) != U32_MAX ==>
                gpuLog == old(gpuLog) + [WaitForFence(old(inFlight[imgPrevFrame[swapchainImageIndex]])),
                                         ResetFence(old(inFlight[currFrame]))]
      ensures old(imgPrevFrame[swapchainImageIndex]) == U32_MAX ==>
                gpuLog == old(gpuLog) + [ResetFence(old(inFlight[currFrame]))]
    {
      var previous := imgPrevFrame[swapchainImageIndex];
      if previous != U32_MAX {
        gpuLog := gpuLog + [WaitForFence(inFlight[previous])];
      }
      gpuLog := gpuLog + [ResetFence(inFlight[currFrame])];
      imgPrevFrame := imgPrevFrame[swapchainImageIndex := currFrame];
    }

    method CycleFrame()
      requires Valid()
      modifies this`currFrame
      ensures Valid()
      ensures currFrame == NextFrame(old(currFrame), frameCount)
      ensures currFrame as int == NextFrameIndex(old(currFrame) as nat, frameCount as nat)
    {
      NextFrameAgrees(currFrame, frameCount);
      currFrame := if currFrame == frameCount - 1 then 0 else currFrame + 1;
    }
  }
}
