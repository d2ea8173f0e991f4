/**
 * The read-only metrics of the frame a display is working on: when it began, which vsync it
 * targets, whether the previous frame is still pending or missed its deadline, and the present
 * fences of the last two frames. Times and durations are nanoseconds.
 *
 * Only the inline accessors and the initial values are modelled here; beginFrame, endFrame and
 * setPresentFence live in FrameTargeter.cpp, which is not part of this model.
 */
module FrameTargets {

  /** A fence, or the no-fence placeholder. */
  datatype Fence = NoFence | Fence(id: nat)

  /** A present fence and its fence-time tracker. */
  datatype FenceWithFenceTime = FenceWithFenceTime(fence: Fence, fenceTime: Fence)

  /** The two-slot array of present fences, the most recent frame's first. */
  type PresentFences = s: seq<FenceWithFenceTime> | |s| == 2 witness [FenceWithFenceTime(NoFence, NoFence), FenceWithFenceTime(NoFence, NoFence)]

  datatype FrameTarget = FrameTarget(
    vsyncId: int, frameBeginTime: int, expectedPresentTime: int,
    framePending: bool, frameMissed: bool, hwcFrameMissed: bool, gpuFrameMissed: bool,
    presentFences: PresentFences)
  {
    /** How long the frame has from when it actually began to when it is expected on screen. */
    function ExpectedFrameDuration(): int
    {
      expectedPresentTime - frameBeginTime
    }

    /** The vsync one period before the targeted one. */
    function PreviousFrameVsyncTime(vsyncPeriod: int): int
    {
      expectedPresentTime - vsyncPeriod
    }

    /** The present fence of the frame that targeted the previous vsync (when not running ahead). */
    function PresentFenceForPreviousFrame(): Fence
    {
      presentFences[0].fenceTime
    }

    predicate IsFramePending() { framePending }
    predicate DidMissFrame() { frameMissed }

    /** A missed HWC frame counts only when the GPU frame was not missed as well. */
    predicate DidMissHwcFrame() { hwcFrameMissed && !gpuFrameMissed }

    /** Whether the frame targets a vsync at least `n` periods ahead, for `n` greater than one. */
    predicate TargetsVsyncsAhead(n: nat, vsyncPeriod: int)
      requires n > 1
    {
      ExpectedFrameDuration() > (n - 1) * vsyncPeriod
    }
  }

  /** A frame target before any frame began: nothing pending or missed, and no present fences. */
  function Initial(): (t: FrameTarget)
    ensures !t.IsFramePending() && !t.DidMissFrame() && !t.DidMissHwcFrame() && !t.gpuFrameMissed
    ensures forall i :: 0 <= i < 2 ==> t.presentFences[i] == FenceWithFenceTime(NoFence, NoFence)
    ensures t.PresentFenceForPreviousFrame() == NoFence
  {
    FrameTarget(0, 0, 0, false, false, false, false,
                [FenceWithFenceTime(NoFence, NoFence), FenceWithFenceTime(NoFence, NoFence)])
  }

  /** A missed GPU frame is never reported as a missed HWC frame; otherwise the HWC flag decides. */
  lemma MissedHwcFrame(t: FrameTarget)
    ensures t.gpuFrameMissed ==> !t.DidMissHwcFrame()
    ensures !t.gpuFrameMissed ==> (t.DidMissHwcFrame() <==> t.hwcFrameMissed)
  {
  }

  /**
   * The frame targets more than one vsync ahead exactly when the vsync before its target is
   * still in the future of when it began.
   */
  lemma AheadIffPreviousVsyncAfterBegin(t: FrameTarget, vsyncPeriod: int)
    ensures t.TargetsVsyncsAhead(2, vsyncPeriod) <==> t.PreviousFrameVsyncTime(vsyncPeriod) > t.frameBeginTime
  {
  }

  /** Targeting `n + 1` vsyncs ahead implies targeting `n` ahead, for a non-negative period. */
  lemma {:induction false} AheadIsMonotone(t: FrameTarget, n: nat, vsyncPeriod: int)
    requires n > 1 && vsyncPeriod >= 0
    ensures t.TargetsVsyncsAhead(n + 1, vsyncPeriod) ==> t.TargetsVsyncsAhead(n, vsyncPeriod)
  {
    assert n * vsyncPeriod == (n - 1) * vsyncPeriod + vsyncPeriod;
  }
}
