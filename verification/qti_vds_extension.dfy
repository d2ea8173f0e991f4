/**
 * The QTI extension of a virtual display surface: how the gralloc usage of the sink and of the
 * scratch buffers is rewritten. Usage words are 64-bit masks of gralloc usage bits.
 */
module QtiVdsExtensions {

  type Usage = bv64

  const GRALLOC_USAGE_HW_COMPOSER: Usage := 0x0000_0800
  const GRALLOC_USAGE_HW_FB: Usage := 0x0000_1000
  const GRALLOC_USAGE_PROTECTED: Usage := 0x0000_4000
  const GRALLOC_USAGE_HW_VIDEO_ENCODER: Usage := 0x0001_0000

  /** ui::Dataspace, of which only UNKNOWN is produced here. */
  datatype Dataspace = UNKNOWN | Dataspace(code: int)

  /** The extension's state: whether the display is secure, and the sink's usage. */
  datatype QtiVirtualDisplaySurfaceExtension = QtiVirtualDisplaySurfaceExtension(qtiSecure: bool, qtiSinkUsage: Usage)
  {
    /**
     * qtiSetOutputUsage(flag): the sink usage, plus the protected bit when the display is
     * secure and the sink feeds a video encoder. The argument is not used.
     */
    function SetOutputUsageWith(flag: Usage): (usage: Usage)
      ensures usage & qtiSinkUsage == qtiSinkUsage
      ensures !(qtiSecure && qtiSinkUsage & GRALLOC_USAGE_HW_VIDEO_ENCODER != 0) ==> usage == qtiSinkUsage
    {
      var outputUsage := qtiSinkUsage;
      if qtiSecure && outputUsage & GRALLOC_USAGE_HW_VIDEO_ENCODER != 0 then
        outputUsage | GRALLOC_USAGE_PROTECTED
      else
        outputUsage
    }

    /** qtiSetOutputUsage(): the output usage computed from the stored sink usage. */
    function SetOutputUsage(): (usage: Usage)
      ensures usage & qtiSinkUsage == qtiSinkUsage
      ensures forall flag: Usage {:trigger SetOutputUsageWith(flag)} :: usage == SetOutputUsageWith(flag)
    {
      SetOutputUsageWith(qtiSinkUsage)
    }
  }

  /**
   * The constructor: the sink usage is the caller's usage with the HW-composer bit added to
   * it, and nothing else.
   */
  function Create(secure: bool, sinkUsage: Usage): (e: QtiVirtualDisplaySurfaceExtension)
    ensures e.qtiSecure == secure
    ensures e.qtiSinkUsage & sinkUsage == sinkUsage
    ensures e.qtiSinkUsage & GRALLOC_USAGE_HW_COMPOSER == GRALLOC_USAGE_HW_COMPOSER
  {
    QtiVirtualDisplaySurfaceExtension(secure, 0 | (GRALLOC_USAGE_HW_COMPOSER | sinkUsage))
  }

  /** The constructor adds no bit besides the caller's usage and the HW-composer bit. */
  lemma CreateAddsOnlyHwComposer(secure: bool, sinkUsage: Usage)
    ensures Create(secure, sinkUsage).qtiSinkUsage & !(sinkUsage | GRALLOC_USAGE_HW_COMPOSER) == 0
  {
  }

  /**
   * The output usage has the protected bit exactly when the sink has it already, or the
   * display is secure and the sink feeds a video encoder.
   */
  lemma OutputUsageProtected(e: QtiVirtualDisplaySurfaceExtension, flag: Usage)
    ensures e.SetOutputUsageWith(flag) & GRALLOC_USAGE_PROTECTED != 0 <==>
              e.qtiSinkUsage & GRALLOC_USAGE_PROTECTED != 0
              || (e.qtiSecure && e.qtiSinkUsage & GRALLOC_USAGE_HW_VIDEO_ENCODER != 0)
  {
  }

  /** The output usage differs from the sink usage in the protected bit at most. */
  lemma OutputUsageOtherBits(e: QtiVirtualDisplaySurfaceExtension, flag: Usage)
    ensures e.SetOutputUsageWith(flag) & !GRALLOC_USAGE_PROTECTED == e.qtiSinkUsage & !GRALLOC_USAGE_PROTECTED
  {
  }

  /** The output usage argument never matters: two flags give the same usage. */
  lemma OutputUsageIgnoresFlag(e: QtiVirtualDisplaySurfaceExtension, flag1: Usage, flag2: Usage)
    ensures e.SetOutputUsageWith(flag1) == e.SetOutputUsageWith(flag2)
  {
  }

  /** Computing the output usage of a sink whose usage already is an output usage changes nothing more. */
  lemma OutputUsageIdempotent(e: QtiVirtualDisplaySurfaceExtension)
    ensures QtiVirtualDisplaySurfaceExtension(e.qtiSecure, e.SetOutputUsage()).SetOutputUsage() == e.SetOutputUsage()
  {
  }

  /**
   * qtiExcludeVideoFromScratchBuffer: the usage with the framebuffer bit set and the video
   * encoder bit cleared; every other bit is kept. `source` only names the caller in the log.
   */
  function ExcludeVideoFromScratchBuffer(source: string, usage: Usage): (usageFlag: Usage)
    ensures usageFlag & GRALLOC_USAGE_HW_FB == GRALLOC_USAGE_HW_FB
    ensures usageFlag & GRALLOC_USAGE_HW_VIDEO_ENCODER == 0
    ensures usageFlag & !(GRALLOC_USAGE_HW_FB | GRALLOC_USAGE_HW_VIDEO_ENCODER)
            == usage & !(GRALLOC_USAGE_HW_FB | GRALLOC_USAGE_HW_VIDEO_ENCODER)
  {
    var usageFlag := usage | GRALLOC_USAGE_HW_FB;
    usageFlag & !GRALLOC_USAGE_HW_VIDEO_ENCODER
  }

  /** Excluding video twice is the same as excluding it once. */
  lemma ExcludeVideoIdempotent(source: string, usage: Usage)
    ensures ExcludeVideoFromScratchBuffer(source, ExcludeVideoFromScratchBuffer(source, usage))
            == ExcludeVideoFromScratchBuffer(source, usage)
  {
  }

  /**
   * A scratch buffer of a secure video sink never carries the video-encoder bit, while the
   * sink's own output usage keeps it and is protected.
   */
  lemma SecureVideoSink(secure: bool, sinkUsage: Usage, source: string)
    requires secure && sinkUsage & GRALLOC_USAGE_HW_VIDEO_ENCODER != 0
    ensures var out := Create(secure, sinkUsage).SetOutputUsage();
            out & GRALLOC_USAGE_PROTECTED != 0 && out & GRALLOC_USAGE_HW_VIDEO_ENCODER != 0
            && ExcludeVideoFromScratchBuffer(source, out) & GRALLOC_USAGE_HW_VIDEO_ENCODER == 0
  {
  }

  /** getClientTargetCurrentDataspace: always UNKNOWN. */
  function GetClientTargetCurrentDataspace(e: QtiVirtualDisplaySurfaceExtension): (d: Dataspace)
    ensures d.UNKNOWN?
  {
    UNKNOWN
  }
}
