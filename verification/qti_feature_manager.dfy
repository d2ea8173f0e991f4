/**
 * The table of QTI SurfaceFlinger extension features: each feature is switched on by a boolean
 * system property read once at initialisation, except the asynchronous virtual-display creation
 * support, which the display-config service reports after initialisation.
 *
 * The system property store is given per feature: `props[f]` is the boolean that
 * GetBoolProperty(PropName(f), false) reads, and a missing key reads as false (an absent or
 * unparsable property). Because distinct features have distinct property names
 * (PropNamesDistinct), every store of named properties corresponds to exactly one such map. The display-config service, over AIDL or HIDL, is
 * modelled by whether it is present and by the answer it gives.
 */
module QtiFeatureManagers {
  import opened Wrappers

  /** QtiFeature; `UnknownFeature` stands for any value outside the listed ones. */
  datatype QtiFeature =
    | kAdvanceSfOffset | kAsyncVdsCreationSupported | kDynamicSfIdle | kEarlyWakeUp | kFbScaling
    | kHwcForVds | kHwcForWfd | kLatchMediaContent | kLayerExtension | kPluggableVsyncPrioritized
    | kQsyncIdle | kSmomo | kSpecFence | kSplitLayerExtension | kVsyncSourceReliableOnDoze
    | kWorkDurations | kIdleFallback
    | UnknownFeature(code: int)

  /** The features read from a system property at initialisation. */
  predicate IsPropertyFeature(f: QtiFeature)
  {
    match f
    case kAsyncVdsCreationSupported => false
    case UnknownFeature(_) => false
    case _ => true
  }

  /** qtiGetPropName: the system property that switches a feature on, or "" for the others. */
  function PropName(f: QtiFeature): (name: string)
    ensures name == "" <==> !IsPropertyFeature(f)
  {
    match f
    case kAdvanceSfOffset => "debug.sf.enable_advanced_sf_phase_offset"
    case kDynamicSfIdle => "vendor.display.disable_dynamic_sf_idle"
    case kEarlyWakeUp => "vendor.display.enable_early_wakeup"
    case kFbScaling => "vendor.display.enable_fb_scaling"
    case kHwcForVds => "debug.sf.enable_hwc_vds"
    case kHwcForWfd => "vendor.display.vds_allow_hwc"
    case kLatchMediaContent => "vendor.display.enable_latch_media_content"
    case kLayerExtension => "vendor.display.use_layer_ext"
    case kPluggableVsyncPrioritized => "vendor.display.pluggable_vsync_prioritized"
    case kQsyncIdle => "vendor.display.enable_qsync_idle"
    case kSmomo => "vendor.display.use_smooth_motion"
    case kSpecFence => "vendor.display.enable_spec_fence"
    case kSplitLayerExtension => "vendor.display.split_layer_ext"
    case kVsyncSourceReliableOnDoze => "vendor.display.vsync_reliable_on_doze"
    case kWorkDurations => "debug.sf.use_phase_offsets_as_durations"
    case kIdleFallback => "vendor.display.enable_allow_idle_fallback"
    case _ => ""
  }

  /**
   * Three facts that tell the property names apart: the length, and the characters at
   * positions 15 and 22 (every name is at least 23 characters long).
   */
  function NameSignature(f: QtiFeature): (int, char, char)
    requires IsPropertyFeature(f)
  {
    match f
    case kAdvanceSfOffset => (40, '_', 'e')
    case kDynamicSfIdle => (38, 'd', '_')
    case kEarlyWakeUp => (34, 'e', 'e')
    case kFbScaling => (32, 'e', 'f')
    case kHwcForVds => (23, '_', 's')
    case kHwcForWfd => (28, 'v', 'o')
    case kLatchMediaContent => (41, 'e', 'l')
    case kLayerExtension => (28, 'u', 'e')
    case kPluggableVsyncPrioritized => (42, 'p', 'l')
    case kQsyncIdle => (32, 'e', 'q')
    case kSmomo => (32, 'u', 'o')
    case kSpecFence => (32, 'e', 's')
    case kSplitLayerExtension => (30, 's', 'a')
    case kVsyncSourceReliableOnDoze => (37, 'v', 'e')
    case kWorkDurations => (39, 'a', 's')
    case kIdleFallback => (41, 'e', 'a')
  }

  /** The feature a signature belongs to: NameSignature has a left inverse. */
  function FeatureWithSignature(sig: (int, char, char)): QtiFeature
  {
    match sig
    case (40, '_', 'e') => kAdvanceSfOffset
    case (38, 'd', '_') => kDynamicSfIdle
    case (34, 'e', 'e') => kEarlyWakeUp
    case (32, 'e', 'f') => kFbScaling
    case (23, '_', 's') => kHwcForVds
    case (28, 'v', 'o') => kHwcForWfd
    case (41, 'e', 'l') => kLatchMediaContent
    case (28, 'u', 'e') => kLayerExtension
    case (42, 'p', 'l') => kPluggableVsyncPrioritized
    case (32, 'e', 'q') => kQsyncIdle
    case (32, 'u', 'o') => kSmomo
    case (32, 'e', 's') => kSpecFence
    case (30, 's', 'a') => kSplitLayerExtension
    case (37, 'v', 'e') => kVsyncSourceReliableOnDoze
    case (39, 'a', 's') => kWorkDurations
    case (41, 'e', 'a') => kIdleFallback
    case _ => UnknownFeature(0)
  }

  lemma NameHasSignature(f: QtiFeature)
    requires IsPropertyFeature(f)
    ensures |PropName(f)| >= 23
    ensures NameSignature(f) == (|PropName(f)|, PropName(f)[15], PropName(f)[22])
    ensures FeatureWithSignature(NameSignature(f)) == f
  {
  }

  /** No two features share a property, so each can be switched on on its own. */
  lemma PropNamesDistinct(f: QtiFeature, g: QtiFeature)
    requires IsPropertyFeature(f) && IsPropertyFeature(g) && f != g
    ensures PropName(f) != PropName(g)
  {
    NameHasSignature(f);
    NameHasSignature(g);
  }

  /** GetBoolProperty(PropName(f), false): the property's value, false when it is not set. */
  function Property(props: map<QtiFeature, bool>, f: QtiFeature): (b: bool)
  {
    f in props && props[f]
  }

  /**
   * The value qtiInit gives a feature's flag: its property, except that HWC for virtual
   * displays also needs HWC for WFD.
   */
  function InitValue(props: map<QtiFeature, bool>, f: QtiFeature): bool
    requires IsPropertyFeature(f)
  {
    match f
    case kHwcForVds => Property(props, kHwcForWfd) && Property(props, kHwcForVds)
    case _ => Property(props, f)
  }

  /** Whatever the properties say, initialisation enables HWC for virtual displays only with HWC for WFD. */
  lemma InitHwcForVdsNeedsWfd(props: map<QtiFeature, bool>)
    ensures InitValue(props, kHwcForVds) ==> InitValue(props, kHwcForWfd)
  {
  }

  /** The manager's seventeen feature flags. */
  datatype FeatureFlags = FeatureFlags(
    allowHwcForVds: bool, allowHwcForWfd: bool, asyncVdsCreationSupported: bool,
    enableDynamicSfIdle: bool, enableEarlyWakeUp: bool, enableSmomo: bool, enableSpecFence: bool,
    latchMediaContent: bool, pluggableVsyncPrioritized: bool, useAdvanceSfOffset: bool,
    useFbScaling: bool, useLayerExt: bool, useQsyncIdle: bool, useSplitLayerExt: bool,
    useWorkDurations: bool, vsyncSourceReliableOnDoze: bool, allowIdleFallback: bool)
  {
    /** qtiIsExtensionFeatureEnabled: the feature's flag; an unknown feature is disabled. */
    function Enabled(f: QtiFeature): (b: bool)
      ensures f.UnknownFeature? ==> !b
    {
      match f
      case kAdvanceSfOffset => useAdvanceSfOffset
      case kAsyncVdsCreationSupported => asyncVdsCreationSupported
      case kDynamicSfIdle => enableDynamicSfIdle
      case kEarlyWakeUp => enableEarlyWakeUp
      case kFbScaling => useFbScaling
      case kHwcForVds => allowHwcForVds
      case kHwcForWfd => allowHwcForWfd
      case kLatchMediaContent => latchMediaContent
      case kLayerExtension => useLayerExt
      case kPluggableVsyncPrioritized => pluggableVsyncPrioritized
      case kQsyncIdle => useQsyncIdle
      case kSmomo => enableSmomo
      case kSpecFence => enableSpecFence
      case kSplitLayerExtension => useSplitLayerExt
      case kVsyncSourceReliableOnDoze => vsyncSourceReliableOnDoze
      case kWorkDurations => useWorkDurations
      case kIdleFallback => allowIdleFallback
      case UnknownFeature(_) => false
    }
  }

  /** The flags a new manager starts with: every feature disabled. */
  function AllDisabled(): (r: FeatureFlags)
    ensures forall f :: !r.Enabled(f)
  {
    FeatureFlags(false, false, false, false, false, false, false, false, false,
                 false, false, false, false, false, false, false, false)
  }

  /** The flags after qtiInit, starting from `before`. */
  function InitFlags(before: FeatureFlags, props: map<QtiFeature, bool>): FeatureFlags
  {
    var wfd := Property(props, kHwcForWfd);
    before.(
      allowHwcForWfd := wfd,
      allowHwcForVds := wfd && Property(props, kHwcForVds),
      enableDynamicSfIdle := Property(props, kDynamicSfIdle),
      enableEarlyWakeUp := Property(props, kEarlyWakeUp),
      latchMediaContent := Property(props, kLatchMediaContent),
      useFbScaling := Property(props, kFbScaling),
      useAdvanceSfOffset := Property(props, kAdvanceSfOffset),
      useWorkDurations := Property(props, kWorkDurations),
      useLayerExt := Property(props, kLayerExtension),
      vsyncSourceReliableOnDoze := Property(props, kVsyncSourceReliableOnDoze),
      pluggableVsyncPrioritized := Property(props, kPluggableVsyncPrioritized),
      useQsyncIdle := Property(props, kQsyncIdle),
      enableSmomo := Property(props, kSmomo),
      useSplitLayerExt := Property(props, kSplitLayerExtension),
      enableSpecFence := Property(props, kSpecFence),
      allowIdleFallback := Property(props, kIdleFallback))
  }

  /**
   * After qtiInit every property feature is enabled exactly when InitValue says, and the
   * asynchronous VDS creation flag, which has no property, keeps its value.
   */
  lemma InitFlagsValues(before: FeatureFlags, props: map<QtiFeature, bool>, f: QtiFeature)
    ensures IsPropertyFeature(f) ==> InitFlags(before, props).Enabled(f) == InitValue(props, f)
    ensures !IsPropertyFeature(f) ==> InitFlags(before, props).Enabled(f) == before.Enabled(f)
  {
  }

  /** Initialising twice from the same properties gives the same flags as initialising once. */
  lemma InitIdempotent(before: FeatureFlags, props: map<QtiFeature, bool>)
    ensures InitFlags(InitFlags(before, props), props) == InitFlags(before, props)
  {
  }

  /**
   * The display-config services, which the source keeps in two namespace-level globals shared by
   * every feature manager: the AIDL service and the HIDL client, each with its answer on
   * asynchronous VDS creation; None while unset.
   */
  class DisplayConfigServices {
    var aidl: Option<bool>
    var hidl: Option<bool>

    /** Both globals start out null. */
    constructor ()
      ensures aidl.None? && hidl.None?
    {
      aidl, hidl := None, None;
    }
  }

  class QtiFeatureManager {
    var flags: FeatureFlags
    /** The shared display-config globals. */
    const services: DisplayConfigServices

    /** Every feature starts disabled; the shared services are left as they are. */
    constructor (services: DisplayConfigServices)
      ensures forall f :: !IsExtensionFeatureEnabled(f)
      ensures this.services == services
    {
      flags := AllDisabled();
      this.services := services;
    }

    /** qtiIsExtensionFeatureEnabled; as a function of the state it changes nothing. */
    function IsExtensionFeatureEnabled(f: QtiFeature): (b: bool)
      reads this
      ensures f.UnknownFeature? ==> !b
    {
      flags.Enabled(f)
    }

    /**
     * qtiInit: reads every property feature from the property store. Returns whether the idle
     * status callback was switched on, which happens when Qsync idle is enabled and the AIDL
     * service is present.
     */
    method Init(props: map<QtiFeature, bool>) returns (idleCallbackEnabled: bool)
      modifies this`flags
      ensures flags == InitFlags(old(flags), props)
      ensures idleCallbackEnabled <==> services.aidl.Some? && IsExtensionFeatureEnabled(kQsyncIdle)
    {
      flags := InitFlags(flags, props);
      idleCallbackEnabled := services.aidl.Some? && flags.useQsyncIdle;
    }

    /** qtiSetIDisplayConfig (AIDL): sets the shared AIDL global, for every feature manager. */
    method SetAidlDisplayConfig(service: Option<bool>)
      modifies services`aidl
      ensures services.aidl == service
    {
      services.aidl := service;
    }

    /** qtiSetIDisplayConfig (HIDL): sets the shared HIDL global. */
    method SetHidlDisplayConfig(client: Option<bool>)
      modifies services`hidl
      ensures services.hidl == client
    {
      services.hidl := client;
    }

    /**
     * qtiPostInit: asks the AIDL service, or failing that the HIDL client, whether virtual
     * displays can be created asynchronously; with neither the flag keeps its value.
     */
    method PostInit()
      modifies this`flags
      ensures flags == old(flags).(asyncVdsCreationSupported :=
                if services.aidl.Some? then services.aidl.value
                else if services.hidl.Some? then services.hidl.value
                else old(flags.asyncVdsCreationSupported))
    {
      if services.aidl.Some? {
        flags := flags.(asyncVdsCreationSupported := services.aidl.value);
      } else if services.hidl.Some? {
        flags := flags.(asyncVdsCreationSupported := services.hidl.value);
      }
    }
  }
}
