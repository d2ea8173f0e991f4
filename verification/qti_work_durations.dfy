/**
 * The QTI work-durations extension: it rewrites the vsync configuration cached per refresh
 * rate, from a table of (SF duration, app duration) pairs by refresh rate, and derives the
 * SF and app phase offsets from the durations. Durations, offsets and periods are nanoseconds.
 */
module QtiWorkDurations {
  import opened Integers

  /** The quotient of C++'s `/` on int64, which truncates toward zero. */
  function TruncatedQuotient(a: int, b: int): int
    requires b > 0
  {
    if a >= 0 then a / b else -((-a) / b)
  }

  /**
   * The remainder of C++'s `%` on int64: it has the sign of the dividend, and with the
   * truncated quotient it rebuilds the dividend.
   */
  function TruncatedRemainder(a: int, b: int): (r: int)
    requires b > 0
    ensures a >= 0 ==> 0 <= r < b
    ensures a < 0 ==> -b < r <= 0
    ensures a == TruncatedQuotient(a, b) * b + r
    ensures (a - r) % b == 0
  {
    var r := if a >= 0 then a % b else -((-a) % b);
    assert a == TruncatedQuotient(a, b) * b + r;
    ModUnique(a - r, b, TruncatedQuotient(a, b), 0);
    r
  }

  /** sfDurationToOffset: the SF offset is what is left of the vsync period after the SF work. */
  function SfDurationToOffset(sfDuration: int, vsyncDuration: int): (offset: int)
    ensures offset + sfDuration == vsyncDuration
  {
    vsyncDuration - sfDuration
  }

  /**
   * appDurationToOffset: the app offset is the vsync period minus the part of a period that
   * the app and SF work together take beyond whole periods.
   */
  function AppDurationToOffset(appDuration: int, sfDuration: int, vsyncDuration: int): (offset: int)
    requires vsyncDuration > 0
    ensures (offset + appDuration + sfDuration) % vsyncDuration == 0
    ensures appDuration + sfDuration >= 0 ==> 0 < offset <= vsyncDuration
    ensures appDuration + sfDuration < 0 ==> vsyncDuration <= offset < 2 * vsyncDuration
  {
    var total := appDuration + sfDuration;
    var offset := vsyncDuration - TruncatedRemainder(total, vsyncDuration);
    assert offset + total == (TruncatedQuotient(total, vsyncDuration) + 1) * vsyncDuration;
    ModUnique(offset + total, vsyncDuration, TruncatedQuotient(total, vsyncDuration) + 1, 0);
    offset
  }

  /** A refresh rate, with its rounded integer value and its vsync period. */
  datatype Fps = Fps(intValue: int, periodNsecs: int)

  /** VsyncConfig: the phase offsets and work durations of one configuration. */
  datatype VsyncConfig = VsyncConfig(sfOffset: int, appOffset: int, sfWorkDuration: int, appWorkDuration: int)

  /** VsyncConfigSet: the configurations used early, early with GPU composition, and late. */
  datatype VsyncConfigSet = VsyncConfigSet(
    early: VsyncConfig, earlyGpu: VsyncConfig, late: VsyncConfig, hwcMinWorkDuration: int)

  /** An entry of the offsets cache. */
  type CacheEntry = (Fps, VsyncConfigSet)

  /** A table of (SF duration, app duration) by refresh rate, looked up by the integer rate. */
  type WorkDurationConfigs = map<int, (int, int)>

  /** The refresh rates that are rewritten: those with a configuration, and all below 60 fps. */
  predicate IsUpdated(fps: Fps, configs: WorkDurationConfigs)
  {
    fps.intValue in configs || fps.intValue < 60
  }

  /** The default SF duration, three quarters of the vsync period. */
  function DefaultSfDuration(vsyncDuration: int): (d: int)
    requires vsyncDuration > 0
    ensures 0 <= d < vsyncDuration
    ensures 4 * d <= 3 * vsyncDuration < 4 * d + 4
  {
    (3 * vsyncDuration) / 4
  }

  /** The SF duration of a rewritten rate: the configured one, else the default. */
  function SfDurationFor(fps: Fps, configs: WorkDurationConfigs): int
    requires fps.periodNsecs > 0
  {
    if fps.intValue in configs then configs[fps.intValue].0 else DefaultSfDuration(fps.periodNsecs)
  }

  /**
   * The app duration of a rewritten rate: the configured one unless it is 0, else the
   * extension's app duration, where -1 stands for the vsync period.
   */
  function AppDurationFor(fps: Fps, appDuration: int, configs: WorkDurationConfigs): int
  {
    var byDefault := if appDuration == -1 then fps.periodNsecs else appDuration;
    if fps.intValue in configs && configs[fps.intValue].1 != 0 then configs[fps.intValue].1 else byDefault
  }

  /** The configuration that the late, early and early-GPU slots all receive. */
  function RewrittenConfig(fps: Fps, appDuration: int, configs: WorkDurationConfigs): (c: VsyncConfig)
    requires fps.periodNsecs > 0
    ensures c.sfOffset + c.sfWorkDuration == fps.periodNsecs
    ensures c.appWorkDuration + c.sfWorkDuration >= 0 ==> 0 < c.appOffset <= fps.periodNsecs
  {
    var sf := SfDurationFor(fps, configs);
    var app := AppDurationFor(fps, appDuration, configs);
    VsyncConfig(SfDurationToOffset(sf, fps.periodNsecs), AppDurationToOffset(app, sf, fps.periodNsecs), sf, app)
  }

  /** A cache entry after the update: rewritten as described, or left as it was. */
  function EntryAfter(entry: CacheEntry, appDuration: int, configs: WorkDurationConfigs): (r: CacheEntry)
    requires IsUpdated(entry.0, configs) ==> entry.0.periodNsecs > 0
    ensures r.0 == entry.0 && r.1.hwcMinWorkDuration == entry.1.hwcMinWorkDuration
    ensures !IsUpdated(entry.0, configs) ==> r == entry
    ensures IsUpdated(entry.0, configs) ==> r.1.early == r.1.late && r.1.earlyGpu == r.1.late
    ensures IsUpdated(entry.0, configs) ==>
              r.1.late.sfOffset == SfDurationToOffset(r.1.late.sfWorkDuration, entry.0.periodNsecs)
              && r.1.late.appOffset
                 == AppDurationToOffset(r.1.late.appWorkDuration, r.1.late.sfWorkDuration, entry.0.periodNsecs)
  {
    var (fps, configSet) := entry;
    if IsUpdated(fps, configs) then
      var late := RewrittenConfig(fps, appDuration, configs);
      (fps, configSet.(early := late, earlyGpu := late, late := late))
    else
      entry
  }

  /** Rates without a configuration below 60 fps get the default durations. */
  lemma DefaultDurations(entry: CacheEntry, appDuration: int, configs: WorkDurationConfigs)
    requires entry.0.intValue !in configs && entry.0.intValue < 60 && entry.0.periodNsecs > 0
    ensures var late := EntryAfter(entry, appDuration, configs).1.late;
            late.sfWorkDuration == DefaultSfDuration(entry.0.periodNsecs)
            && late.appWorkDuration == if appDuration == -1 then entry.0.periodNsecs else appDuration
  {
  }

  /**
   * A configured rate takes the configured SF duration, and the configured app duration
   * unless that is 0, which keeps the default.
   */
  lemma ConfiguredDurations(entry: CacheEntry, appDuration: int, configs: WorkDurationConfigs)
    requires entry.0.intValue in configs && entry.0.periodNsecs > 0
    ensures var late := EntryAfter(entry, appDuration, configs).1.late;
            var (sf, app) := configs[entry.0.intValue];
            late.sfWorkDuration == sf
            && late.appWorkDuration == if app != 0 then app
                                       else if appDuration == -1 then entry.0.periodNsecs else appDuration
  {
  }

  /** Updating twice with the same table gives the same cache entry as updating once. */
  lemma EntryAfterIdempotent(entry: CacheEntry, appDuration: int, configs: WorkDurationConfigs)
    requires IsUpdated(entry.0, configs) ==> entry.0.periodNsecs > 0
    ensures EntryAfter(EntryAfter(entry, appDuration, configs), appDuration, configs)
            == EntryAfter(entry, appDuration, configs)
  {
  }

  /** Every rate that will be rewritten has a positive vsync period, as the remainder needs. */
  predicate PeriodsPositive(cache: seq<CacheEntry>, configs: WorkDurationConfigs)
  {
    forall i :: 0 <= i < |cache| ==> (IsUpdated(cache[i].0, configs) ==> cache[i].0.periodNsecs > 0)
  }

  /** scheduler::impl::WorkDuration: the app duration and the cache of configurations by rate. */
  class WorkDuration {
    var appDuration: int
    var offsetsCache: seq<CacheEntry>

    constructor (appDuration: int, offsetsCache: seq<CacheEntry>)
      ensures this.appDuration == appDuration && this.offsetsCache == offsetsCache
    {
      this.appDuration := appDuration;
      this.offsetsCache := offsetsCache;
    }
  }

  class QtiWorkDurationsExtension {
    /** The vsync configuration it rewrites, or null when created without one. */
    const vsyncConfiguration: WorkDuration?

    constructor (vsyncConfig: WorkDuration?)
      ensures vsyncConfiguration == vsyncConfig
    {
      vsyncConfiguration := vsyncConfig;
    }

    /**
     * qtiUpdateWorkDurations: rewrites every entry of the offsets cache as EntryAfter says;
     * without a vsync configuration it does nothing.
     */
    method UpdateWorkDurations(workDurationConfigs: WorkDurationConfigs)
      requires vsyncConfiguration != null ==> PeriodsPositive(vsyncConfiguration.offsetsCache, workDurationConfigs)
      modifies if vsyncConfiguration != null then {vsyncConfiguration} else {}
      ensures vsyncConfiguration != null ==>
                var cache := vsyncConfiguration.offsetsCache;
                vsyncConfiguration.appDuration == old(vsyncConfiguration.appDuration)
                && |cache| == |old(vsyncConfiguration.offsetsCache)|
                && forall i :: 0 <= i < |cache| ==>
                     cache[i] == EntryAfter(old(vsyncConfiguration.offsetsCache)[i],
                                            vsyncConfiguration.appDuration, workDurationConfigs)
    {
      if vsyncConfiguration == null {
        return;
      }
      var config := vsyncConfiguration;
      ghost var before := config.offsetsCache;
      var i := 0;
      while i < |config.offsetsCache|
        invariant 0 <= i <= |config.offsetsCache| == |before|
        invariant config.appDuration == old(config.appDuration)
        invariant forall j :: 0 <= j < i ==> config.offsetsCache[j] == EntryAfter(before[j], config.appDuration, workDurationConfigs)
        invariant forall j :: i <= j < |before| ==> config.offsetsCache[j] == before[j]
      {
        var entry := EntryAfter(config.offsetsCache[i], config.appDuration, workDurationConfigs);
        config.offsetsCache := config.offsetsCache[i := entry];
        i := i + 1;
      }
    }

    /** qtiUpdateSfOffsets: not supported with work durations; changes nothing. */
    method UpdateSfOffsets(advancedSfOffsets: map<int, int>)
      ensures vsyncConfiguration != null ==> unchanged(vsyncConfiguration)
    {
    }
  }
}
