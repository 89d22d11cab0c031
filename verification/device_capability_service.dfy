/**
 * Device-capability decisions (services/device-capability.service.ts). The
 * detected capabilities are a record; the browser probes that fill it, the
 * `prefers-reduced-motion` query and the media-query listeners' readings are
 * parameters.
 */
module DeviceCapability {
  import opened Wrappers

  datatype DeviceCapabilities = DeviceCapabilities(
    hasHover: bool,
    hasPointer: bool,
    isOnline: bool,
    supportsServiceWorker: bool,
    supportsWebWorkers: bool,
    supportsLocalStorage: bool,
    supportsNotifications: bool,
    deviceMemory: Option<real>,
    connectionType: Option<string>,
    effectiveType: Option<string>)

  /** The record the service starts from before detection. */
  const InitialCapabilities :=
    DeviceCapabilities(false, false, true, false, false, false, false, None, None, None)

  /** `caps.deviceMemory || 4`: an absent or zero memory size counts as 4 GB. */
  function EffectiveMemory(caps: DeviceCapabilities): (m: real)
    ensures caps.deviceMemory.None? || caps.deviceMemory == Some(0.0) ==> m == 4.0
    ensures caps.deviceMemory.Some? && caps.deviceMemory != Some(0.0) ==> m == caps.deviceMemory.value
  {
    if caps.deviceMemory.Some? && caps.deviceMemory.value != 0.0 then caps.deviceMemory.value else 4.0
  }

  /** `caps.effectiveType || ''` */
  function ConnectionOrEmpty(caps: DeviceCapabilities): string
  {
    caps.effectiveType.GetOr("")
  }

  /** `hasGoodPerformance`: enough memory, and an unknown or 4G connection. */
  predicate HasGoodPerformance(caps: DeviceCapabilities)
  {
    EffectiveMemory(caps) >= 4.0 && (ConnectionOrEmpty(caps) == "" || ConnectionOrEmpty(caps) in ["4g"])
  }

  /** `shouldPreload` */
  predicate ShouldPreload(caps: DeviceCapabilities)
  {
    caps.isOnline && HasGoodPerformance(caps) && ConnectionOrEmpty(caps) !in ["slow-2g", "2g"]
  }

  /** `shouldUseComplexAnimations` */
  predicate ShouldUseComplexAnimations(caps: DeviceCapabilities, prefersReducedMotion: bool)
  {
    HasGoodPerformance(caps) && !prefersReducedMotion
  }

  /** Good performance means at least 4 GB (or unknown memory) and an unknown or 4G connection. */
  lemma GoodPerformanceCharacterised(caps: DeviceCapabilities)
    ensures HasGoodPerformance(caps) <==>
              (caps.deviceMemory.None? || caps.deviceMemory.value == 0.0 || caps.deviceMemory.value >= 4.0)
              && (caps.effectiveType.None? || caps.effectiveType.value in ["", "4g"])
  {
  }

  /** The 2G exclusion in `shouldPreload` never decides anything: good performance already rules it out. */
  lemma PreloadIsOnlineAndGood(caps: DeviceCapabilities)
    ensures ShouldPreload(caps) <==> caps.isOnline && HasGoodPerformance(caps)
  {
    if HasGoodPerformance(caps) {
      var c := ConnectionOrEmpty(caps);
      assert c == "" || c == "4g";
      assert c != "slow-2g" && c != "2g";
    }
  }

  lemma ComplexAnimationsNeedPerformance(caps: DeviceCapabilities, prefersReducedMotion: bool)
    ensures ShouldUseComplexAnimations(caps, prefersReducedMotion) ==> HasGoodPerformance(caps)
    ensures prefersReducedMotion ==> !ShouldUseComplexAnimations(caps, prefersReducedMotion)
  {
  }

  class DeviceCapabilityService {
    var capabilities: DeviceCapabilities

    /** Start from the initial record; in a browser, replace it with what detection found. */
    constructor (detected: Option<DeviceCapabilities>)
      ensures detected.None? ==> capabilities == InitialCapabilities
      ensures detected.Some? ==> capabilities == detected.value
    {
      capabilities := if detected.Some? then detected.value else InitialCapabilities;
    }

    /** The `online`/`offline` listener: only `isOnline` changes. */
    method UpdateOnlineStatus(online: bool)
      modifies this
      ensures capabilities == old(capabilities).(isOnline := online)
    {
      capabilities := capabilities.(isOnline := online);
    }

    /** The hover/pointer media-query listener: only `hasHover` and `hasPointer` change. */
    method UpdateInputCapabilities(hover: bool, pointer: bool)
      modifies this
      ensures capabilities == old(capabilities).(hasHover := hover, hasPointer := pointer)
    {
      capabilities := capabilities.(hasHover := hover, hasPointer := pointer);
    }
  }
}
