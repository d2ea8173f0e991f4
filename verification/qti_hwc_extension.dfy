/**
 * The QTI extension of the hardware composer: it forwards QTI-specific requests (display elapse
 * time, layer type, layer flags, the 3.1 client target and the draw method) to the composer HAL
 * extension, after checking that the extension exists and that the display is known, and it
 * caches the last layer type it sent.
 *
 * The HWComposer's display table is modelled as a map from display id to the HWC display id
 * of its hardware display. The composer HAL extension is modelled by whether it exists, by the
 * log of the calls it receives, and by the answer it gives to each call (a parameter of the
 * method that makes the call).
 */
module QtiHwcExtensions {
  import opened Wrappers
  import opened StatusCodes

  /** A call into the composer HAL extension. */
  datatype HalCall =
    | SetDisplayElapseTime(hwcDisplay: nat, timeStamp: nat)
    | SetLayerType(display: nat, layer: nat, layerType: nat)
    | SetLayerFlag(display: nat, layer: nat, flags: nat)
    | SetClientTarget(hwcDisplay: nat, slot: int, fenceFd: int, dataspace: nat)
    | TryDrawMethod(hwcDisplay: nat, drawMethod: nat)

  /** An HWC layer: the display it belongs to and its id there. */
  datatype HwcLayer = HwcLayer(displayId: nat, id: nat)

  /** Where a display-addressed request goes: nowhere, back with an error, or to a hardware display. */
  datatype Route = Skip | Reject(status: int) | Forward(hwcDisplay: nat)

  /**
   * The checks a display-addressed request makes: without a HAL extension it is skipped; with
   * an empty display table it is BAD_VALUE, for an unknown display UNKNOWN_ERROR; otherwise it
   * goes to the display's hardware display.
   */
  function DisplayRoute(hasHalExtension: bool, displayData: map<nat, nat>, displayId: nat): (r: Route)
    ensures r.Skip? <==> !hasHalExtension
    ensures r == Reject(BAD_VALUE) <==> hasHalExtension && displayData == map[]
    ensures r == Reject(UNKNOWN_ERROR) <==> hasHalExtension && displayData != map[] && displayId !in displayData
    ensures r.Forward? <==> hasHalExtension && displayId in displayData
    ensures r.Forward? ==> r.hwcDisplay == displayData[displayId]
  {
    if !hasHalExtension then Skip
    else if displayData == map[] then Reject(BAD_VALUE)
    else if displayId !in displayData then Reject(UNKNOWN_ERROR)
    else Forward(displayData[displayId])
  }

  /** The status a request returns: NO_ERROR when skipped or when the HAL accepted it. */
  function RouteStatus(r: Route, halOk: bool): (status: int)
    requires r.Reject? ==> r.status != NO_ERROR
    ensures status == NO_ERROR <==> r.Skip? || (r.Forward? && halOk)
    ensures r.Forward? && !halOk ==> status == BAD_VALUE
    ensures r.Reject? ==> status == r.status
  {
    match r
    case Skip => NO_ERROR
    case Reject(s) => s
    case Forward(_) => if halOk then NO_ERROR else BAD_VALUE
  }

  /** The outcome of a layer request: its status, the cached layer type after it, and the HAL call made. */
  datatype LayerOutcome = LayerOutcome(status: int, cachedType: nat, call: Option<HalCall>)

  /**
   * qtiSetLayerType: a type equal to the cached one is NO_ERROR without any check or call;
   * otherwise without a HAL extension NO_ERROR, for a null layer BAD_VALUE, and else the type
   * goes to the HAL and is cached only when the HAL accepts it.
   */
  function LayerTypeOutcome(cachedType: nat, hasHalExtension: bool, layer: Option<HwcLayer>,
                            layerType: nat, halOk: bool): (o: LayerOutcome)
    ensures o.call.Some? <==> layerType != cachedType && hasHalExtension && layer.Some?
    ensures o.call.Some? ==> o.call.value == SetLayerType(layer.value.displayId, layer.value.id, layerType)
    ensures o.status == NO_ERROR <==> layerType == cachedType || !hasHalExtension || (layer.Some? && halOk)
    ensures o.status != NO_ERROR ==> o.status == BAD_VALUE
    ensures o.cachedType == if o.call.Some? && halOk then layerType else cachedType
  {
    if layerType == cachedType then LayerOutcome(NO_ERROR, cachedType, None)
    else if !hasHalExtension then LayerOutcome(NO_ERROR, cachedType, None)
    else if layer.None? then LayerOutcome(BAD_VALUE, cachedType, None)
    else
      var call := SetLayerType(layer.value.displayId, layer.value.id, layerType);
      if halOk then LayerOutcome(NO_ERROR, layerType, Some(call))
      else LayerOutcome(BAD_VALUE, cachedType, Some(call))
  }

  /**
   * The cache is one for the whole extension, not one per layer: once a type reached the HAL
   * for one layer, asking for the same type on any other layer, even a null one, returns
   * NO_ERROR and sends nothing.
   */
  lemma CachedTypeSharedByLayers(cachedType: nat, layerType: nat, first: HwcLayer, second: Option<HwcLayer>,
                                  halOk: bool)
    requires layerType != cachedType
    ensures var o := LayerTypeOutcome(cachedType, true, Some(first), layerType, true);
            var o2 := LayerTypeOutcome(o.cachedType, true, second, layerType, halOk);
            o.call.Some? && o2.call.None? && o2.status == NO_ERROR
  {
  }

  /** A rejected type leaves the cache as it was, so asking again reaches the HAL again. */
  lemma RejectedTypeRetried(cachedType: nat, layerType: nat, layer: HwcLayer, halOk: bool)
    requires layerType != cachedType
    ensures var o := LayerTypeOutcome(cachedType, true, Some(layer), layerType, false);
            o.status == BAD_VALUE && o.cachedType == cachedType &&
            LayerTypeOutcome(o.cachedType, true, Some(layer), layerType, halOk).call.Some?
  {
  }

  /**
   * qtiSetLayerFlag: without a HAL extension NO_ERROR, for a null layer BAD_VALUE, otherwise the
   * flags go to the HAL, and the status is NO_ERROR exactly when it accepts them.
   */
  function LayerFlagOutcome(hasHalExtension: bool, layer: Option<HwcLayer>, flags: nat, halOk: bool)
    : (o: (int, Option<HalCall>))
    ensures o.1.Some? <==> hasHalExtension && layer.Some?
    ensures o.1.Some? ==> o.1.value == SetLayerFlag(layer.value.displayId, layer.value.id, flags)
    ensures o.0 == NO_ERROR <==> !hasHalExtension || (layer.Some? && halOk)
    ensures o.0 != NO_ERROR ==> o.0 == BAD_VALUE
  {
    if !hasHalExtension then (NO_ERROR, None)
    else if layer.None? then (BAD_VALUE, None)
    else
      var call := SetLayerFlag(layer.value.displayId, layer.value.id, flags);
      (if halOk then NO_ERROR else BAD_VALUE, Some(call))
  }

  class QtiHWComposerExtension {
    /** Whether a composer HAL extension (AIDL or HIDL) was created. */
    const hasHalExtension: bool
    /** mDisplayData of the HWComposer: the hardware display id of each known display. */
    var displayData: map<nat, nat>
    /** mQtiType: the last layer type the HAL accepted. */
    var qtiType: nat
    /** The calls the composer HAL extension received, oldest first. */
    var halCalls: seq<HalCall>

    /** The constructor without a composer: there is no HAL extension. */
    constructor (displayData: map<nat, nat>)
      ensures !hasHalExtension && this.displayData == displayData && qtiType == 0 && halCalls == []
    {
      hasHalExtension := false;
      this.displayData := displayData;
      qtiType := 0;
      halCalls := [];
    }

    /** The constructor with a composer: an AIDL or a HIDL HAL extension always exists. */
    constructor WithComposer(displayData: map<nat, nat>)
      ensures hasHalExtension && this.displayData == displayData && qtiType == 0 && halCalls == []
    {
      hasHalExtension := true;
      this.displayData := displayData;
      qtiType := 0;
      halCalls := [];
    }

    /** qtiFromVirtualDisplayId: the hardware display of a known display, otherwise none. */
    function FromVirtualDisplayId(displayId: nat): (r: Option<nat>)
      reads this
      ensures r.Some? <==> displayId in displayData
      ensures r.Some? ==> r.value == displayData[displayId]
    {
      if displayId in displayData then Some(displayData[displayId]) else None
    }

    /**
     * The call each operation makes on the composer HAL extension object
     * (`mQtiComposerHalExtn->qti...(halHWDisplayId, ...)`), made only when the request was
     * routed to a hardware display; `halCalls` records it and `halOk` in the caller stands for
     * the error the HAL returns.
     */
    method Forward(r: Route, call: HalCall)
      modifies this`halCalls
      ensures halCalls == old(halCalls) + (if r.Forward? then [call] else [])
    {
      if r.Forward? {
        halCalls := halCalls + [call];
      }
    }

    /** qtiSetDisplayElapseTime */
    method SetDisplayElapseTime(displayId: nat, timeStamp: nat, halOk: bool) returns (status: int)
      modifies this`halCalls
      ensures var r := DisplayRoute(hasHalExtension, displayData, displayId);
              status == RouteStatus(r, halOk) &&
              halCalls == old(halCalls) + (if r.Forward? then [HalCall.SetDisplayElapseTime(r.hwcDisplay, timeStamp)] else [])
    {
      var r := DisplayRoute(hasHalExtension, displayData, displayId);
      if r.Forward? {
        Forward(r, HalCall.SetDisplayElapseTime(r.hwcDisplay, timeStamp));
      }
      status := RouteStatus(r, halOk);
    }

    /** qtiSetLayerType */
    method SetLayerType(layer: Option<HwcLayer>, layerType: nat, halOk: bool) returns (status: int)
      modifies this`halCalls, this`qtiType
      ensures var o := LayerTypeOutcome(old(qtiType), hasHalExtension, layer, layerType, halOk);
              status == o.status && qtiType == o.cachedType &&
              halCalls == old(halCalls) + (if o.call.Some? then [o.call.value] else [])
    {
      if layerType == qtiType {
        return NO_ERROR;
      }
      if !hasHalExtension {
        return NO_ERROR;
      }
      if layer.None? {
        return BAD_VALUE;
      }
      halCalls := halCalls + [HalCall.SetLayerType(layer.value.displayId, layer.value.id, layerType)];
      if !halOk {
        return BAD_VALUE;
      }
      qtiType := layerType;
      return NO_ERROR;
    }

    /** qtiSetLayerFlag */
    method SetLayerFlag(layer: Option<HwcLayer>, flags: nat, halOk: bool) returns (status: int)
      modifies this`halCalls
      ensures var o := LayerFlagOutcome(hasHalExtension, layer, flags, halOk);
              status == o.0 && halCalls == old(halCalls) + (if o.1.Some? then [o.1.value] else [])
    {
      if !hasHalExtension {
        return NO_ERROR;
      }
      if layer.None? {
        return BAD_VALUE;
      }
      halCalls := halCalls + [HalCall.SetLayerFlag(layer.value.displayId, layer.value.id, flags)];
      status := if halOk then NO_ERROR else BAD_VALUE;
    }

    /** qtiSetClientTarget_3_1: `fenceFd` is the duplicate of the acquire fence that the HAL receives. */
    method SetClientTarget(displayId: nat, slot: int, fenceFd: int, dataspace: nat, halOk: bool)
      returns (status: int)
      modifies this`halCalls
      ensures var r := DisplayRoute(hasHalExtension, displayData, displayId);
              status == RouteStatus(r, halOk) &&
              halCalls == old(halCalls) + (if r.Forward? then [HalCall.SetClientTarget(r.hwcDisplay, slot, fenceFd, dataspace)] else [])
    {
      var r := DisplayRoute(hasHalExtension, displayData, displayId);
      if r.Forward? {
        Forward(r, HalCall.SetClientTarget(r.hwcDisplay, slot, fenceFd, dataspace));
      }
      status := RouteStatus(r, halOk);
    }

    /** qtiTryDrawMethod */
    method TryDrawMethod(displayId: nat, drawMethod: nat, halOk: bool) returns (status: int)
      modifies this`halCalls
      ensures var r := DisplayRoute(hasHalExtension, displayData, displayId);
              status == RouteStatus(r, halOk) &&
              halCalls == old(halCalls) + (if r.Forward? then [HalCall.TryDrawMethod(r.hwcDisplay, drawMethod)] else [])
    {
      var r := DisplayRoute(hasHalExtension, displayData, displayId);
      if r.Forward? {
        Forward(r, HalCall.TryDrawMethod(r.hwcDisplay, drawMethod));
      }
      status := RouteStatus(r, halOk);
    }
  }
}
