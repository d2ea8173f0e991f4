/**
 * The QTI extension of a composition-engine output: predicates over the output's layers
 * (protected content, secure display, secure camera), the layer flag they decide for the HWC,
 * and the guards of marking a layer as a screen-decoration mask and of speculative fences.
 *
 * An output is its layers ordered by Z, or none for a null output. A layer entry may be null,
 * and a layer's composition state may be missing; only the secure-display check tolerates
 * either, the other two dereference every entry.
 */
module QtiOutputExtensions {
  import opened Wrappers
  import opened Integers
  import QtiFeatureManagers
  import QtiHwcExtensions

  /** The part of a layer's composition state the predicates read. */
  datatype LayerCompositionState = LayerCompositionState(
    qtiIsSecureCamera: bool, qtiIsSecureDisplay: bool, hasProtectedContent: bool)

  /** An entry of the output's layer list: null, or a layer with its composition state if any. */
  datatype OutputLayer = NullLayer | OutputLayer(state: Option<LayerCompositionState>)
  {
    predicate HasState() { OutputLayer? && state.Some? }
  }

  type Output = Option<seq<OutputLayer>>

  /** Every entry is a layer with a composition state, as the unchecked loops need. */
  predicate AllDereferenceable(layers: seq<OutputLayer>)
  {
    forall i :: 0 <= i < |layers| ==> layers[i].HasState()
  }

  predicate AnySecureCamera(layers: seq<OutputLayer>)
  {
    exists i :: 0 <= i < |layers| && layers[i].HasState() && layers[i].state.value.qtiIsSecureCamera
  }

  predicate AnySecureDisplay(layers: seq<OutputLayer>)
  {
    exists i :: 0 <= i < |layers| && layers[i].HasState() && layers[i].state.value.qtiIsSecureDisplay
  }

  predicate AnyProtected(layers: seq<OutputLayer>)
  {
    exists i :: 0 <= i < |layers| && layers[i].HasState() && layers[i].state.value.hasProtectedContent
  }

  /** Protected content needing protection: some layer is protected and none is a secure camera or display. */
  predicate ProtectedContent(output: Output)
  {
    output.Some? && AnyProtected(output.value) && !AnySecureCamera(output.value) && !AnySecureDisplay(output.value)
  }

  /** Some layer is a secure camera, a secure display or protected. */
  predicate SecureOrProtectedContent(output: Output)
  {
    output.Some? && (AnySecureCamera(output.value) || AnySecureDisplay(output.value) || AnyProtected(output.value))
  }

  /** Content that counts as protected always counts as secure or protected. */
  lemma ProtectedIsSecureOrProtected(output: Output)
    ensures ProtectedContent(output) ==> SecureOrProtectedContent(output)
  {
  }

  /** qtiIsProtectedContent: one pass over the layers collecting the three flags. */
  method IsProtectedContent(output: Output) returns (r: bool)
    requires output.Some? ==> AllDereferenceable(output.value)
    ensures r <==> ProtectedContent(output)
  {
    if output.None? {
      return false;
    }
    var layers := output.value;
    var hasSecureCamera, hasSecureDisplay, needsProtected := false, false, false;
    var i := 0;
    while i < |layers|
      invariant 0 <= i <= |layers|
      invariant hasSecureCamera <==> AnySecureCamera(layers[..i])
      invariant hasSecureDisplay <==> AnySecureDisplay(layers[..i])
      invariant needsProtected <==> AnyProtected(layers[..i])
    {
      var state := layers[i].state.value;
      assert layers[..i + 1] == layers[..i] + [layers[i]];
      if state.qtiIsSecureCamera {
        hasSecureCamera := true;
      }
      if state.qtiIsSecureDisplay {
        hasSecureDisplay := true;
      }
      if state.hasProtectedContent {
        needsProtected := true;
      }
      i := i + 1;
    }
    assert layers[..i] == layers;
    return !hasSecureCamera && !hasSecureDisplay && needsProtected;
  }

  /**
   * qtiHasSecureDisplay: whether some layer is a secure display, stopping at the first one;
   * null entries and layers without a composition state are skipped.
   */
  method HasSecureDisplay(output: Output) returns (r: bool)
    ensures r <==> output.Some? && AnySecureDisplay(output.value)
  {
    if output.None? {
      return false;
    }
    var layers := output.value;
    var i := 0;
    while i < |layers|
      invariant 0 <= i <= |layers|
      invariant !AnySecureDisplay(layers[..i])
    {
      assert layers[..i + 1] == layers[..i] + [layers[i]];
      if !layers[i].HasState() {
        i := i + 1;
        continue;
      }
      if layers[i].state.value.qtiIsSecureDisplay {
        return true;
      }
      i := i + 1;
    }
    assert layers[..i] == layers;
    return false;
  }

  /** qtiHasSecureOrProtectedContent: one pass over the layers collecting the three flags. */
  method HasSecureOrProtectedContent(output: Output) returns (r: bool)
    requires output.Some? ==> AllDereferenceable(output.value)
    ensures r <==> SecureOrProtectedContent(output)
  {
    if output.None? {
      return false;
    }
    var layers := output.value;
    var hasSecureCamera, hasSecureDisplay, needsProtected := false, false, false;
    var i := 0;
    while i < |layers|
      invariant 0 <= i <= |layers|
      invariant hasSecureCamera <==> AnySecureCamera(layers[..i])
      invariant hasSecureDisplay <==> AnySecureDisplay(layers[..i])
      invariant needsProtected <==> AnyProtected(layers[..i])
    {
      var state := layers[i].state.value;
      assert layers[..i + 1] == layers[..i] + [layers[i]];
      if state.qtiIsSecureCamera {
        hasSecureCamera := true;
      }
      if state.qtiIsSecureDisplay {
        hasSecureDisplay := true;
      }
      if state.hasProtectedContent {
        needsProtected := true;
      }
      i := i + 1;
    }
    assert layers[..i] == layers;
    return hasSecureCamera || hasSecureDisplay || needsProtected;
  }

  /** The layer flag written to the HWC: 1 for an output without secure or protected content, else 0. */
  function LayerFlagFor(output: Output): (flag: nat)
    ensures flag == 1 <==> !SecureOrProtectedContent(output)
    ensures flag == 0 <==> SecureOrProtectedContent(output)
  {
    if SecureOrProtectedContent(output) then 0 else 1
  }

  /**
   * qtiWriteLayerFlagToHWC: sends the output's layer flag for the layer through the HWC
   * extension, when there is one; `halOk` is the HAL's answer, which the caller ignores.
   */
  method WriteLayerFlagToHWC(layer: Option<QtiHwcExtensions.HwcLayer>, output: Output,
                             hwc: QtiHwcExtensions.QtiHWComposerExtension?, halOk: bool)
    requires output.Some? ==> AllDereferenceable(output.value)
    modifies if hwc != null then {hwc} else {}
    ensures hwc != null ==>
              var o := QtiHwcExtensions.LayerFlagOutcome(hwc.hasHalExtension, layer, LayerFlagFor(output), halOk);
              hwc.halCalls == old(hwc.halCalls) + (if o.1.Some? then [o.1.value] else []) &&
              hwc.qtiType == old(hwc.qtiType) && hwc.displayData == old(hwc.displayData)
  {
    var layerFlag := 0;
    var secure := HasSecureOrProtectedContent(output);
    if !secure {
      layerFlag := 1;
    }
    if hwc != null {
      var _ := hwc.SetLayerFlag(layer, layerFlag, halOk);
    }
  }

  /** A display id: physical, or one of the virtual kinds. */
  datatype DisplayId = PhysicalDisplayId(value: nat) | VirtualDisplayId(value: nat)

  /**
   * qtiSetLayerAsMask: the display (as a 32-bit HWC display id) and layer that the
   * SurfaceFlinger extension is told to treat as a mask, or none. Nothing is sent for a
   * non-physical display, without a composition engine, when the HWC already supports display
   * decoration, or without a SurfaceFlinger extension. `hwcDisplayIds` is the HWC's map from
   * physical display to HWC display id, which the source expects to hold the display.
   */
  function LayerAsMaskCall(id: DisplayId, layerId: nat, hasCompositionEngine: bool,
                           hwcDisplayIds: map<nat, nat>, decorationSupported: bool,
                           hasSurfaceFlingerExtension: bool): (r: Option<(nat, nat)>)
    requires id.PhysicalDisplayId? && hasCompositionEngine && !decorationSupported && hasSurfaceFlingerExtension
             ==> id.value in hwcDisplayIds
    ensures r.Some? <==> id.PhysicalDisplayId? && hasCompositionEngine && !decorationSupported
                         && hasSurfaceFlingerExtension
    ensures r.Some? ==> r.value.1 == layerId && r.value.0 < UINT32_LIMIT
                        && r.value.0 % UINT32_LIMIT == hwcDisplayIds[id.value] % UINT32_LIMIT
  {
    if !(hasCompositionEngine && id.PhysicalDisplayId?) then None
    else if decorationSupported then None
    else if !hasSurfaceFlingerExtension then None
    else Some((hwcDisplayIds[id.value] % UINT32_LIMIT, layerId))
  }

  /**
   * qtiUseSpecFence: whether speculative fences are enabled; false without a SurfaceFlinger
   * extension, whose feature manager answers otherwise.
   */
  function UseSpecFence(features: QtiFeatureManagers.QtiFeatureManager?): (r: bool)
    reads features
    ensures r <==> features != null && features.IsExtensionFeatureEnabled(QtiFeatureManagers.kSpecFence)
  {
    features != null && features.IsExtensionFeatureEnabled(QtiFeatureManagers.kSpecFence)
  }
}
