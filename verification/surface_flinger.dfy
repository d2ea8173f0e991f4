/**
 * Bookkeeping helpers of SurfaceFlinger: the transaction flags, the per-layer-handle pending
 * buffer counters, the copy of the current state into the drawing state, the desired active
 * mode, and the display lookups by token and by physical display id.
 *
 * Binder tokens and layer handles are modelled as numbers (a null token is the absence of one);
 * layers, display states, shadow settings and display devices are opaque values. The mutexes
 * guarding these structures are left out: every operation runs sequentially.
 */
module SurfaceFlingers {
  import opened Wrappers
  import opened Integers

  // ---------------------------------------------------------------------------------------------
  // Transaction flags

  const eTransactionNeeded: bv32 := 0x01
  const eTraversalNeeded: bv32 := 0x02
  const eDisplayTransactionNeeded: bv32 := 0x04
  const eTransformHintUpdateNeeded: bv32 := 0x08
  const eTransactionFlushNeeded: bv32 := 0x10
  const eTransactionMask: bv32 := 0x1f

  /** The mask is exactly the five transaction flags, each a distinct single bit. */
  lemma TransactionMaskIsTheFlags()
    ensures eTransactionMask == eTransactionNeeded | eTraversalNeeded | eDisplayTransactionNeeded
                                | eTransformHintUpdateNeeded | eTransactionFlushNeeded
    ensures eTransactionNeeded & eTraversalNeeded == 0 && eTraversalNeeded & eDisplayTransactionNeeded == 0
    ensures eDisplayTransactionNeeded & eTransformHintUpdateNeeded == 0
    ensures eTransformHintUpdateNeeded & eTransactionFlushNeeded == 0
  {
  }

  // ---------------------------------------------------------------------------------------------
  // Pending buffer counters

  /** A layer's pending-buffer counter, an int32 the layer owns and the tracker increments. */
  class PendingBufferCounter {
    var value: int

    constructor (value: int)
      ensures this.value == value
    {
      this.value := value;
    }
  }

  /** The value an int32 counter holds after an increment: it wraps at the top of the range. */
  function Int32Increment(v: int): (r: int)
    requires INT32_MIN <= v < -INT32_MIN
    ensures INT32_MIN <= r < -INT32_MIN
    ensures (r - v - 1) % UINT32_LIMIT == 0
    ensures v < -INT32_MIN - 1 ==> r == v + 1
  {
    if v == -INT32_MIN - 1 then INT32_MIN else v + 1
  }

  /**
   * The counters of pending buffers by layer handle, each with the name it is traced under.
   * Two handles may share a counter.
   */
  class BufferCountTracker {
    var counterByLayerHandle: map<nat, (string, PendingBufferCounter)>

    constructor ()
      ensures counterByLayerHandle == map[]
    {
      counterByLayerHandle := map[];
    }

    /**
     * increment: raises the counter of a registered handle by one. An unregistered handle
     * changes nothing (the source only warns). No other counter changes.
     */
    method Increment(layerHandle: nat)
      requires layerHandle in counterByLayerHandle ==>
                 INT32_MIN <= counterByLayerHandle[layerHandle].1.value < -INT32_MIN
      modifies if layerHandle in counterByLayerHandle then {counterByLayerHandle[layerHandle].1} else {}
      ensures layerHandle in counterByLayerHandle ==>
                var c := counterByLayerHandle[layerHandle].1;
                c.value == Int32Increment(old(c.value))
    {
      if layerHandle in counterByLayerHandle {
        var (name, pendingBuffers) := counterByLayerHandle[layerHandle];
        pendingBuffers.value := Int32Increment(pendingBuffers.value);
      }
    }

    /** add: registers the counter and its name for the handle, replacing any earlier entry. */
    method Add(layerHandle: nat, name: string, counter: PendingBufferCounter)
      modifies this
      ensures counterByLayerHandle == old(counterByLayerHandle)[layerHandle := (name, counter)]
    {
      counterByLayerHandle := counterByLayerHandle[layerHandle := (name, counter)];
    }

    /** remove: forgets the handle, so later increments for it change nothing. */
    method Remove(layerHandle: nat)
      modifies this
      ensures counterByLayerHandle == old(counterByLayerHandle) - {layerHandle}
      ensures layerHandle !in counterByLayerHandle
    {
      counterByLayerHandle := counterByLayerHandle - {layerHandle};
    }
  }

  // ---------------------------------------------------------------------------------------------
  // The current and drawing state

  /** LayerVector::StateSet */
  datatype StateSet = Invalid | Current | Drawing

  /** The state that a transaction edits and that the drawing state is copied from. */
  class State {
    /** Which state this is; an assignment keeps it, so the drawing state stays the drawing one. */
    const stateSet: StateSet
    var layersSortedByZ: seq<nat>
    var displays: map<nat, nat>
    var colorMatrixChanged: bool
    var colorMatrix: seq<real>
    var globalShadowSettings: nat

    constructor (stateSet: StateSet)
      ensures this.stateSet == stateSet && layersSortedByZ == [] && displays == map[] && colorMatrixChanged
    {
      this.stateSet := stateSet;
      layersSortedByZ := [];
      displays := map[];
      colorMatrixChanged := true;
      colorMatrix := [];
      globalShadowSettings := 0;
    }

    /**
     * operator=: copies the layers, the displays, the colour-matrix flag and the shadow
     * settings; the colour matrix only when the copied flag says it changed.
     */
    method Assign(other: State)
      modifies this
      ensures layersSortedByZ == old(other.layersSortedByZ) && displays == old(other.displays)
      ensures colorMatrixChanged == old(other.colorMatrixChanged)
      ensures colorMatrix == if old(other.colorMatrixChanged) then old(other.colorMatrix) else old(colorMatrix)
      ensures globalShadowSettings == old(other.globalShadowSettings)
    {
      layersSortedByZ := other.layersSortedByZ;
      displays := other.displays;
      colorMatrixChanged := other.colorMatrixChanged;
      if colorMatrixChanged {
        colorMatrix := other.colorMatrix;
      }
      globalShadowSettings := other.globalShadowSettings;
    }
  }

  // ---------------------------------------------------------------------------------------------
  // Active mode and display lookups

  /** Scheduler::ModeEvent */
  datatype ModeEvent = NoEvent | Changed

  datatype ActiveModeInfo = ActiveModeInfo(modeId: int, event: ModeEvent)
  {
    /** operator!=: the two differ in the mode or in the event; that is, they are different values. */
    predicate NotEqual(other: ActiveModeInfo)
      ensures NotEqual(other) <==> this != other
    {
      modeId != other.modeId || event != other.event
    }
  }

  /** The first display id, in the map's order, whose token is `token`. */
  function FirstIdWithToken(tokens: seq<(nat, nat)>, token: nat): (r: Option<nat>)
    ensures r.Some? ==> (r.value, token) in tokens
    ensures r.None? <==> forall i :: 0 <= i < |tokens| ==> tokens[i].1 != token
  {
    if tokens == [] then Option.None
    else if tokens[0].1 == token then Some(tokens[0].0)
    else FirstIdWithToken(tokens[1..], token)
  }

  /** Entries with distinct keys, as in a map. */
  predicate DistinctIds(tokens: seq<(nat, nat)>)
  {
    forall i, j :: 0 <= i < j < |tokens| ==> tokens[i].0 != tokens[j].0
  }

  /** The token the map gives a display id. */
  function TokenOf(tokens: seq<(nat, nat)>, id: nat): (r: Option<nat>)
    ensures r.Some? <==> exists i :: 0 <= i < |tokens| && tokens[i].0 == id
    ensures r.Some? ==> (id, r.value) in tokens
  {
    if tokens == [] then Option.None
    else if tokens[0].0 == id then Some(tokens[0].1)
    else TokenOf(tokens[1..], id)
  }

  /**
   * Looking up the id of a token and then the token of that id gives the token back: the two
   * lookups are inverse on a map with distinct ids.
   */
  lemma {:induction false} TokenOfFirstId(tokens: seq<(nat, nat)>, token: nat)
    requires DistinctIds(tokens)
    ensures var id := FirstIdWithToken(tokens, token);
            id.Some? ==> TokenOf(tokens, id.value) == Some(token)
  {
    if tokens != [] && tokens[0].1 != token {
      assert DistinctIds(tokens[1..]) by {
        forall i, j | 0 <= i < j < |tokens[1..]| ensures tokens[1..][i].0 != tokens[1..][j].0 {
          assert tokens[1..][i] == tokens[i + 1] && tokens[1..][j] == tokens[j + 1];
        }
      }
      TokenOfFirstId(tokens[1..], token);
      var id := FirstIdWithToken(tokens[1..], token);
      if id.Some? {
        var k :| 0 <= k < |tokens[1..]| && tokens[1..][k] == (id.value, token);
        assert tokens[k + 1].0 == id.value;
        assert tokens[0].0 != id.value;
      }
    }
  }

  class SurfaceFlinger {
    /** mDisplays: display devices by display token. */
    var displays: map<nat, nat>
    /** mPhysicalDisplayTokens: display tokens by physical display id, in the map's order. */
    var physicalDisplayTokens: seq<(nat, nat)>
    var desiredActiveMode: ActiveModeInfo
    var desiredActiveModeChanged: bool

    /** The token list is a map: no physical display id appears twice. */
    predicate Valid()
      reads this
    {
      DistinctIds(physicalDisplayTokens)
    }

    constructor ()
      ensures Valid()
      ensures displays == map[] && physicalDisplayTokens == [] && !desiredActiveModeChanged
    {
      displays := map[];
      physicalDisplayTokens := [];
      desiredActiveMode := ActiveModeInfo(0, NoEvent);
      desiredActiveModeChanged := false;
    }

    /** getDisplayDeviceLocked: the device of a known token, otherwise null. */
    function GetDisplayDeviceLocked(displayToken: nat): (r: Option<nat>)
      reads this
      ensures r.Some? <==> displayToken in displays
      ensures r.Some? ==> r.value == displays[displayToken]
    {
      if displayToken in displays then Some(displays[displayToken]) else Option.None
    }

    /** getPhysicalDisplayTokenLocked: the token of a known physical display, otherwise null. */
    function GetPhysicalDisplayTokenLocked(displayId: nat): (r: Option<nat>)
      reads this
      ensures r.Some? <==> exists i :: 0 <= i < |physicalDisplayTokens| && physicalDisplayTokens[i].0 == displayId
      ensures r.Some? ==> (displayId, r.value) in physicalDisplayTokens
    {
      TokenOf(physicalDisplayTokens, displayId)
    }

    /**
     * getPhysicalDisplayIdLocked: walks the map in order and returns the first id whose token
     * is `displayToken`, or none.
     */
    method GetPhysicalDisplayIdLocked(displayToken: nat) returns (r: Option<nat>)
      requires Valid()
      ensures r == FirstIdWithToken(physicalDisplayTokens, displayToken)
      // the id found maps back to the token it was found by
      ensures r.Some? ==> GetPhysicalDisplayTokenLocked(r.value) == Some(displayToken)
      ensures r.Some? ==> (r.value, displayToken) in physicalDisplayTokens
      ensures r.None? <==> forall i :: 0 <= i < |physicalDisplayTokens| ==> physicalDisplayTokens[i].1 != displayToken
    {
      var i := 0;
      while i < |physicalDisplayTokens|
        invariant 0 <= i <= |physicalDisplayTokens|
        invariant FirstIdWithToken(physicalDisplayTokens, displayToken)
                  == FirstIdWithToken(physicalDisplayTokens[i..], displayToken)
      {
        var (id, token) := physicalDisplayTokens[i];
        if token == displayToken {
          TokenOfFirstId(physicalDisplayTokens, displayToken);
          return Some(id);
        }
        assert physicalDisplayTokens[i..][1..] == physicalDisplayTokens[i + 1..];
        i := i + 1;
      }
      return Option.None;
    }

    /** getDesiredActiveMode: the desired mode while a change to it is pending, otherwise none. */
    function GetDesiredActiveMode(): (r: Option<ActiveModeInfo>)
      reads this
      ensures r.Some? <==> desiredActiveModeChanged
      ensures r.Some? ==> r.value == desiredActiveMode
    {
      if desiredActiveModeChanged then Some(desiredActiveMode) else Option.None
    }
  }
}
