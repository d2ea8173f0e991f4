/**
 * The vsync fan-out of SurfaceFlinger's EventThread: the per-connection vsync request state
 * machine, the consumption filter, the connection list, the buffering of frame-rate-override
 * events on a connection, the hotplug/state step of the thread loop and the frame-timeline
 * generator.
 *
 * The throttling decision, the send result of the event channel, the frame-timeline token
 * manager and the clock are oracles: they are parameters of the operations that consult them.
 */
module EventThreads {
  import Wrappers
  import opened StatusCodes
  import opened Integers

  /** Entries of VsyncEventData::frameTimelines. */
  const kFrameTimelinesCapacity: nat := 7
  /** scheduler::VsyncConfig::kEarlyLatchMaxThreshold: 100 ms, in nanoseconds. */
  const kEarlyLatchMaxThreshold: int := 100_000_000
  /** How many times dispatchEvent posts one event to one consumer while the channel is full. */
  const NUM_ATTEMPTS: nat := 3

  /** A period of n >= 1 vsyncs. */
  type Period = n: nat | n >= 1 witness 1

  /**
   * What a connection asks of the vsync stream. `Periodic(1)` is the `Periodic` enumerator;
   * `Periodic(n)` for n > 1 is an explicit rate: every n-th vsync.
   */
  datatype VSyncRequest = None | Single | SingleSuppressCallback | Periodic(period: Period)

  /** The event classes a connection may register for on top of vsync and hotplug. */
  datatype EventRegistration = ModeChanged | FrameRateOverrides

  datatype FrameRateOverride = FrameRateOverride(uid: int, frameRateHz: real)

  datatype EventKind =
    | Hotplug(connected: bool)
    | VSync(count: nat, expectedPresentationTime: int, deadlineTimestamp: int)
    | ModeChange(modeId: int, vsyncPeriod: int)
    | FrameRateOverrideEvent(frameRateOverride: FrameRateOverride)
    | FrameRateOverrideFlush

  datatype Event = Event(kind: EventKind, displayId: int, timestamp: int)

  /** The thread's record of the connected display: its id, the vsync count and the synthetic mode. */
  datatype VSyncState = VSyncState(displayId: int, count: nat, synthetic: bool)

  datatype ThreadState = Idle | Quit | SyntheticVSync | VSyncing

  datatype FrameTimeline = FrameTimeline(vsyncId: int, deadlineTimestamp: int, expectedPresentationTime: int)

  /** The timing handed to the vsync dispatch with a registration call. */
  datatype ScheduleTiming = ScheduleTiming(workDuration: int, readyDuration: int, earliestVsync: int)

  /** The calls the thread makes on its vsync registration. */
  datatype RegistrationCall = Schedule(timing: ScheduleTiming) | Update(timing: ScheduleTiming) | Cancel

  // ---------------------------------------------------------------------------------------------
  // The vsync request state machine

  /** The request after `requestNextVsync`. */
  function RequestNext(request: VSyncRequest): (r: VSyncRequest)
  {
    match request
    case None => Single
    case SingleSuppressCallback => Single
    case _ => request
  }

  /** Whether a connection holding `request` consumes the vsync numbered `count`. */
  function ConsumesVsync(request: VSyncRequest, count: nat, throttled: bool): bool
  {
    match request
    case None => false
    case SingleSuppressCallback => false
    case Single => !throttled
    case Periodic(n) => if n == 1 then !throttled else count % n == 0
  }

  /** The request a connection holds after a vsync has been offered to it. */
  function RequestAfterVsync(request: VSyncRequest, throttled: bool): VSyncRequest
  {
    match request
    case SingleSuppressCallback => None
    case Single => if throttled then Single else SingleSuppressCallback
    case _ => request
  }

  /** Whether a connection with `request` and `registration` consumes `e`. */
  function Consumes(e: Event, request: VSyncRequest, registration: set<EventRegistration>, throttled: bool): bool
  {
    match e.kind
    case Hotplug(_) => true
    case ModeChange(_, _) => ModeChanged in registration
    case VSync(count, _, _) => ConsumesVsync(request, count, throttled)
    case FrameRateOverrideEvent(_) => FrameRateOverrides in registration
    case FrameRateOverrideFlush => FrameRateOverrides in registration
  }

  /** The request after `e` has been offered; only vsync events move it. */
  function RequestAfter(e: Event, request: VSyncRequest, throttled: bool): VSyncRequest
  {
    if e.kind.VSync? then RequestAfterVsync(request, throttled) else request
  }

  /** The request `setVsyncRate(rate)` asks for: none for 0, otherwise every rate-th vsync. */
  function RequestForRate(rate: nat): VSyncRequest
  {
    if rate == 0 then None else Periodic(rate)
  }

  /** One vsync offered to a connection, with the throttling answer for it. */
  datatype VsyncOffer = VsyncOffer(count: nat, throttled: bool)

  /** How many of `offers` a connection starting at `request` consumes. */
  function Delivered(request: VSyncRequest, offers: seq<VsyncOffer>): nat
    decreases |offers|
  {
    if offers == [] then 0
    else
      (if ConsumesVsync(request, offers[0].count, offers[0].throttled) then 1 else 0)
      + Delivered(RequestAfterVsync(request, offers[0].throttled), offers[1..])
  }

  /** `requestNextVsync`: None and SingleSuppressCallback become Single; a periodic request is kept. */
  lemma RequestNextAsksForOne(request: VSyncRequest)
    ensures request.Periodic? ==> RequestNext(request) == request
    ensures !request.Periodic? ==> RequestNext(request) == Single
  {
  }

  /**
   * A connection that does not hold a periodic request consumes at most one vsync, however many
   * are offered and however they are throttled; one that holds none consumes none.
   */
  lemma {:induction false} OneRequestOneVsync(request: VSyncRequest, offers: seq<VsyncOffer>)
    requires !request.Periodic?
    ensures Delivered(request, offers) <= 1
    ensures request != Single ==> Delivered(request, offers) == 0
    decreases |offers|
  {
    if offers != [] {
      var next := RequestAfterVsync(request, offers[0].throttled);
      OneRequestOneVsync(next, offers[1..]);
      if ConsumesVsync(request, offers[0].count, offers[0].throttled) {
        assert next == SingleSuppressCallback;
      }
    }
  }

  /** A `Single` request is consumed by the first vsync that is not throttled, and only by it. */
  lemma {:induction false} SingleConsumedByFirstUnthrottled(offers: seq<VsyncOffer>, k: nat)
    requires k < |offers| && !offers[k].throttled
    requires forall i :: 0 <= i < k ==> offers[i].throttled
    ensures Delivered(Single, offers) == 1
    ensures Delivered(Single, offers[..k]) == 0
    decreases k
  {
    if k == 0 {
      OneRequestOneVsync(SingleSuppressCallback, offers[1..]);
    } else {
      SingleConsumedByFirstUnthrottled(offers[1..], k - 1);
      assert offers[1..][..k - 1] == offers[..k][1..];
    }
  }

  /** With a rate n > 1 the throttling is ignored and exactly the counts divisible by n pass. */
  lemma RateConsumesMultiples(n: Period, count: nat, throttled: bool)
    requires n > 1
    ensures ConsumesVsync(Periodic(n), count, throttled) <==> count % n == 0
    ensures RequestAfterVsync(Periodic(n), throttled) == Periodic(n)
  {
  }

  /** Hotplug always passes; mode changes and frame-rate overrides pass iff registered for. */
  lemma ConsumptionByKind(e: Event, request: VSyncRequest, registration: set<EventRegistration>, throttled: bool)
    ensures e.kind.Hotplug? ==> Consumes(e, request, registration, throttled)
    ensures e.kind.ModeChange? ==> (Consumes(e, request, registration, throttled) <==> ModeChanged in registration)
    ensures (e.kind.FrameRateOverrideEvent? || e.kind.FrameRateOverrideFlush?) ==>
              (Consumes(e, request, registration, throttled) <==> FrameRateOverrides in registration)
    ensures !e.kind.VSync? ==> RequestAfter(e, request, throttled) == request
  {
  }

  // ---------------------------------------------------------------------------------------------
  // The hotplug step of the thread loop

  /** The display state after the thread has taken `e` off its queue. */
  function AfterHotplug(state: Wrappers.Option<VSyncState>, e: Event): Wrappers.Option<VSyncState>
  {
    match e.kind
    case Hotplug(connected) =>
      if connected && state.None? then Wrappers.Some(VSyncState(e.displayId, 0, false))
      else if !connected && state.Some? && state.value.displayId == e.displayId then Wrappers.None
      else state
    case _ => state
  }

  /** A connect while no display is tracked starts tracking it; a disconnect of another display changes nothing. */
  lemma HotplugTracksOneDisplay(state: Wrappers.Option<VSyncState>, e: Event)
    requires e.kind.Hotplug?
    ensures e.kind.connected && state.None? ==> AfterHotplug(state, e) == Wrappers.Some(VSyncState(e.displayId, 0, false))
    ensures e.kind.connected && state.Some? ==> AfterHotplug(state, e) == state
    ensures !e.kind.connected ==>
              (AfterHotplug(state, e).None? <==> state.None? || state.value.displayId == e.displayId)
    ensures !e.kind.connected && AfterHotplug(state, e).Some? ==> AfterHotplug(state, e) == state
  {
  }

  /** The state the thread enters: a vsync source only while a display is tracked and a vsync is wanted. */
  function NextThreadState(state: Wrappers.Option<VSyncState>, vsyncRequested: bool): ThreadState
  {
    if state.Some? && vsyncRequested then
      (if state.value.synthetic then SyntheticVSync else VSyncing)
    else Idle
  }

  // ---------------------------------------------------------------------------------------------
  // Sequences of connections

  predicate NoDuplicates<T(==)>(s: seq<T>)
  {
    forall i, j :: 0 <= i < j < |s| ==> s[i] != s[j]
  }

  /** `s` with its first occurrence of `x` erased, as vector::erase(std::find(...)) does. */
  function RemoveFirst<T(==)>(s: seq<T>, x: T): seq<T>
    decreases |s|
  {
    if s == [] then []
    else if s[0] == x then s[1..]
    else [s[0]] + RemoveFirst(s[1..], x)
  }

  /** Erasing the element found at `i` is erasing the first occurrence. */
  lemma {:induction false} RemoveFirstAt<T>(s: seq<T>, x: T, i: nat)
    requires i < |s| && s[i] == x && x !in s[..i]
    ensures RemoveFirst(s, x) == s[..i] + s[i + 1..]
    decreases i
  {
    if i > 0 {
      assert s[0] in s[..i];
      assert s[1..][..i - 1] == s[..i][1..];
      RemoveFirstAt(s[1..], x, i - 1);
      assert s[..i] + s[i + 1..] == [s[0]] + (s[1..][..i - 1] + s[1..][i..]);
    }
  }

  /** Erasing an absent element changes nothing. */
  lemma {:induction false} RemoveFirstAbsent<T>(s: seq<T>, x: T)
    requires x !in s
    ensures RemoveFirst(s, x) == s
    decreases |s|
  {
    if s != [] {
      assert s[0] != x;
      assert x !in s[1..];
      RemoveFirstAbsent(s[1..], x);
      assert [s[0]] + s[1..] == s;
    }
  }

  /** On a list without duplicates, erasing `x` removes exactly `x` and keeps the rest and their order. */
  lemma RemovalOfPresent<T>(s: seq<T>, x: T, i: nat)
    requires NoDuplicates(s) && i < |s| && s[i] == x
    ensures RemoveFirst(s, x) == s[..i] + s[i + 1..]
    ensures x !in RemoveFirst(s, x) && NoDuplicates(RemoveFirst(s, x))
    ensures |RemoveFirst(s, x)| == |s| - 1
  {
    assert x !in s[..i];
    RemoveFirstAt(s, x, i);
    var r := s[..i] + s[i + 1..];
    forall j | 0 <= j < |r| ensures r[j] != x {
      if j < i { assert r[j] == s[j]; } else { assert r[j] == s[j + 1]; }
    }
    forall j, k | 0 <= j < k < |r| ensures r[j] != r[k] {
      var sj := if j < i then j else j + 1;
      var sk := if k < i then k else k + 1;
      assert r[j] == s[sj] && r[k] == s[sk];
    }
  }

  // ---------------------------------------------------------------------------------------------
  // Connections

  class EventThreadConnection {
    var vsyncRequest: VSyncRequest
    const ownerUid: int
    const eventRegistration: set<EventRegistration>
    /** Whether the connection was created with a resync callback. */
    const hasResyncCallback: bool
    /** How many times the resync callback has been invoked. */
    var resyncCalls: nat
    /** Frame-rate-override events held back until their flush. */
    var pendingEvents: seq<Event>
    /** The batches handed to the event channel, oldest first. */
    var sentBatches: seq<seq<Event>>

    constructor (ownerUid: int, hasResyncCallback: bool, eventRegistration: set<EventRegistration>)
      ensures vsyncRequest == None && pendingEvents == [] && sentBatches == [] && resyncCalls == 0
      ensures this.ownerUid == ownerUid && this.eventRegistration == eventRegistration
      ensures this.hasResyncCallback == hasResyncCallback
    {
      vsyncRequest := None;
      this.ownerUid := ownerUid;
      this.eventRegistration := eventRegistration;
      this.hasResyncCallback := hasResyncCallback;
      resyncCalls := 0;
      pendingEvents := [];
      sentBatches := [];
    }

    /**
     * Posts `event` to the channel. An override is held back and reported as sent; a flush sends
     * the held overrides followed by itself and empties the hold; anything else is sent alone.
     * `sendResult` is what the channel's send returns: a byte count, or a negative error.
     */
    method PostEvent(event: Event, sendResult: int) returns (status: int)
      modifies this`pendingEvents, this`sentBatches
      ensures event.kind.FrameRateOverrideEvent? ==>
                pendingEvents == old(pendingEvents) + [event] && sentBatches == old(sentBatches)
                && status == NO_ERROR
      ensures event.kind.FrameRateOverrideFlush? ==>
                pendingEvents == [] && sentBatches == old(sentBatches) + [old(pendingEvents) + [event]]
                && status == SendStatus(sendResult)
      ensures !event.kind.FrameRateOverrideEvent? && !event.kind.FrameRateOverrideFlush? ==>
                pendingEvents == old(pendingEvents) && sentBatches == old(sentBatches) + [[event]]
                && status == SendStatus(sendResult)
    {
      if event.kind.FrameRateOverrideEvent? || event.kind.FrameRateOverrideFlush? {
        pendingEvents := pendingEvents + [event];
        if event.kind.FrameRateOverrideEvent? {
          return NO_ERROR;
        }
        sentBatches := sentBatches + [pendingEvents];
        pendingEvents := [];
        return SendStatus(sendResult);
      }
      sentBatches := sentBatches + [[event]];
      status := SendStatus(sendResult);
    }
  }

  /** A negative send result is the error; any byte count is success. */
  function SendStatus(size: int): (s: int)
    ensures s <= 0
    ensures s == NO_ERROR <==> size >= 0
  {
    if size < 0 then size else NO_ERROR
  }

  /** The status postEvent reports for `event` when the channel's send returns `sendResult`. */
  function PostStatus(event: Event, sendResult: int): int
  {
    if event.kind.FrameRateOverrideEvent? then NO_ERROR else SendStatus(sendResult)
  }

  /** `n` copies of `x`. */
  function Repeat<T>(x: T, n: nat): (r: seq<T>)
    ensures |r| == n && forall i :: 0 <= i < n ==> r[i] == x
  {
    if n == 0 then [] else Repeat(x, n - 1) + [x]
  }

  /** The requests the connections hold, in list order. */
  ghost function Requests(cs: seq<EventThreadConnection>): (rs: seq<VSyncRequest>)
    reads cs
    ensures |rs| == |cs|
    ensures forall i :: 0 <= i < |cs| ==> rs[i] == cs[i].vsyncRequest
    decreases |cs|
  {
    if cs == [] then [] else Requests(cs[..|cs| - 1]) + [cs[|cs| - 1].vsyncRequest]
  }

  /**
   * Of the first `n` connections, in list order, those still alive that consume `e` given the
   * requests they held when it came. `alive[i]` says whether connection i could be promoted.
   */
  function Consumers(cs: seq<EventThreadConnection>, e: Event, requests: seq<VSyncRequest>, throttled: seq<bool>,
                     alive: seq<bool>, n: nat): seq<EventThreadConnection>
    requires n <= |cs| && |requests| == |cs| && |throttled| == |cs| && |alive| == |cs|
  {
    if n == 0 then []
    else
      Consumers(cs, e, requests, throttled, alive, n - 1)
      + (if alive[n - 1] && Consumes(e, requests[n - 1], cs[n - 1].eventRegistration, throttled[n - 1])
         then [cs[n - 1]] else [])
  }

  /** Every consumer is a live connection of the list that consumes the event, and every such connection is one. */
  lemma {:induction false} ConsumersAreTheConsuming(cs: seq<EventThreadConnection>, e: Event, requests: seq<VSyncRequest>,
                                                     throttled: seq<bool>, alive: seq<bool>, n: nat, c: EventThreadConnection)
    requires n <= |cs| && |requests| == |cs| && |throttled| == |cs| && |alive| == |cs|
    ensures c in Consumers(cs, e, requests, throttled, alive, n) <==>
              exists i :: 0 <= i < n && cs[i] == c && alive[i] && Consumes(e, requests[i], c.eventRegistration, throttled[i])
  {
    if n > 0 {
      ConsumersAreTheConsuming(cs, e, requests, throttled, alive, n - 1, c);
    }
  }

  /** The first `n` connections, in list order, with the dead ones erased. */
  function Survivors(cs: seq<EventThreadConnection>, alive: seq<bool>, n: nat): seq<EventThreadConnection>
    requires n <= |cs| && |alive| == |cs|
  {
    if n == 0 then [] else Survivors(cs, alive, n - 1) + (if alive[n - 1] then [cs[n - 1]] else [])
  }

  /**
   * The survivors are exactly the live connections, and erasing the dead ones from a list
   * without duplicates leaves a list without duplicates.
   */
  lemma {:induction false} SurvivorsAreTheLive(cs: seq<EventThreadConnection>, alive: seq<bool>, n: nat)
    requires n <= |cs| && |alive| == |cs| && NoDuplicates(cs)
    ensures forall c :: c in Survivors(cs, alive, n) <==> exists i :: 0 <= i < n && alive[i] && cs[i] == c
    ensures NoDuplicates(Survivors(cs, alive, n))
    ensures |Survivors(cs, alive, n)| <= n
  {
    if n > 0 {
      SurvivorsAreTheLive(cs, alive, n - 1);
      var s := Survivors(cs, alive, n - 1);
      if alive[n - 1] {
        assert cs[n - 1] !in s;
        var t := s + [cs[n - 1]];
        forall j, k | 0 <= j < k < |t| ensures t[j] != t[k] {
          if k < |s| { assert t[j] == s[j] && t[k] == s[k]; } else { assert t[j] in s; }
        }
      }
    }
  }

  // ---------------------------------------------------------------------------------------------
  // The event thread

  class EventThread {
    /** The registered connections; a connection appears at most once. */
    var connections: seq<EventThreadConnection>
    /** Events waiting for the thread, oldest first. */
    var pendingEvents: seq<Event>
    var vsyncState: Wrappers.Option<VSyncState>
    var state: ThreadState
    var lastVsyncCallbackTime: int
    var workDuration: int
    var readyDuration: int
    /** The calls made on the vsync registration, oldest first. */
    var registrationCalls: seq<RegistrationCall>

    ghost predicate Valid()
      reads this
    {
      NoDuplicates(connections)
    }

    constructor (workDuration: int, readyDuration: int)
      ensures Valid()
      ensures connections == [] && pendingEvents == [] && vsyncState.None? && state == Idle
      ensures this.workDuration == workDuration && this.readyDuration == readyDuration
      ensures registrationCalls == []
    {
      connections := [];
      pendingEvents := [];
      vsyncState := Wrappers.None;
      state := Idle;
      lastVsyncCallbackTime := 0;
      this.workDuration := workDuration;
      this.readyDuration := readyDuration;
      registrationCalls := [];
    }

    /** The timing the next registration call carries. */
    function Timing(): ScheduleTiming
      reads this
    {
      ScheduleTiming(workDuration, readyDuration, lastVsyncCallbackTime)
    }

    /** Takes the new durations and passes them on to the registration, from the last vsync on. */
    method SetDuration(workDuration: int, readyDuration: int)
      modifies this`workDuration, this`readyDuration, this`registrationCalls
      ensures this.workDuration == workDuration && this.readyDuration == readyDuration
      ensures registrationCalls == old(registrationCalls) + [Update(ScheduleTiming(workDuration, readyDuration, lastVsyncCallbackTime))]
    {
      this.workDuration := workDuration;
      this.readyDuration := readyDuration;
      registrationCalls := registrationCalls + [Update(Timing())];
    }

    /** std::find over the connection list: the first position holding `c`, or the list's length. */
    method Find(c: EventThreadConnection) returns (i: nat)
      ensures i <= |connections|
      ensures i == |connections| <==> c !in connections
      ensures i < |connections| ==> connections[i] == c && c !in connections[..i]
    {
      i := 0;
      while i < |connections| && connections[i] != c
        invariant i <= |connections|
        invariant c !in connections[..i]
      {
        i := i + 1;
      }
      if i == |connections| {
        assert connections[..i] == connections;
      }
    }

    /** Adds `c` at the end of the list; a connection already there is refused with ALREADY_EXISTS. */
    method RegisterDisplayEventConnection(c: EventThreadConnection) returns (status: int)
      requires Valid()
      modifies this`connections
      ensures Valid()
      ensures pendingEvents == old(pendingEvents) && vsyncState == old(vsyncState) && state == old(state)
      ensures old(c in connections) ==> status == ALREADY_EXISTS && connections == old(connections)
      ensures old(c !in connections) ==> status == NO_ERROR && connections == old(connections) + [c]
    {
      var i := Find(c);
      if i < |connections| {
        return ALREADY_EXISTS;
      }
      connections := connections + [c];
      status := NO_ERROR;
    }

    /** Erases `c` from the list if it is there. */
    method RemoveDisplayEventConnection(c: EventThreadConnection)
      requires Valid()
      modifies this`connections
      ensures Valid()
      ensures pendingEvents == old(pendingEvents) && vsyncState == old(vsyncState) && state == old(state)
      ensures connections == RemoveFirst(old(connections), c)
      ensures c !in connections
      ensures forall d :: d in connections <==> d in old(connections) && d != c
    {
      var i := Find(c);
      if i < |connections| {
        RemovalOfPresent(connections, c, i);
        connections := connections[..i] + connections[i + 1..];
      } else {
        RemoveFirstAbsent(connections, c);
      }
    }

    /**
     * `setVsyncRate` with the uint32 the binder call carries. A rate whose int reading is negative
     * is ignored; 0 stops vsync; any other rate asks for every rate-th vsync.
     */
    method SetVsyncRate(rate: nat, connection: EventThreadConnection)
      requires rate < UINT32_LIMIT
      modifies connection`vsyncRequest
      ensures rate >= 0x8000_0000 ==> connection.vsyncRequest == old(connection.vsyncRequest)
      ensures rate < 0x8000_0000 ==> connection.vsyncRequest == RequestForRate(rate)
    {
      if rate >= 0x8000_0000 {
        return;
      }
      var request := if rate == 0 then None else Periodic(rate);
      if connection.vsyncRequest != request {
        connection.vsyncRequest := request;
      }
    }

    /**
     * Asks for the next vsync on behalf of `connection`, first invoking its resync callback if
     * it has one.
     */
    method RequestNextVsync(connection: EventThreadConnection)
      modifies connection`vsyncRequest, connection`resyncCalls
      ensures connection.vsyncRequest == RequestNext(old(connection.vsyncRequest))
      ensures connection.resyncCalls == old(connection.resyncCalls) + (if connection.hasResyncCallback then 1 else 0)
    {
      if connection.hasResyncCallback {
        connection.resyncCalls := connection.resyncCalls + 1;
      }
      if connection.vsyncRequest == None {
        connection.vsyncRequest := Single;
      } else if connection.vsyncRequest == SingleSuppressCallback {
        connection.vsyncRequest := Single;
      }
    }

    /**
     * Decides whether `connection` takes `event`, moving a single request along when a vsync is
     * offered. `throttled` is the throttling answer for this connection and this event.
     */
    method ShouldConsumeEvent(event: Event, connection: EventThreadConnection, throttled: bool) returns (consume: bool)
      modifies connection`vsyncRequest
      ensures consume == Consumes(event, old(connection.vsyncRequest), connection.eventRegistration, throttled)
      ensures connection.vsyncRequest == RequestAfter(event, old(connection.vsyncRequest), throttled)
    {
      match event.kind {
        case Hotplug(_) =>
          consume := true;
        case ModeChange(_, _) =>
          consume := ModeChanged in connection.eventRegistration;
        case VSync(count, _, _) =>
          match connection.vsyncRequest {
            case None =>
              consume := false;
            case SingleSuppressCallback =>
              connection.vsyncRequest := None;
              consume := false;
            case Single =>
              if throttled {
                consume := false;
              } else {
                connection.vsyncRequest := SingleSuppressCallback;
                consume := true;
              }
            case Periodic(n) =>
              if n == 1 {
                consume := !throttled;
              } else {
                consume := count % n == 0;
              }
          }
        case FrameRateOverrideEvent(_) =>
          consume := FrameRateOverrides in connection.eventRegistration;
        case FrameRateOverrideFlush =>
          consume := FrameRateOverrides in connection.eventRegistration;
      }
    }

    /** Queues a hotplug event stamped with `now`. */
    method OnHotplugReceived(displayId: int, connected: bool, now: int)
      modifies this`pendingEvents
      ensures pendingEvents == old(pendingEvents) + [Event(Hotplug(connected), displayId, now)]
      ensures connections == old(connections) && vsyncState == old(vsyncState) && state == old(state)
    {
      pendingEvents := pendingEvents + [Event(Hotplug(connected), displayId, now)];
    }

    /** Queues the vsync the dispatch delivered; the display's count goes up by one, wrapping at 2^32. */
    method OnVsync(vsyncTime: int, wakeupTime: int, readyTime: int)
      requires vsyncState.Some?
      modifies this`pendingEvents, this`vsyncState, this`lastVsyncCallbackTime
      ensures lastVsyncCallbackTime == vsyncTime
      ensures vsyncState == Wrappers.Some(old(vsyncState.value).(count := (old(vsyncState.value.count) + 1) % UINT32_LIMIT))
      ensures pendingEvents == old(pendingEvents)
                + [Event(VSync(vsyncState.value.count, vsyncTime, readyTime), vsyncState.value.displayId, wakeupTime)]
      ensures connections == old(connections) && state == old(state)
    {
      lastVsyncCallbackTime := vsyncTime;
      var vs := vsyncState.value;
      var count := (vs.count + 1) % UINT32_LIMIT;
      vsyncState := Wrappers.Some(vs.(count := count));
      pendingEvents := pendingEvents + [Event(VSync(count, vsyncTime, readyTime), vs.displayId, wakeupTime)];
    }

    /** Queues one override event per entry of `overrides`, in order, then exactly one flush. */
    method OnFrameRateOverridesChanged(displayId: int, overrides: seq<FrameRateOverride>, now: int)
      modifies this`pendingEvents
      ensures |pendingEvents| == |old(pendingEvents)| + |overrides| + 1
      ensures pendingEvents[..|old(pendingEvents)|] == old(pendingEvents)
      ensures forall i :: 0 <= i < |overrides| ==>
                pendingEvents[|old(pendingEvents)| + i] == Event(FrameRateOverrideEvent(overrides[i]), displayId, now)
      ensures pendingEvents[|pendingEvents| - 1] == Event(FrameRateOverrideFlush, displayId, now)
      ensures connections == old(connections) && vsyncState == old(vsyncState) && state == old(state)
    {
      for i := 0 to |overrides|
        invariant |pendingEvents| == |old(pendingEvents)| + i
        invariant pendingEvents[..|old(pendingEvents)|] == old(pendingEvents)
        invariant forall j :: 0 <= j < i ==>
                    pendingEvents[|old(pendingEvents)| + j] == Event(FrameRateOverrideEvent(overrides[j]), displayId, now)
        invariant connections == old(connections) && vsyncState == old(vsyncState) && state == old(state)
      {
        pendingEvents := pendingEvents + [Event(FrameRateOverrideEvent(overrides[i]), displayId, now)];
      }
      pendingEvents := pendingEvents + [Event(FrameRateOverrideFlush, displayId, now)];
    }

    /** ShouldConsumeEvent on the connection at `i` of a list without duplicates: no other entry changes. */
    method ShouldConsumeEventAt(event: Event, cs: seq<EventThreadConnection>, i: nat, throttled: bool)
      returns (consume: bool)
      requires NoDuplicates(cs) && i < |cs|
      modifies cs[i..i + 1]`vsyncRequest
      ensures consume == Consumes(event, old(cs[i].vsyncRequest), cs[i].eventRegistration, throttled)
      ensures cs[i].vsyncRequest == RequestAfter(event, old(cs[i].vsyncRequest), throttled)
      ensures forall j :: 0 <= j < |cs| && j != i ==> cs[j].vsyncRequest == old(cs[j].vsyncRequest)
    {
      assert forall j :: 0 <= j < |cs| && j != i ==> cs[j] != cs[i];
      consume := ShouldConsumeEvent(event, cs[i], throttled);
    }

    /**
     * Offers `event` (if any) to every live connection in list order, collecting the consumers,
     * erases the connections whose client is gone, and reports whether any live connection still
     * wants vsync afterwards. `alive[i]` says whether connection i could be promoted and
     * `throttled[i]` is the throttling answer for it.
     */
    method OfferToConnections(event: Wrappers.Option<Event>, alive: seq<bool>, throttled: seq<bool>)
      returns (consumers: seq<EventThreadConnection>, vsyncRequested: bool)
      requires Valid() && |alive| == |connections| && |throttled| == |connections|
      modifies this`connections, connections`vsyncRequest
      ensures Valid()
      ensures connections == Survivors(old(connections), alive, |alive|)
      ensures event.Some? ==>
                consumers == Consumers(old(connections), event.value, old(Requests(connections)), throttled, alive, |alive|)
      ensures event.None? ==> consumers == []
      ensures forall i :: 0 <= i < |alive| ==>
                old(connections)[i].vsyncRequest ==
                  (if event.Some? && alive[i] then RequestAfter(event.value, old(connections[i].vsyncRequest), throttled[i])
                   else old(connections[i].vsyncRequest))
      ensures vsyncRequested <==> exists i :: 0 <= i < |alive| && alive[i] && old(connections)[i].vsyncRequest != None
    {
      var cs := connections;
      ghost var before := Requests(cs);
      ghost var after := seq(|before|, j requires 0 <= j < |before| =>
                               if event.Some? && alive[j] then RequestAfter(event.value, before[j], throttled[j]) else before[j]);
      var kept := [];
      consumers := [];
      vsyncRequested := false;
      for i := 0 to |cs|
        invariant forall j :: 0 <= j < i ==> cs[j].vsyncRequest == after[j]
        invariant forall j :: i <= j < |cs| ==> cs[j].vsyncRequest == before[j]
        invariant kept == Survivors(cs, alive, i)
        invariant event.Some? ==> consumers == Consumers(cs, event.value, before, throttled, alive, i)
        invariant event.None? ==> consumers == []
        invariant vsyncRequested <==> exists j :: 0 <= j < i && alive[j] && after[j] != None
      {
        if alive[i] {
          var connection := cs[i];
          if event.Some? {
            var consume := ShouldConsumeEventAt(event.value, cs, i, throttled[i]);
            if consume {
              consumers := consumers + [connection];
            }
          }
          vsyncRequested := vsyncRequested || connection.vsyncRequest != None;
          kept := kept + [connection];
        }
      }
      SurvivorsAreTheLive(cs, alive, |cs|);
      connections := kept;
    }

    /** Takes the oldest queued event, if any, and applies its hotplug effect to the vsync state. */
    method TakeNextEvent() returns (event: Wrappers.Option<Event>)
      modifies this`pendingEvents, this`vsyncState
      ensures old(pendingEvents) == [] ==> event.None? && pendingEvents == []
      ensures old(pendingEvents) != [] ==>
                event == Wrappers.Some(old(pendingEvents)[0]) && pendingEvents == old(pendingEvents)[1..]
      ensures event.Some? ==> vsyncState == AfterHotplug(old(vsyncState), event.value)
      ensures event.None? ==> vsyncState == old(vsyncState)
    {
      event := Wrappers.None;
      if pendingEvents != [] {
        event := Wrappers.Some(pendingEvents[0]);
        pendingEvents := pendingEvents[1..];
        vsyncState := AfterHotplug(vsyncState, event.value);
      }
    }

    /**
     * The thread state after an event was offered: waiting for vsync (synthetic or not) while
     * there is a vsync state and some connection requested vsync, otherwise idle. Only a real
     * vsync wait schedules the registration, from the last vsync on; any other state cancels it.
     */
    method UpdateThreadState(vsyncRequested: bool)
      modifies this`state, this`registrationCalls
      ensures state == NextThreadState(vsyncState, vsyncRequested)
      ensures state == VSyncing ==> registrationCalls == old(registrationCalls) + [Schedule(Timing())]
      ensures state != VSyncing ==> registrationCalls == old(registrationCalls) + [Cancel]
    {
      if vsyncState.Some? && vsyncRequested {
        state := if vsyncState.value.synthetic then SyntheticVSync else VSyncing;
      } else {
        state := Idle;
      }
      if state == VSyncing {
        registrationCalls := registrationCalls + [Schedule(Timing())];
      } else {
        registrationCalls := registrationCalls + [Cancel];
      }
    }

    /**
     * Posts `event` to one consumer as dispatchEvent does: up to NUM_ATTEMPTS times while the
     * channel reports EAGAIN; any other error erases the consumer from the list.
     * `sendResults[k]` is what the channel's send returns on attempt k.
     */
    method DispatchToConsumer(event: Event, consumer: EventThreadConnection, sendResults: seq<int>)
      returns (attempts: nat)
      requires Valid() && |sendResults| == NUM_ATTEMPTS
      modifies this`connections, consumer`pendingEvents, consumer`sentBatches
      ensures Valid()
      ensures 1 <= attempts <= NUM_ATTEMPTS
      ensures forall k :: 0 <= k < attempts - 1 ==> PostStatus(event, sendResults[k]) == -EAGAIN
      ensures attempts < NUM_ATTEMPTS ==> PostStatus(event, sendResults[attempts - 1]) != -EAGAIN
      ensures var last := PostStatus(event, sendResults[attempts - 1]);
              connections == (if last != NO_ERROR && last != -EAGAIN then RemoveFirst(old(connections), consumer)
                              else old(connections))
      ensures consumer.vsyncRequest == old(consumer.vsyncRequest)
      ensures event.kind.FrameRateOverrideEvent? ==>
                attempts == 1 && consumer.pendingEvents == old(consumer.pendingEvents) + [event]
                && consumer.sentBatches == old(consumer.sentBatches)
      ensures event.kind.FrameRateOverrideFlush? ==>
                consumer.pendingEvents == []
                && consumer.sentBatches == old(consumer.sentBatches) + [old(consumer.pendingEvents) + [event]]
                                           + Repeat([event], attempts - 1)
      ensures !event.kind.FrameRateOverrideEvent? && !event.kind.FrameRateOverrideFlush? ==>
                consumer.pendingEvents == old(consumer.pendingEvents)
                && consumer.sentBatches == old(consumer.sentBatches) + Repeat([event], attempts)
      ensures pendingEvents == old(pendingEvents) && vsyncState == old(vsyncState) && state == old(state)
    {
      attempts := 0;
      var needsRetry := true;
      while needsRetry && attempts < NUM_ATTEMPTS
        invariant Valid()
        invariant attempts <= NUM_ATTEMPTS
        invariant attempts == 0 ==> needsRetry && connections == old(connections)
        invariant forall k :: 0 <= k < attempts - 1 ==> PostStatus(event, sendResults[k]) == -EAGAIN
        invariant attempts > 0 ==>
                    var last := PostStatus(event, sendResults[attempts - 1]);
                    (needsRetry <==> last == -EAGAIN)
                    && connections == (if last != NO_ERROR && last != -EAGAIN then RemoveFirst(old(connections), consumer)
                                       else old(connections))
        invariant consumer.vsyncRequest == old(consumer.vsyncRequest)
        invariant event.kind.FrameRateOverrideEvent? ==>
                    attempts <= 1 && consumer.sentBatches == old(consumer.sentBatches)
                    && consumer.pendingEvents == old(consumer.pendingEvents) + Repeat(event, attempts)
        invariant event.kind.FrameRateOverrideFlush? && attempts == 0 ==>
                    consumer.pendingEvents == old(consumer.pendingEvents) && consumer.sentBatches == old(consumer.sentBatches)
        invariant event.kind.FrameRateOverrideFlush? && attempts > 0 ==>
                    consumer.pendingEvents == []
                    && consumer.sentBatches == old(consumer.sentBatches) + [old(consumer.pendingEvents) + [event]]
                                               + Repeat([event], attempts - 1)
        invariant !event.kind.FrameRateOverrideEvent? && !event.kind.FrameRateOverrideFlush? ==>
                    consumer.pendingEvents == old(consumer.pendingEvents)
                    && consumer.sentBatches == old(consumer.sentBatches) + Repeat([event], attempts)
        invariant pendingEvents == old(pendingEvents) && vsyncState == old(vsyncState) && state == old(state)
        decreases NUM_ATTEMPTS - attempts
      {
        ghost var sentBefore := consumer.sentBatches;
        ghost var heldBefore := consumer.pendingEvents;
        var status := consumer.PostEvent(event, sendResults[attempts]);
        assert status == PostStatus(event, sendResults[attempts]);
        if event.kind.FrameRateOverrideFlush? && attempts > 0 {
          assert heldBefore + [event] == [event];
          assert consumer.sentBatches == sentBefore + [[event]];
          assert Repeat([event], attempts) == Repeat([event], attempts - 1) + [[event]];
        }
        if status == NO_ERROR {
          needsRetry := false;
        } else if status == -EAGAIN {
          needsRetry := true;
        } else {
          RemoveDisplayEventConnection(consumer);
          needsRetry := false;
        }
        attempts := attempts + 1;
      }
    }
  }

  // ---------------------------------------------------------------------------------------------
  // Frame timelines

  /** The frame timelines of a vsync event, filled in place by GenerateFrameTimeline. */
  class VsyncEventData {
    const frameTimelines: array<FrameTimeline>
    var preferredFrameTimelineIndex: nat
    var frameTimelinesLength: nat
    var frameInterval: int

    constructor ()
      ensures frameTimelines.Length == kFrameTimelinesCapacity && fresh(frameTimelines)
      ensures preferredFrameTimelineIndex == 0 && frameTimelinesLength == 0
    {
      frameTimelines := new FrameTimeline[kFrameTimelinesCapacity](_ => FrameTimeline(0, 0, 0));
      preferredFrameTimelineIndex := 0;
      frameTimelinesLength := 0;
      frameInterval := 0;
    }
  }

  /**
   * `m` frame intervals, `m * frameInterval`, written as repeated addition so that the solver
   * meets the product only where MultipleIsProduct introduces it.
   */
  function Multiple(m: int, frameInterval: int): int
    decreases if m < 0 then -m else m
  {
    if m == 0 then 0
    else if m > 0 then Multiple(m - 1, frameInterval) + frameInterval
    else Multiple(m + 1, frameInterval) - frameInterval
  }

  lemma {:induction false} MultipleIsProduct(m: int, frameInterval: int)
    ensures Multiple(m, frameInterval) == m * frameInterval
    decreases if m < 0 then -m else m
  {
    if m > 0 {
      MultipleIsProduct(m - 1, frameInterval);
      assert m * frameInterval == (m - 1) * frameInterval + frameInterval;
    } else if m < 0 {
      MultipleIsProduct(m + 1, frameInterval);
      assert m * frameInterval == (m + 1) * frameInterval - frameInterval;
    }
  }

  /** With a positive interval, more intervals reach further. */
  lemma {:induction false} MultipleMonotone(a: int, b: int, frameInterval: int)
    requires a <= b && frameInterval > 0
    ensures Multiple(a, frameInterval) <= Multiple(b, frameInterval)
    decreases b - a
  {
    if a < b {
      MultipleStep(b - 1, frameInterval);
      MultipleMonotone(a, b - 1, frameInterval);
    }
  }

  /** One more interval reaches one interval further. */
  lemma MultipleStep(m: int, frameInterval: int)
    ensures Multiple(m + 1, frameInterval) == Multiple(m, frameInterval) + frameInterval
  {
  }

  /** The smallest multiplier whose deadline lies after `timestamp`. */
  function FirstFutureMultiplier(preferredDeadline: int, frameInterval: int, timestamp: int): (k: int)
    requires frameInterval > 0
    ensures preferredDeadline + Multiple(k, frameInterval) > timestamp
    ensures preferredDeadline + Multiple(k - 1, frameInterval) <= timestamp
  {
    var d := timestamp - preferredDeadline;
    var q := d / frameInterval;
    MultipleIsProduct(q, frameInterval);
    assert d == q * frameInterval + d % frameInterval;
    q + 1
  }

  /** A multiplier gives a future deadline iff it is at least the first future one. */
  lemma FutureIff(preferredDeadline: int, frameInterval: int, timestamp: int, m: int)
    requires frameInterval > 0
    ensures preferredDeadline + Multiple(m, frameInterval) > timestamp
            <==> m >= FirstFutureMultiplier(preferredDeadline, frameInterval, timestamp)
  {
    var k := FirstFutureMultiplier(preferredDeadline, frameInterval, timestamp);
    if m >= k {
      MultipleMonotone(k, m, frameInterval);
    } else {
      MultipleMonotone(m, k - 1, frameInterval);
    }
  }

  /** The multiplier of the first entry the generator tries that has a future deadline. */
  function FirstTimelineMultiplier(preferredDeadline: int, frameInterval: int, timestamp: int): int
    requires frameInterval > 0
  {
    var k := FirstFutureMultiplier(preferredDeadline, frameInterval, timestamp);
    if k < 1 - kFrameTimelinesCapacity then 1 - kFrameTimelinesCapacity else k
  }

  /** The timeline `m` frame intervals away from the preferred one. */
  function TimelineAt(m: int, frameInterval: int, timestamp: int, preferredEpt: int, preferredDeadline: int,
                      token: (int, int, int) -> int): FrameTimeline
  {
    var deadline := preferredDeadline + Multiple(m, frameInterval);
    var ept := preferredEpt + Multiple(m, frameInterval);
    FrameTimeline(token(timestamp, deadline, ept), deadline, ept)
  }

  /**
   * The timelines the generator emits on its normal path, multipliers `m0` to `m0 + len - 1`,
   * all have future deadlines and present before the early-latch threshold, and each is a frame
   * interval after the one before it.
   */
  lemma NormalTimelines(len: nat, frameInterval: int, timestamp: int, preferredEpt: int,
                        preferredDeadline: int, token: (int, int, int) -> int)
    requires frameInterval > 0
    requires var m0 := FirstTimelineMultiplier(preferredDeadline, frameInterval, timestamp);
             Multiple(m0 + len - 1, frameInterval) < kEarlyLatchMaxThreshold
    ensures var m0 := FirstTimelineMultiplier(preferredDeadline, frameInterval, timestamp);
            forall m :: m0 <= m < m0 + len ==>
              var t := TimelineAt(m, frameInterval, timestamp, preferredEpt, preferredDeadline, token);
              t.deadlineTimestamp > timestamp && t.expectedPresentationTime < preferredEpt + kEarlyLatchMaxThreshold
    ensures forall m :: TimelineAt(m + 1, frameInterval, timestamp, preferredEpt, preferredDeadline, token).deadlineTimestamp
                        == TimelineAt(m, frameInterval, timestamp, preferredEpt, preferredDeadline, token).deadlineTimestamp + frameInterval
    ensures forall m :: TimelineAt(m + 1, frameInterval, timestamp, preferredEpt, preferredDeadline, token).expectedPresentationTime
                        == TimelineAt(m, frameInterval, timestamp, preferredEpt, preferredDeadline, token).expectedPresentationTime + frameInterval
  {
    var m0 := FirstTimelineMultiplier(preferredDeadline, frameInterval, timestamp);
    forall m | m0 <= m < m0 + len
      ensures preferredDeadline + Multiple(m, frameInterval) > timestamp
      ensures Multiple(m, frameInterval) < kEarlyLatchMaxThreshold
    {
      FutureIff(preferredDeadline, frameInterval, timestamp, m);
      MultipleMonotone(m, m0 + len - 1, frameInterval);
    }
    forall m ensures Multiple(m + 1, frameInterval) == Multiple(m, frameInterval) + frameInterval {
      MultipleIsProduct(m, frameInterval);
      MultipleIsProduct(m + 1, frameInterval);
      assert (m + 1) * frameInterval == m * frameInterval + frameInterval;
    }
  }

  /**
   * The loop of generateFrameTimeline: writes the evenly spaced timelines from the first with a
   * future deadline into `timelines`, stopping before one that would present
   * kEarlyLatchMaxThreshold or more after the preferred time. Returns how many it wrote and the
   * index of the preferred timeline (multiplier 0) if it was among them.
   */
  method FillFrameTimelines(timelines: array<FrameTimeline>, frameInterval: int, timestamp: int,
                            preferredEpt: int, preferredDeadline: int, token: (int, int, int) -> int)
    returns (count: nat, preferredIndex: Wrappers.Option<nat>)
    requires timelines.Length == kFrameTimelinesCapacity && frameInterval > 0
    modifies timelines
    ensures var m0 := FirstTimelineMultiplier(preferredDeadline, frameInterval, timestamp);
            && count <= kFrameTimelinesCapacity
            && (count == 0 <==> Multiple(m0, frameInterval) >= kEarlyLatchMaxThreshold)
            && (count > 0 ==> Multiple(m0 + count - 1, frameInterval) < kEarlyLatchMaxThreshold)
            && (0 < count < kFrameTimelinesCapacity ==> Multiple(m0 + count, frameInterval) >= kEarlyLatchMaxThreshold)
            && (forall i :: 0 <= i < count ==>
                  timelines[i] == TimelineAt(m0 + i, frameInterval, timestamp, preferredEpt, preferredDeadline, token))
            && preferredIndex == (if m0 <= 0 < m0 + count then Wrappers.Some(-m0) else Wrappers.None)
    ensures forall i :: count <= i < kFrameTimelinesCapacity ==> timelines[i] == old(timelines[i])
  {
    ghost var m0 := FirstTimelineMultiplier(preferredDeadline, frameInterval, timestamp);
    count, preferredIndex := 0, Wrappers.None;
    var multiplier: int := 1 - kFrameTimelinesCapacity;
    while count < kFrameTimelinesCapacity
      invariant count <= kFrameTimelinesCapacity
      invariant count == 0 ==> 1 - kFrameTimelinesCapacity <= multiplier <= m0
      invariant count > 0 ==> multiplier == m0 + count
      invariant count > 0 ==> Multiple(m0, frameInterval) < kEarlyLatchMaxThreshold
      invariant count > 0 ==> Multiple(m0 + count - 1, frameInterval) < kEarlyLatchMaxThreshold
      invariant forall i :: 0 <= i < count ==>
                  timelines[i] == TimelineAt(m0 + i, frameInterval, timestamp, preferredEpt, preferredDeadline, token)
      invariant forall i :: count <= i < kFrameTimelinesCapacity ==> timelines[i] == old(timelines[i])
      invariant preferredIndex == (if m0 <= 0 < m0 + count then Wrappers.Some(-m0) else Wrappers.None)
      decreases kFrameTimelinesCapacity - count, if count == 0 then m0 - multiplier else 0
    {
      MultipleIsProduct(multiplier, frameInterval);
      FutureIff(preferredDeadline, frameInterval, timestamp, multiplier);
      var deadline := preferredDeadline + multiplier * frameInterval;
      if deadline > timestamp {
        assert count == 0 ==> multiplier == m0;
        var ept := preferredEpt + multiplier * frameInterval;
        if ept >= preferredEpt + kEarlyLatchMaxThreshold {
          break;
        }
        if multiplier == 0 {
          preferredIndex := Wrappers.Some(count);
        }
        ghost var entry := TimelineAt(m0 + count, frameInterval, timestamp, preferredEpt, preferredDeadline, token);
        assert FrameTimeline(token(timestamp, deadline, ept), deadline, ept) == entry;
        timelines[count] := FrameTimeline(token(timestamp, deadline, ept), deadline, ept);
        count := count + 1;
      }
      multiplier := multiplier + 1;
    }
  }

  /**
   * generateFrameTimeline: fills `data`'s timelines as FillFrameTimelines does; if none
   * qualifies, the preferred timeline itself is the single entry. `token` is the token manager
   * (or the constant invalid id when there is none). NormalTimelines states what the entries
   * satisfy.
   */
  method GenerateFrameTimeline(data: VsyncEventData, frameInterval: int, timestamp: int,
                               preferredEpt: int, preferredDeadline: int, token: (int, int, int) -> int)
    requires data.frameTimelines.Length == kFrameTimelinesCapacity && frameInterval > 0
    modifies data, data.frameTimelines
    ensures data.frameInterval == old(data.frameInterval)
    ensures 1 <= data.frameTimelinesLength <= kFrameTimelinesCapacity
    ensures forall i :: data.frameTimelinesLength <= i < kFrameTimelinesCapacity ==>
              data.frameTimelines[i] == old(data.frameTimelines[i])
    ensures var m0 := FirstTimelineMultiplier(preferredDeadline, frameInterval, timestamp);
            Multiple(m0, frameInterval) >= kEarlyLatchMaxThreshold ==>
              data.frameTimelinesLength == 1
              && data.frameTimelines[0] == FrameTimeline(token(timestamp, preferredDeadline, preferredEpt), preferredDeadline, preferredEpt)
              && data.preferredFrameTimelineIndex == old(data.preferredFrameTimelineIndex)
    ensures var m0 := FirstTimelineMultiplier(preferredDeadline, frameInterval, timestamp);
            var len := data.frameTimelinesLength;
            Multiple(m0, frameInterval) < kEarlyLatchMaxThreshold ==>
              (forall i :: 0 <= i < len ==>
                 data.frameTimelines[i] == TimelineAt(m0 + i, frameInterval, timestamp, preferredEpt, preferredDeadline, token))
              && Multiple(m0 + len - 1, frameInterval) < kEarlyLatchMaxThreshold
              && (len == kFrameTimelinesCapacity || Multiple(m0 + len, frameInterval) >= kEarlyLatchMaxThreshold)
              && data.preferredFrameTimelineIndex == (if m0 <= 0 < m0 + len then -m0 else old(data.preferredFrameTimelineIndex))
  {
    var count, preferredIndex := FillFrameTimelines(data.frameTimelines, frameInterval, timestamp,
                                                    preferredEpt, preferredDeadline, token);
    if preferredIndex.Some? {
      data.preferredFrameTimelineIndex := preferredIndex.value;
    }
    if count == 0 {
      data.frameTimelines[0] := FrameTimeline(token(timestamp, preferredDeadline, preferredEpt), preferredDeadline, preferredEpt);
      count := 1;
    }
    data.frameTimelinesLength := count;
  }
}
