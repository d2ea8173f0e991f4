/**
 * SurfaceFlinger's main-thread message queue: the frame handler that coalesces vsync-driven
 * frame dispatches into at most one pending frame message, and the vsync bookkeeping that
 * schedules the next wake-up through the vsync dispatch.
 *
 * The looper is a list of the messages sent to it; it does not deliver them, so delivering a
 * frame message is the caller invoking HandleMessage. The vsync dispatch's schedule and update
 * results, a registration's cancel result, the frame-timeline token manager and the clock are
 * oracles: they are parameters of the operations that consult them.
 */
module MessageQueues {
  import opened Wrappers

  /** What a schedule or update asks of the vsync dispatch, in nanoseconds. */
  datatype ScheduleTiming = ScheduleTiming(workDuration: int, readyDuration: int, earliestVsync: int)

  /** scheduler::CancelResult */
  datatype CancelResult = Cancelled | TooLate | Error

  /** The predictions a vsync id is generated for. */
  datatype TimelineItem = TimelineItem(startTime: int, endTime: int, presentTime: int)

  /** A message on the looper: the frame handler's, a configure task, or another posted handler. */
  datatype LooperMessage = FrameMessage | ConfigureMessage | Posted(handler: nat) | PostedDelayed(handler: nat, uptimeDelay: int)

  /** The frame the compositor is signalled with. */
  datatype FrameSignal = FrameSignal(vsyncId: int, expectedVsyncTime: int)

  // ---------------------------------------------------------------------------------------------
  // The frame handler's protocol, on values

  /** The frame handler's state: whether a frame message is pending, and the frame it is for. */
  datatype HandlerState = HandlerState(framePending: bool, vsyncId: int, expectedVsyncTime: int)

  /** What can happen to the frame handler: a dispatch, an immediate dispatch, or the frame message arriving. */
  datatype HandlerEvent = Dispatch(vsyncId: int, expectedVsyncTime: int) | DispatchImmed | Handle

  /** The handler's state after an event. */
  function Step(s: HandlerState, e: HandlerEvent): HandlerState
  {
    match e
    case Dispatch(id, time) => if s.framePending then s else HandlerState(true, id, time)
    case DispatchImmed => s.(framePending := true)
    case Handle => s.(framePending := false)
  }

  /** Whether the event sends a frame message to the looper: only a dispatch while nothing is pending. */
  predicate Posts(s: HandlerState, e: HandlerEvent)
  {
    !e.Handle? && !s.framePending
  }

  /** The state after a run of events. */
  function Run(s: HandlerState, events: seq<HandlerEvent>): HandlerState
    decreases |events|
  {
    if events == [] then s else Run(Step(s, events[0]), events[1..])
  }

  /** How many frame messages a run sends. */
  function PostCount(s: HandlerState, events: seq<HandlerEvent>): nat
    decreases |events|
  {
    if events == [] then 0 else (if Posts(s, events[0]) then 1 else 0) + PostCount(Step(s, events[0]), events[1..])
  }

  /** How many frame messages a run delivers. */
  function HandleCount(events: seq<HandlerEvent>): nat
  {
    if events == [] then 0 else (if events[0].Handle? then 1 else 0) + HandleCount(events[1..])
  }

  /** A run in which the looper delivers a frame message only while one is pending. */
  predicate Delivered(s: HandlerState, events: seq<HandlerEvent>)
    decreases |events|
  {
    events == [] || ((events[0].Handle? ==> s.framePending) && Delivered(Step(s, events[0]), events[1..]))
  }

  function Outstanding(s: HandlerState): nat { if s.framePending then 1 else 0 }

  /**
   * Dispatches coalesce: over any run the looper delivers faithfully, the frame messages sent
   * equal those delivered plus the change in the pending flag, so at most one frame message is
   * ever outstanding, and it is outstanding exactly while a frame is pending.
   */
  lemma {:induction false} FramesCoalesce(s: HandlerState, events: seq<HandlerEvent>)
    requires Delivered(s, events)
    ensures PostCount(s, events) + Outstanding(s) == HandleCount(events) + Outstanding(Run(s, events))
    decreases |events|
  {
    if events != [] {
      FramesCoalesce(Step(s, events[0]), events[1..]);
    }
  }

  /** While a frame is pending, dispatches change nothing: the frame recorded is the first one. */
  lemma {:induction false} PendingFrameKept(s: HandlerState, events: seq<HandlerEvent>)
    requires s.framePending
    requires forall i :: 0 <= i < |events| ==> events[i].Dispatch?
    ensures Run(s, events) == s && PostCount(s, events) == 0
    decreases |events|
  {
    if events != [] {
      PendingFrameKept(Step(s, events[0]), events[1..]);
    }
  }

  // ---------------------------------------------------------------------------------------------
  // The looper, the handler and the queue

  class Looper {
    var messages: seq<LooperMessage>

    constructor ()
      ensures messages == []
    {
      messages := [];
    }

    method SendMessage(m: LooperMessage)
      modifies this
      ensures messages == old(messages) + [m]
    {
      messages := messages + [m];
    }
  }

  class Handler {
    const looper: Looper
    var framePending: bool
    var vsyncId: int
    var expectedVsyncTime: int

    function State(): HandlerState
      reads this
    {
      HandlerState(framePending, vsyncId, expectedVsyncTime)
    }

    constructor (looper: Looper)
      ensures this.looper == looper && !framePending
    {
      this.looper := looper;
      framePending := false;
      vsyncId := 0;
      expectedVsyncTime := 0;
    }

    /** dispatchFrame: records the frame and sends a frame message, unless one is pending already. */
    method DispatchFrame(vsyncId: int, expectedVsyncTime: int)
      modifies this, looper
      ensures State() == Step(old(State()), Dispatch(vsyncId, expectedVsyncTime))
      ensures looper.messages ==
                old(looper.messages) + (if Posts(old(State()), Dispatch(vsyncId, expectedVsyncTime)) then [FrameMessage] else [])
    {
      var wasPending := framePending;
      framePending := true;
      if !wasPending {
        this.vsyncId := vsyncId;
        this.expectedVsyncTime := expectedVsyncTime;
        looper.SendMessage(FrameMessage);
      }
    }

    /** qtiDispatchFrameImmed: sends a frame message unless one is pending, keeping the recorded frame. */
    method DispatchFrameImmed()
      modifies this, looper
      ensures State() == Step(old(State()), DispatchImmed)
      ensures looper.messages == old(looper.messages) + (if Posts(old(State()), DispatchImmed) then [FrameMessage] else [])
    {
      var wasPending := framePending;
      framePending := true;
      if !wasPending {
        looper.SendMessage(FrameMessage);
      }
    }

    /** handleMessage: clears the pending flag and signals the compositor with the recorded frame. */
    method HandleMessage() returns (signal: FrameSignal)
      modifies this
      ensures State() == Step(old(State()), Handle)
      ensures signal == FrameSignal(old(vsyncId), old(expectedVsyncTime))
    {
      framePending := false;
      signal := FrameSignal(vsyncId, expectedVsyncTime);
    }
  }

  class MessageQueue {
    const looper: Looper
    const handler: Handler
    /** The VSYNC-sf trace value, toggled on every vsync. */
    var vsyncValue: nat
    var lastCallbackTime: int
    var scheduledFrameTime: Option<int>
    var workDuration: int
    /** The vsync callback registration, named by the dispatch it was made with. */
    var registration: Option<nat>
    var hasTokenManager: bool

    ghost predicate Valid()
      reads this, handler
    {
      handler.looper == looper && vsyncValue < 2
    }

    constructor ()
      ensures Valid() && fresh(looper) && fresh(handler)
      ensures looper.messages == [] && !handler.framePending
      ensures lastCallbackTime == 0 && scheduledFrameTime.None? && registration.None? && !hasTokenManager
    {
      var l := new Looper();
      looper := l;
      handler := new Handler(l);
      vsyncValue := 0;
      lastCallbackTime := 0;
      scheduledFrameTime := None;
      workDuration := 0;
      registration := None;
      hasTokenManager := false;
    }

    /**
     * getScheduledFrameTime: now while a frame is pending, otherwise the wake-up the dispatch
     * last reported, if any.
     */
    function GetScheduledFrameTime(now: int): (r: Option<int>)
      reads this, handler
      ensures handler.framePending ==> r == Some(now)
      ensures !handler.framePending ==> r == scheduledFrameTime
    {
      if handler.framePending then Some(now) else scheduledFrameTime
    }

    /**
     * vsyncCallback: toggles the trace value, records the vsync time as the last callback time,
     * forgets the scheduled wake-up, and dispatches the frame under the vsync id generated for
     * the predictions (wake-up, ready, vsync). The token manager must be set.
     */
    method VsyncCallback(vsyncTime: int, targetWakeupTime: int, readyTime: int, tokenFor: TimelineItem -> int)
      requires Valid() && hasTokenManager
      modifies this, handler, looper
      ensures Valid()
      ensures vsyncValue == 1 - old(vsyncValue)
      ensures lastCallbackTime == vsyncTime && scheduledFrameTime.None?
      ensures workDuration == old(workDuration) && registration == old(registration) && hasTokenManager
      ensures var id := tokenFor(TimelineItem(targetWakeupTime, readyTime, vsyncTime));
              handler.State() == Step(old(handler.State()), Dispatch(id, vsyncTime))
              && looper.messages ==
                   old(looper.messages) + (if Posts(old(handler.State()), Dispatch(id, vsyncTime)) then [FrameMessage] else [])
      ensures forall now :: GetScheduledFrameTime(now) == Some(now)
    {
      vsyncValue := (vsyncValue + 1) % 2;
      lastCallbackTime := vsyncTime;
      scheduledFrameTime := None;
      var vsyncId := tokenFor(TimelineItem(targetWakeupTime, readyTime, vsyncTime));
      handler.DispatchFrame(vsyncId, vsyncTime);
    }

    /**
     * onNewVsyncScheduleLocked: registers with the new dispatch and returns the old registration.
     * The wake-up is scheduled again, with the new registration, only when there was an old
     * registration and cancelling it succeeded.
     */
    method OnNewVsyncScheduleLocked(dispatch: nat, cancel: CancelResult, schedule: ScheduleTiming -> Option<int>)
      returns (oldRegistration: Option<nat>)
      modifies this`registration, this`scheduledFrameTime
      ensures oldRegistration == old(registration) && registration == Some(dispatch)
      ensures old(registration).Some? && cancel == Cancelled ==>
                scheduledFrameTime == schedule(ScheduleTiming(workDuration, 0, lastCallbackTime))
      ensures !(old(registration).Some? && cancel == Cancelled) ==> scheduledFrameTime == old(scheduledFrameTime)
    {
      var reschedule := registration.Some? && cancel == Cancelled;
      oldRegistration := registration;
      registration := Some(dispatch);
      if reschedule {
        scheduledFrameTime := schedule(ScheduleTiming(workDuration, 0, lastCallbackTime));
      }
    }

    /** onNewVsyncSchedule: the same, the old registration being dropped afterwards. */
    method OnNewVsyncSchedule(dispatch: nat, cancel: CancelResult, schedule: ScheduleTiming -> Option<int>)
      modifies this`registration, this`scheduledFrameTime
      ensures registration == Some(dispatch)
      ensures old(registration).Some? && cancel == Cancelled ==>
                scheduledFrameTime == schedule(ScheduleTiming(workDuration, 0, lastCallbackTime))
      ensures !(old(registration).Some? && cancel == Cancelled) ==> scheduledFrameTime == old(scheduledFrameTime)
    {
      var _ := OnNewVsyncScheduleLocked(dispatch, cancel, schedule);
    }

    /** initVsync: sets the work duration and the token manager, then registers with the dispatch. */
    method InitVsync(dispatch: nat, workDuration: int, cancel: CancelResult, schedule: ScheduleTiming -> Option<int>)
      modifies this`workDuration, this`hasTokenManager, this`registration, this`scheduledFrameTime
      ensures this.workDuration == workDuration && hasTokenManager && registration == Some(dispatch)
      ensures old(registration).Some? && cancel == Cancelled ==>
                scheduledFrameTime == schedule(ScheduleTiming(workDuration, 0, lastCallbackTime))
      ensures !(old(registration).Some? && cancel == Cancelled) ==> scheduledFrameTime == old(scheduledFrameTime)
    {
      this.workDuration := workDuration;
      hasTokenManager := true;
      var _ := OnNewVsyncScheduleLocked(dispatch, cancel, schedule);
    }

    /** destroyVsync: drops the token manager and the registration. */
    method DestroyVsync()
      modifies this`hasTokenManager, this`registration
      ensures !hasTokenManager && registration.None?
    {
      hasTokenManager := false;
      registration := None;
    }

    /**
     * setDuration: sets the work duration and updates the registration with it, keeping the
     * wake-up the dispatch reports. The registration must exist.
     */
    method SetDuration(workDuration: int, update: ScheduleTiming -> Option<int>)
      requires registration.Some?
      modifies this`workDuration, this`scheduledFrameTime
      ensures this.workDuration == workDuration
      ensures scheduledFrameTime == update(ScheduleTiming(workDuration, 0, lastCallbackTime))
    {
      this.workDuration := workDuration;
      scheduledFrameTime := update(ScheduleTiming(this.workDuration, 0, lastCallbackTime));
    }

    /**
     * scheduleFrame: asks the dispatch for a wake-up a work duration ahead, ready at once, no
     * earlier than the last vsync, and keeps the time it reports. The registration must exist.
     */
    method ScheduleFrame(schedule: ScheduleTiming -> Option<int>)
      requires registration.Some?
      modifies this`scheduledFrameTime
      ensures scheduledFrameTime == schedule(ScheduleTiming(workDuration, 0, lastCallbackTime))
    {
      scheduledFrameTime := schedule(ScheduleTiming(workDuration, 0, lastCallbackTime));
    }

    /** qtiScheduleFrameImmed: an immediate frame dispatch through the handler. */
    method ScheduleFrameImmed()
      requires Valid()
      modifies handler, looper
      ensures handler.State() == Step(old(handler.State()), DispatchImmed)
      ensures looper.messages == old(looper.messages) + (if Posts(old(handler.State()), DispatchImmed) then [FrameMessage] else [])
    {
      handler.DispatchFrameImmed();
    }

    /** postMessage */
    method PostMessage(h: nat)
      modifies looper
      ensures looper.messages == old(looper.messages) + [Posted(h)]
    {
      looper.SendMessage(Posted(h));
    }

    /** postMessageDelayed */
    method PostMessageDelayed(h: nat, uptimeDelay: int)
      modifies looper
      ensures looper.messages == old(looper.messages) + [PostedDelayed(h, uptimeDelay)]
    {
      looper.SendMessage(PostedDelayed(h, uptimeDelay));
    }

    /** scheduleConfigure: posts a task that has the compositor configure. */
    method ScheduleConfigure()
      modifies looper
      ensures looper.messages == old(looper.messages) + [ConfigureMessage]
    {
      looper.SendMessage(ConfigureMessage);
    }
  }
}
