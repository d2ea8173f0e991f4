# SurfaceFlinger core and its QTI extensions, modelled in Dafny

This project models part of Android's display compositor, SurfaceFlinger, together with the
input library's fixed-capacity ring buffer. The modelled parts are:

- **Ring buffer** (`ring_buffer.dfy`). `android::RingBuffer<T>` is a circular buffer over an
  array. Pushing onto a full buffer overwrites the element at the other end. The class keeps
  the array, the first slot and the size. Each method is proved against the ghost sequence
  `Contents`.
- **Event thread** (`event_thread.dfy`). This covers:
  - the display-event connections and their vsync requests (none, single, single without
    callback, every n-th vsync);
  - the thread's event queue and its hotplug bookkeeping;
  - which connections consume an event;
  - how an event is posted to a connection's channel, with its retries;
  - the schedule, update and cancel calls the thread makes on its vsync registration;
  - the frame timelines a vsync event carries, filled in place in an array.
- **Requested layer state** (`requested_layer_state.dfy`). This is the front end's record of a
  layer as clients asked for it:
  - creation from the layer arguments;
  - buffer size, cropping and composition type;
  - the merge of a transaction into the layer, with the changes that merge records, the
    buffer barrier and the parent links.
- **Message queue** (`message_queue.dfy`). This is the compositor's frame scheduling:
  - the frame handler, which coalesces frame messages;
  - the vsync callback;
  - the schedule, update and cancel calls made to the vsync dispatch;
  - the messages posted to the looper.
- **Frame targeter** (`frame_targeter.dfy`). These are the read-only metrics of the frame
  target: frame duration, the previous frame's vsync, missed frames, and running vsyncs ahead.
- **SurfaceFlinger helpers** (`surface_flinger.dfy`). These are the transaction flags, the
  pending-buffer tracker, state assignment, active-mode comparison, and the lookups of display
  devices, tokens and ids.
- **QTI extensions**:
  - the AIDL command writer, which batches per-display and per-layer commands;
  - the output extension, which answers the secure and protected content questions;
  - the virtual-display-surface extension, which rewrites gralloc usage;
  - the HWComposer extension, which routes HAL calls and caches the layer type;
  - the work-durations extension, which rewrites the vsync configuration cache;
  - the feature manager, whose flags are read from system properties and whose display-config
    services are globals shared by every instance.

Each file takes the form of its source:
- **Objects whose methods update fields** are classes. Their methods have `modifies` clauses
  and `ensures` clauses that give the whole new state.
- **Loops** are methods with invariants. Each is proved against a specification function.
- **Pure decisions** are functions and lemmas.

The system's collaborators are not modelled. This covers the HAL's answers, the vsync
dispatch's schedule results, the channel's send results, throttling, the token manager and the
system property store. Each becomes a parameter of the operation that consults it.

C++ integer behaviour is written out where it matters:
- int32 wrap of the pending-buffer counter and uint32 wrap of the vsync count;
- uint32 truncation of HWC display ids and slots;
- truncating `%` on int64 in the work-duration offsets.

## Model

| member | source | states |
|---|---|---|
| RingBuffers.Next | include/input/RingBuffer.h:261-267 | The slot after an index stays in range and is the index plus one, modulo the capacity. |
| RingBuffers.Previous | include/input/RingBuffer.h:270-276 | The slot before an index stays in range, and the next slot after it is the index again. |
| RingBuffers.NextPreviousInverse | include/input/RingBuffer.h:261-276 | Next and Previous undo each other on every slot. |
| RingBuffers.BufferIndex | include/input/RingBuffer.h:279-290 | The array slot of the i-th element is the first slot plus i, modulo the capacity, and lies in the array. |
| RingBuffers.RingBuffer.constructor | include/input/RingBuffer.h:54-55 | A new buffer with the given capacity holds no elements. |
| RingBuffers.RingBuffer.Filled | include/input/RingBuffer.h:58-63 | The filling constructor gives a full buffer of `count` copies of the value, whose capacity is `count`. |
| RingBuffers.RingBuffer.Copy | include/input/RingBuffer.h:65-69 | The copy has the other buffer's capacity and its elements in the same order. |
| RingBuffers.RingBuffer.Move | include/input/RingBuffer.h:71 | The new buffer takes over the other's array, capacity and elements; the other is left empty with capacity zero. |
| RingBuffers.RingBuffer.Empty | include/input/RingBuffer.h:167 | True exactly when the contents are empty. |
| RingBuffers.RingBuffer.Size | include/input/RingBuffer.h:169 | The number of elements, never more than the capacity. |
| RingBuffers.RingBuffer.Front | include/input/RingBuffer.h:106-107 | The first element of the contents. |
| RingBuffers.RingBuffer.Back | include/input/RingBuffer.h:108-109 | The last element of the contents. |
| RingBuffers.RingBuffer.At | include/input/RingBuffer.h:111-112 | The i-th element counted from the front. |
| RingBuffers.RingBuffer.Clear | include/input/RingBuffer.h:115-118 | Empties the contents and keeps the array and the capacity. |
| RingBuffers.RingBuffer.PopFront | include/input/RingBuffer.h:121-127 | Returns the first element and leaves the rest in order. |
| RingBuffers.RingBuffer.PopBack | include/input/RingBuffer.h:130-136 | Returns the last element and leaves the others in order. |
| RingBuffers.RingBuffer.PushFront | include/input/RingBuffer.h:139-150 | Prepends the element. A full buffer loses its last element. |
| RingBuffers.RingBuffer.PushBack | include/input/RingBuffer.h:153-165 | Appends the element. A full buffer loses its first element. |
| RingBuffers.RingBuffer.Swap | include/input/RingBuffer.h:171-177 | Exchanges the arrays, capacities, first slots, sizes and contents of the two buffers. |
| RingBuffers.RingBuffer.MoveAssign | include/input/RingBuffer.h:82-99 | Moving onto itself changes nothing. Otherwise the buffer takes over the other's array, capacity and elements, and the other is left empty with capacity zero. |
| RingBuffers.RingBuffer.CopyAssign | include/input/RingBuffer.h:80 | The buffer gets the other's capacity and elements, in order, in a fresh array. |
| EventThreads.RequestNextAsksForOne | services/surfaceflinger/Scheduler/EventThread.cpp:347-360 | requestNextVsync turns None and SingleSuppressCallback into Single; a periodic request is kept. |
| EventThreads.OneRequestOneVsync | services/surfaceflinger/Scheduler/EventThread.cpp:552-565 | After requestNextVsync, for a connection without a periodic rate, a run of vsyncs is consumed at most once. |
| EventThreads.SingleConsumedByFirstUnthrottled | services/surfaceflinger/Scheduler/EventThread.cpp:552-565 | A single request is consumed by the first unthrottled vsync, and by no other. |
| EventThreads.RateConsumesMultiples | services/surfaceflinger/Scheduler/EventThread.cpp:571-575 | With a rate above one, throttling is ignored, and exactly the vsync counts divisible by the rate are consumed. |
| EventThreads.ConsumptionByKind | services/surfaceflinger/Scheduler/EventThread.cpp:543-586 | Hotplug always passes. Mode changes and frame-rate overrides pass exactly when the connection registered for them. |
| EventThreads.HotplugTracksOneDisplay | services/surfaceflinger/Scheduler/EventThread.cpp:447-454 | A connect while no display is tracked starts tracking that display. A disconnect of another display changes nothing. |
| EventThreads.RemoveFirstAt | services/surfaceflinger/Scheduler/EventThread.cpp:325-331 | Erasing at the position std::find returns erases the first occurrence. |
| EventThreads.RemoveFirstAbsent | services/surfaceflinger/Scheduler/EventThread.cpp:325-331 | Erasing an absent connection leaves the list unchanged. |
| EventThreads.RemovalOfPresent | services/surfaceflinger/Scheduler/EventThread.cpp:325-331 | On a list without duplicates, erasing removes exactly that connection and keeps the rest in order. |
| EventThreads.EventThreadConnection.constructor | services/surfaceflinger/Scheduler/EventThread.cpp:164-172 | A new connection requests nothing, has sent nothing and holds its owner uid, its registrations and whether it has a resync callback. |
| EventThreads.EventThreadConnection.PostEvent | services/surfaceflinger/Scheduler/EventThread.cpp:215-235 | Override events are held back until a flush, which sends them as one batch. Other events go out alone. The status is the send status. |
| EventThreads.SendStatus | services/surfaceflinger/Scheduler/EventThread.cpp:216-218 | A negative send result is passed on as the error; any byte count is NO_ERROR. |
| EventThreads.ConsumersAreTheConsuming | services/surfaceflinger/Scheduler/EventThread.cpp:459-473 | The consumers collected are exactly the live listed connections that consume the event. |
| EventThreads.SurvivorsAreTheLive | services/surfaceflinger/Scheduler/EventThread.cpp:459-471 | The connections kept are exactly the live ones, in order, still without duplicates. |
| EventThreads.EventThread.constructor | services/surfaceflinger/Scheduler/EventThread.cpp:243-257 | A new thread is idle, with no connections, no queued events, no tracked display and no registration calls. It keeps the given work and ready durations. |
| EventThreads.EventThread.Find | services/surfaceflinger/Scheduler/EventThread.cpp:312-313 | Returns the first position holding the connection, or the list length when it is absent. |
| EventThreads.EventThread.SetDuration | services/surfaceflinger/Scheduler/EventThread.cpp:290-298 | Takes the new work and ready durations and updates the registration with them and the last vsync time. |
| EventThreads.EventThread.RegisterDisplayEventConnection | services/surfaceflinger/Scheduler/EventThread.cpp:308-323 | Appends a new connection. One already registered is refused with ALREADY_EXISTS and the list is unchanged. |
| EventThreads.EventThread.RemoveDisplayEventConnection | services/surfaceflinger/Scheduler/EventThread.cpp:325-331 | Erases the connection if it is present, keeping the others in order. |
| EventThreads.EventThread.SetVsyncRate | services/surfaceflinger/Scheduler/EventThread.cpp:333-345 | A rate that is negative as an int32 is ignored. Otherwise the request becomes none for 0 and every rate-th vsync otherwise. |
| EventThreads.EventThread.RequestNextVsync | services/surfaceflinger/Scheduler/EventThread.cpp:347-360 | The resync callback, if the connection has one, is invoked once. The request becomes the one RequestNext gives. |
| EventThreads.EventThread.ShouldConsumeEvent | services/surfaceflinger/Scheduler/EventThread.cpp:528-587 | Decides consumption as Consumes does and moves the request as RequestAfter does. |
| EventThreads.EventThread.OnHotplugReceived | services/surfaceflinger/Scheduler/EventThread.cpp:405-410 | Queues one hotplug event with the display, the connection state and the time; nothing else changes. |
| EventThreads.EventThread.OnVsync | services/surfaceflinger/Scheduler/EventThread.cpp:394-403 | Queues one vsync event and records the callback time. The display's count goes up by one, wrapping at 2^32; nothing else changes. |
| EventThreads.EventThread.OnFrameRateOverridesChanged | services/surfaceflinger/Scheduler/EventThread.cpp:419-429 | Queues one override event per entry, in order, then exactly one flush; nothing else changes. |
| EventThreads.EventThread.OfferToConnections | services/surfaceflinger/Scheduler/EventThread.cpp:457-473 | Dead connections are erased and the live ones keep their order. The consumers are exactly Consumers of the requests held before, among the live connections. Each live connection's request moves as RequestAfter says; the result reports whether any live one still wants vsync. |
| EventThreads.EventThread.TakeNextEvent | services/surfaceflinger/Scheduler/EventThread.cpp:442-455 | Dequeues the oldest event and applies its hotplug effect to the tracked display. |
| EventThreads.EventThread.UpdateThreadState | services/surfaceflinger/Scheduler/EventThread.cpp:480-495 | The thread vsyncs only while a display is tracked and a vsync is wanted. A real vsync wait schedules the registration with the durations and the last vsync time; every other state cancels it. |
| EventThreads.EventThread.DispatchToConsumer | services/surfaceflinger/Scheduler/EventThread.cpp:655-694 | Posts the event, retrying while the channel answers EAGAIN, up to three attempts. Any other error erases the consumer from the list. An ordinary event is sent once per attempt; an override is held back once; a flush first sends the held overrides with it, and each retry sends it alone. |
| EventThreads.VsyncEventData.constructor | services/surfaceflinger/Scheduler/EventThread.cpp:604-605 | The frame timelines array has the fixed capacity of seven entries, and none is filled yet. |
| EventThreads.MultipleIsProduct | services/surfaceflinger/Scheduler/EventThread.cpp:604-610 | The repeated addition used for timeline offsets equals the multiplier times the frame interval. |
| EventThreads.MultipleMonotone | services/surfaceflinger/Scheduler/EventThread.cpp:604-610 | With a positive interval, a larger multiplier reaches further. |
| EventThreads.FirstFutureMultiplier | services/surfaceflinger/Scheduler/EventThread.cpp:604-610 | The smallest multiplier whose deadline lies after the timestamp. |
| EventThreads.FutureIff | services/surfaceflinger/Scheduler/EventThread.cpp:604-610 | A multiplier gives a future deadline exactly when it is at least the first future one. |
| EventThreads.NormalTimelines | services/surfaceflinger/Scheduler/EventThread.cpp:604-637 | Every timeline the generator keeps has a future deadline and presents within the early-latch threshold. Consecutive ones are one frame interval apart. |
| EventThreads.FillFrameTimelines | services/surfaceflinger/Scheduler/EventThread.cpp:602-637 | Fills the array with the timelines TimelineAt gives, starting at the first future multiplier. Returns how many were filled. |
| EventThreads.GenerateFrameTimeline | services/surfaceflinger/Scheduler/EventThread.cpp:598-653 | Fills between one and seven timelines as FillFrameTimelines specifies, falling back to the preferred timeline alone. The entries past the length are untouched. |
| LayerStates.IntersectIsOverlap | services/surfaceflinger/FrontEnd/RequestedLayerState.cpp:415-423 | A point lies in the intersection of two rectangles exactly when it lies in both. |
| LayerStates.IntersectAlgebra | services/surfaceflinger/FrontEnd/RequestedLayerState.cpp:415-423 | Rectangle intersection is commutative and idempotent. |
| LayerStates.IntersectWithin | services/surfaceflinger/FrontEnd/RequestedLayerState.cpp:415-423 | A non-empty intersection lies within both rectangles. |
| LayerStates.CreationLayerFlags | services/surfaceflinger/FrontEnd/RequestedLayerState.cpp:73-79 | The hidden, secure and skip-screenshot flags are set exactly when the matching creation flags ask for them. |
| LayerStates.RequestedLayerState.constructor | services/surfaceflinger/FrontEnd/RequestedLayerState.cpp:48-79 | A new layer records its creation and takes the id, parents and flags of its arguments. Its crops are the invalid rectangle. It is a root exactly when added to the root without a parent, has no valid relative parent, and cannot be destroyed while its handle lives. |
| LayerStates.RequestedLayerState.GetBufferSize | services/surfaceflinger/FrontEnd/RequestedLayerState.cpp:391-413 | Without a buffer, the invalid rectangle. Otherwise the buffer size, with width and height swapped once for each of the buffer transform and the followed display rotation that has a 90-degree turn. |
| LayerStates.RequestedLayerState.GetCroppedBufferSize | services/surfaceflinger/FrontEnd/RequestedLayerState.cpp:415-423 | Without a crop, the buffer size. With a crop and a valid size, their intersection: it holds exactly the points in both. With a crop and an invalid size, the crop alone. |
| LayerStates.RequestedLayerState.GetBufferCrop | services/surfaceflinger/FrontEnd/RequestedLayerState.cpp:425-438 | The buffer crop if it is set, else the whole buffer, else the invalid rectangle. The result is empty exactly when neither gives an area. |
| LayerStates.RequestedLayerState.GetCompositionType | services/surfaceflinger/FrontEnd/RequestedLayerState.cpp:440-457 | Sideband for a sideband stream; otherwise solid colour without a buffer; otherwise display decoration when flagged so; otherwise cursor for a potential cursor; otherwise device. |
| LayerStates.RequestedLayerState.ClearChanges | services/surfaceflinger/FrontEnd/RequestedLayerState.cpp:509-512 | Empties the recorded state bits and changes; it may change nothing else. |
| LayerStates.RequestedLayerState.MergeBuffer | services/surfaceflinger/FrontEnd/RequestedLayerState.cpp:156-197 | The buffer state becomes BufferAfter. The result reports an out-of-order buffer. |
| LayerStates.RequestedLayerState.MergeHierarchy | services/surfaceflinger/FrontEnd/RequestedLayerState.cpp:241-267 | The parent links become HierarchyAfter, and the changes recorded are those HierarchyChanges gives. |
| LayerStates.RequestedLayerState.MergeFields | services/surfaceflinger/FrontEnd/RequestedLayerState.cpp:141-143 | The plain fields take the transaction's merged values. |
| LayerStates.RequestedLayerState.Merge | services/surfaceflinger/FrontEnd/RequestedLayerState.cpp:130-308 | Fields, buffer and hierarchy all become their after-merge values, and the changes recorded are MergeChanges. A merge never makes a layer a root, the layer can be destroyed exactly when its handle is gone and its resulting parent is none, and a layer change leaves no valid relative parent. |
| LayerStates.NextFrameNumber | services/surfaceflinger/FrontEnd/RequestedLayerState.cpp:176-181 | A client-chosen frame number is kept. Otherwise it is the previous buffer's number plus one, or 1 without one. |
| LayerStates.BarrierAdvances | services/surfaceflinger/FrontEnd/RequestedLayerState.cpp:183-195 | After a merge the barrier covers the buffer the layer holds. |
| LayerStates.ImplicitNextFrameInOrder | services/surfaceflinger/FrontEnd/RequestedLayerState.cpp:176-195 | A buffer numbered implicitly by the same producer is never reported out of order. |
| LayerStates.StaleBufferReported | services/surfaceflinger/FrontEnd/RequestedLayerState.cpp:183-192 | A buffer from an older producer, or an older frame of the newest producer, is reported. |
| LayerStates.DetachKeepsBarrier | services/surfaceflinger/FrontEnd/RequestedLayerState.cpp:156-197 | Dropping the buffer keeps the barrier and leaves no buffer attached. |
| LayerStates.ReparentLeavesRoot | services/surfaceflinger/FrontEnd/RequestedLayerState.cpp:241-249 | Any reparent makes the layer a non-root, takes the new parent and records a Parent change. Without a reparent the parent is kept, and nothing makes a layer root-eligible. |
| LayerStates.RelativeParentValidity | services/surfaceflinger/FrontEnd/RequestedLayerState.cpp:250-263 | After a merge the relative parent is valid exactly when a relative link is set or kept, the transaction does not drop it, and the relative parent is none or not the layer's parent. |
| LayerStates.ImplicitFrameNumber | services/surfaceflinger/FrontEnd/RequestedLayerState.cpp:176-181 | An attached buffer numbered implicitly is one past the previous buffer's frame, or frame 1 without one. |
| LayerStates.RelativeLinkRecorded | services/surfaceflinger/FrontEnd/RequestedLayerState.cpp:250-263 | Setting a relative layer records a RelativeParent change. |
| LayerStates.ReparentOntoRelativeRecorded | services/surfaceflinger/FrontEnd/RequestedLayerState.cpp:264-267 | Reparenting onto the relative parent records a RelativeParent change. |
| LayerStates.HiddenToggleRecorded | services/surfaceflinger/FrontEnd/RequestedLayerState.cpp:146-150 | Hiding or showing a layer through its flags records a visibility change. |
| LayerStates.BufferToggleRecorded | services/surfaceflinger/FrontEnd/RequestedLayerState.cpp:156-174 | Attaching the first buffer, or dropping the last one, records Buffer plus geometry, visible-region, visibility and input changes. A new buffer of another size records Buffer, BufferSize and Geometry. |
| LayerStates.MergeNeverRecordsCreation | services/surfaceflinger/FrontEnd/RequestedLayerState.cpp:130-308 | A merge never records Created or Mirror. Those are recorded only when a layer is made. |
| LayerStates.EmptyTransactionRecordsNothing | services/surfaceflinger/FrontEnd/RequestedLayerState.cpp:130-308 | A transaction that sets nothing, on a layer with no pending state bits, records nothing. |
| MessageQueues.FramesCoalesce | services/surfaceflinger/Scheduler/MessageQueue.cpp:39-45 | Over any run of dispatches and deliveries, messages sent plus one pending before equal messages handled plus one pending after. |
| MessageQueues.PendingFrameKept | services/surfaceflinger/Scheduler/MessageQueue.cpp:51-54 | While a frame is pending, dispatches send nothing and keep the frame first recorded. |
| MessageQueues.Looper.constructor | services/surfaceflinger/Scheduler/MessageQueue.cpp:64-72 | A new looper holds no messages. |
| MessageQueues.Looper.SendMessage | services/surfaceflinger/Scheduler/MessageQueue.cpp:185-187 | Appends the message to the looper's queue. |
| MessageQueues.Handler.constructor | services/surfaceflinger/Scheduler/MessageQueue.cpp:64-72 | A new frame handler has no frame pending. |
| MessageQueues.Handler.DispatchFrame | services/surfaceflinger/Scheduler/MessageQueue.cpp:39-45 | Records the frame and sends one frame message, unless one is pending already. |
| MessageQueues.Handler.DispatchFrameImmed | services/surfaceflinger/Scheduler/MessageQueue.cpp:57-61 | Sends a frame message unless one is pending, keeping the recorded frame. |
| MessageQueues.Handler.HandleMessage | services/surfaceflinger/Scheduler/MessageQueue.cpp:51-54 | Clears the pending flag and signals the compositor with the recorded frame. |
| MessageQueues.MessageQueue.constructor | services/surfaceflinger/Scheduler/MessageQueue.cpp:64-72 | A new queue has an empty looper, an idle handler, no registration and no token manager. |
| MessageQueues.MessageQueue.GetScheduledFrameTime | services/surfaceflinger/Scheduler/MessageQueue.cpp:216-227 | Now while a frame is pending, otherwise the scheduled wakeup if there is one. |
| MessageQueues.MessageQueue.VsyncCallback | services/surfaceflinger/Scheduler/MessageQueue.cpp:74-90 | Toggles the trace value, records the vsync time, clears the schedule, and dispatches the frame with the token generated for its timeline. |
| MessageQueues.MessageQueue.OnNewVsyncScheduleLocked | services/surfaceflinger/Scheduler/MessageQueue.cpp:126-145 | Re-registers with the new dispatch. A wakeup the old one cancelled is rescheduled on the new one. |
| MessageQueues.MessageQueue.OnNewVsyncSchedule | services/surfaceflinger/Scheduler/MessageQueue.cpp:109-124 | Same as OnNewVsyncScheduleLocked, and the old registration is then dropped. |
| MessageQueues.MessageQueue.InitVsync | services/surfaceflinger/Scheduler/MessageQueue.cpp:92-107 | Sets the work duration and the token manager, then registers with the dispatch. |
| MessageQueues.MessageQueue.DestroyVsync | services/surfaceflinger/Scheduler/MessageQueue.cpp:147-151 | Drops the token manager and the registration. |
| MessageQueues.MessageQueue.SetDuration | services/surfaceflinger/Scheduler/MessageQueue.cpp:153-161 | Records the duration and asks the dispatch to update the wakeup from the last vsync time. |
| MessageQueues.MessageQueue.ScheduleFrame | services/surfaceflinger/Scheduler/MessageQueue.cpp:206-214 | Schedules a wakeup with the work duration from the last vsync time. |
| MessageQueues.MessageQueue.ScheduleFrameImmed | services/surfaceflinger/Scheduler/MessageQueue.cpp:230-233 | Dispatches a frame at once through the handler. |
| MessageQueues.MessageQueue.PostMessage | services/surfaceflinger/Scheduler/MessageQueue.cpp:185-187 | Appends the handler to the looper's queue. |
| MessageQueues.MessageQueue.PostMessageDelayed | services/surfaceflinger/Scheduler/MessageQueue.cpp:189-191 | Appends the handler with its delay. |
| MessageQueues.MessageQueue.ScheduleConfigure | services/surfaceflinger/Scheduler/MessageQueue.cpp:193-204 | Appends a task that has the compositor configure. |
| FrameTargets.Initial | services/surfaceflinger/Scheduler/include/scheduler/FrameTargeter.h:65-93 | Before any frame nothing is pending or missed, both present fences are the no-fence placeholder, and so is the previous frame's present fence. |
| FrameTargets.MissedHwcFrame | services/surfaceflinger/Scheduler/include/scheduler/FrameTargeter.h:75 | A missed GPU frame is never a missed HWC frame. Otherwise the HWC flag decides. |
| FrameTargets.AheadIffPreviousVsyncAfterBegin | services/surfaceflinger/Scheduler/include/scheduler/FrameTargeter.h:45-55 | With the expected duration measured from the actual begin, targeting two vsyncs ahead holds exactly when the previous frame's vsync lies after the frame began. |
| FrameTargets.AheadIsMonotone | services/surfaceflinger/Scheduler/include/scheduler/FrameTargeter.h:96-100 | Targeting n+1 vsyncs ahead implies targeting n ahead, for a non-negative period. |
| SurfaceFlingers.TransactionMaskIsTheFlags | services/surfaceflinger/SurfaceFlinger.h:125-132 | The mask is the union of the five transaction flags, each a distinct single bit. |
| SurfaceFlingers.PendingBufferCounter.constructor | services/surfaceflinger/SurfaceFlinger.h:441 | A counter starts at the given value. |
| SurfaceFlingers.Int32Increment | services/surfaceflinger/SurfaceFlinger.h:435 | An int32 increment stays in range, is congruent to one more modulo 2^32, and is exact below the maximum. |
| SurfaceFlingers.BufferCountTracker.constructor | services/surfaceflinger/SurfaceFlinger.h:427-454 | A new tracker knows no handles. |
| SurfaceFlingers.BufferCountTracker.Increment | services/surfaceflinger/SurfaceFlinger.h:429-439 | The counter of a known handle is incremented with int32 wrap. An unknown handle changes nothing. |
| SurfaceFlingers.BufferCountTracker.Add | services/surfaceflinger/SurfaceFlinger.h:441-444 | Registers the name and counter for the handle, replacing an earlier entry. |
| SurfaceFlingers.BufferCountTracker.Remove | services/surfaceflinger/SurfaceFlinger.h:446-449 | Forgets the handle. Other handles keep their entries. |
| SurfaceFlingers.State.constructor | services/surfaceflinger/SurfaceFlinger.h:391 | A state of the given set, with no layers and no displays. |
| SurfaceFlingers.State.Assign | services/surfaceflinger/SurfaceFlinger.h:392-404 | Copies layers, displays, shadow settings and the matrix flag. The matrix is copied only when flagged. The state set is kept. |
| SurfaceFlingers.ActiveModeInfo.NotEqual | services/surfaceflinger/SurfaceFlinger.h:461-463 | True exactly when the two infos are different values. |
| SurfaceFlingers.FirstIdWithToken | services/surfaceflinger/SurfaceFlinger.h:1005-1013 | The first id mapped to the token, or none exactly when no id is. |
| SurfaceFlingers.TokenOf | services/surfaceflinger/SurfaceFlinger.h:999-1003 | The token of an id is found exactly when the id is a key, and it is that key's token. |
| SurfaceFlingers.TokenOfFirstId | services/surfaceflinger/SurfaceFlinger.h:999-1013 | With distinct ids, the id found for a token maps back to that token. |
| SurfaceFlingers.SurfaceFlinger.constructor | services/surfaceflinger/SurfaceFlinger.h:1178 | No displays, no physical tokens, no pending mode change; the token list is a map (Valid). |
| SurfaceFlingers.SurfaceFlinger.GetDisplayDeviceLocked | services/surfaceflinger/SurfaceFlinger.h:893-896 | The device of a known token, and none exactly when the token is unknown. |
| SurfaceFlingers.SurfaceFlinger.GetPhysicalDisplayTokenLocked | services/surfaceflinger/SurfaceFlinger.h:999-1003 | The token of a known physical display, and none exactly when the id is unknown. |
| SurfaceFlingers.SurfaceFlinger.GetPhysicalDisplayIdLocked | services/surfaceflinger/SurfaceFlinger.h:1005-1013 | The loop returns the first id whose token matches, or none exactly when no id has it. On a map, the id found maps back to the token. |
| SurfaceFlingers.SurfaceFlinger.GetDesiredActiveMode | services/surfaceflinger/SurfaceFlinger.h:1095-1099 | The desired mode exactly while a change to it is pending. |
| QtiCommandWriters.GetBuffer | services/surfaceflinger/QtiExtension/QtiAidlCommandWriter.h:100-106 | The slot as int32, the caller's handle, and a fence only when the descriptor is positive. |
| QtiCommandWriters.Flushed | services/surfaceflinger/QtiExtension/QtiAidlCommandWriter.h:86-98 | Flushing keeps the earlier commands and appends the pending display command, with the pending layer command, if any. |
| QtiCommandWriters.FlushKeepsLayers | services/surfaceflinger/QtiExtension/QtiAidlCommandWriter.h:86-98 | A flushed display command holds the pending layer command as its last layer. |
| QtiCommandWriters.QtiAidlCommandWriter.constructor | services/surfaceflinger/QtiExtension/QtiAidlCommandWriter.h:25-28 | A writer for one display with nothing pending. |
| QtiCommandWriters.QtiAidlCommandWriter.Reset | services/surfaceflinger/QtiExtension/QtiAidlCommandWriter.h:68-72 | Drops the pending commands and the flushed list. |
| QtiCommandWriters.QtiAidlCommandWriter.FlushLayerCommand | services/surfaceflinger/QtiExtension/QtiAidlCommandWriter.h:86-91 | Moves the pending layer command into the display command. The pending result is unchanged. |
| QtiCommandWriters.QtiAidlCommandWriter.FlushDisplayCommand | services/surfaceflinger/QtiExtension/QtiAidlCommandWriter.h:93-98 | Moves the pending display command into the list. The pending result is unchanged. |
| QtiCommandWriters.QtiAidlCommandWriter.GetDisplayCommand | services/surfaceflinger/QtiExtension/QtiAidlCommandWriter.h:108-120 | Fails for another display. Otherwise it reuses the pending display command or starts one. |
| QtiCommandWriters.QtiAidlCommandWriter.GetLayerCommand | services/surfaceflinger/QtiExtension/QtiAidlCommandWriter.h:122-132 | Reuses the pending command of the same layer. Otherwise it flushes the pending one and starts a new one for the layer. |
| QtiCommandWriters.QtiAidlCommandWriter.SetLayerType | services/surfaceflinger/QtiExtension/QtiAidlCommandWriter.h:35-40 | For the writer's display, the layer's pending command carries the type: the same layer's command is updated; otherwise the previous layer command moves into the display command (started if none) and a new command holds only the type. Another display changes nothing. |
| QtiCommandWriters.QtiAidlCommandWriter.SetLayerFlag | services/surfaceflinger/QtiExtension/QtiAidlCommandWriter.h:61-66 | As SetLayerType, for the flags: a new layer command holds only the flags. |
| QtiCommandWriters.QtiAidlCommandWriter.SetDisplayElapseTime | services/surfaceflinger/QtiExtension/QtiAidlCommandWriter.h:42-47 | For the writer's display, the pending display command carries the time as int64, and a pending layer command stays pending; without one pending, a new display command holds only the time. Another display changes nothing. |
| QtiCommandWriters.QtiAidlCommandWriter.SetClientTarget | services/surfaceflinger/QtiExtension/QtiAidlCommandWriter.h:49-59 | For the writer's display, the pending display command carries the client target buffer and the dataspace; without one pending, a new display command holds only the target. Another display changes nothing. |
| QtiCommandWriters.QtiAidlCommandWriter.GetPendingQtiCommands | services/surfaceflinger/QtiExtension/QtiAidlCommandWriter.h:74-78 | Flushes and returns every pending command, all for the writer's display. |
| QtiFeatureManagers.PropName | services/surfaceflinger/QtiExtension/QtiFeatureManager.cpp:155-193 | The property name is empty exactly for the features not read from a property. |
| QtiFeatureManagers.NameHasSignature | services/surfaceflinger/QtiExtension/QtiFeatureManager.cpp:155-188 | Each property name's length and two characters identify its feature. |
| QtiFeatureManagers.PropNamesDistinct | services/surfaceflinger/QtiExtension/QtiFeatureManager.cpp:155-188 | Two different features never share a property name. |
| QtiFeatureManagers.InitHwcForVdsNeedsWfd | services/surfaceflinger/QtiExtension/QtiFeatureManager.cpp:23-29 | After initialisation, HWC for virtual displays is enabled only with HWC for WFD. |
| QtiFeatureManagers.FeatureFlags.Enabled | services/surfaceflinger/QtiExtension/QtiFeatureManager.cpp:113-153 | An unknown feature is never enabled. |
| QtiFeatureManagers.AllDisabled | services/surfaceflinger/QtiExtension/QtiFeatureManager.cpp:14-16 | Every feature is disabled. |
| QtiFeatureManagers.InitFlagsValues | services/surfaceflinger/QtiExtension/QtiFeatureManager.cpp:18-91 | Initialisation sets each property feature from its property and leaves the other flags as they were. |
| QtiFeatureManagers.InitIdempotent | services/surfaceflinger/QtiExtension/QtiFeatureManager.cpp:18-91 | Initialising twice from the same properties equals initialising once. |
| QtiFeatureManagers.DisplayConfigServices.constructor | services/surfaceflinger/QtiExtension/QtiFeatureManager.cpp:11-12 | The AIDL and HIDL display-config globals start out null. |
| QtiFeatureManagers.QtiFeatureManager.constructor | services/surfaceflinger/QtiExtension/QtiFeatureManager.cpp:14-16 | Every feature starts disabled. The shared display-config services are neither reset nor changed. |
| QtiFeatureManagers.QtiFeatureManager.IsExtensionFeatureEnabled | services/surfaceflinger/QtiExtension/QtiFeatureManager.cpp:113-153 | The feature's flag. An unknown feature is disabled. |
| QtiFeatureManagers.QtiFeatureManager.Init | services/surfaceflinger/QtiExtension/QtiFeatureManager.cpp:18-91 | The flags become InitFlags. The qsync idle callback is registered exactly when AIDL is present and the feature is on. |
| QtiFeatureManagers.QtiFeatureManager.SetAidlDisplayConfig | services/surfaceflinger/QtiExtension/QtiFeatureManager.cpp:93-95 | Records the AIDL service in the shared globals. |
| QtiFeatureManagers.QtiFeatureManager.SetHidlDisplayConfig | services/surfaceflinger/QtiExtension/QtiFeatureManager.cpp:97-99 | Records the HIDL client in the shared globals. |
| QtiFeatureManagers.QtiFeatureManager.PostInit | services/surfaceflinger/QtiExtension/QtiFeatureManager.cpp:101-111 | Asynchronous VDS creation is supported as the available service answers, AIDL first. |
| QtiHwcExtensions.DisplayRoute | services/surfaceflinger/QtiExtension/QtiHWComposerExtension.cpp:49-61 | Without a HAL extension, skipped. With no displays, BAD_VALUE. With an unknown display, UNKNOWN_ERROR. Otherwise forwarded to the display's hardware id. |
| QtiHwcExtensions.RouteStatus | services/surfaceflinger/QtiExtension/QtiHWComposerExtension.cpp:63-70 | NO_ERROR exactly when skipped or accepted by the HAL. A HAL refusal is BAD_VALUE. |
| QtiHwcExtensions.LayerTypeOutcome | services/surfaceflinger/QtiExtension/QtiHWComposerExtension.cpp:73-97 | The HAL is called only for a new type on an existing layer with an extension. The cache changes only when the HAL accepts. |
| QtiHwcExtensions.CachedTypeSharedByLayers | services/surfaceflinger/QtiExtension/QtiHWComposerExtension.cpp:73-95 | The cached type is one per extension, so a second layer asking for the same type never reaches the HAL. |
| QtiHwcExtensions.RejectedTypeRetried | services/surfaceflinger/QtiExtension/QtiHWComposerExtension.cpp:86-96 | A rejected type leaves the cache unchanged, so asking again reaches the HAL again. |
| QtiHwcExtensions.LayerFlagOutcome | services/surfaceflinger/QtiExtension/QtiHWComposerExtension.cpp:99-117 | The flag is sent for every existing layer with an extension. The status is NO_ERROR or BAD_VALUE. |
| QtiHwcExtensions.QtiHWComposerExtension.constructor | services/surfaceflinger/QtiExtension/QtiHWComposerExtension.cpp:21-22 | Without a composer there is no HAL extension, and the type cache is 0. |
| QtiHwcExtensions.QtiHWComposerExtension.WithComposer | services/surfaceflinger/QtiExtension/QtiHWComposerExtension.cpp:24-35 | With a composer an AIDL or HIDL HAL extension exists, and the type cache is 0. |
| QtiHwcExtensions.QtiHWComposerExtension.FromVirtualDisplayId | services/surfaceflinger/QtiExtension/QtiHWComposerExtension.cpp:37-45 | The hardware id of a known display, and none exactly for an unknown one. |
| QtiHwcExtensions.QtiHWComposerExtension.SetDisplayElapseTime | services/surfaceflinger/QtiExtension/QtiHWComposerExtension.cpp:47-71 | Routes by DisplayRoute, sends the call when forwarded, and returns RouteStatus. |
| QtiHwcExtensions.QtiHWComposerExtension.SetLayerType | services/surfaceflinger/QtiExtension/QtiHWComposerExtension.cpp:73-97 | Status, cache and HAL call are those LayerTypeOutcome gives. |
| QtiHwcExtensions.QtiHWComposerExtension.SetLayerFlag | services/surfaceflinger/QtiExtension/QtiHWComposerExtension.cpp:99-117 | Status and HAL call are those LayerFlagOutcome gives. The type cache is kept. |
| QtiHwcExtensions.QtiHWComposerExtension.SetClientTarget | services/surfaceflinger/QtiExtension/QtiHWComposerExtension.cpp:119-145 | Routes by DisplayRoute, sends the client target with the fence duplicate when forwarded, and returns RouteStatus. |
| QtiHwcExtensions.QtiHWComposerExtension.TryDrawMethod | services/surfaceflinger/QtiExtension/QtiHWComposerExtension.cpp:147-171 | Routes by DisplayRoute, sends the draw method when forwarded, and returns RouteStatus. |
| QtiOutputExtensions.ProtectedIsSecureOrProtected | services/surfaceflinger/CompositionEngine/QtiExtension/QtiOutputExtension.cpp:39-84 | Content that counts as protected always counts as secure or protected. |
| QtiOutputExtensions.IsProtectedContent | services/surfaceflinger/CompositionEngine/QtiExtension/QtiOutputExtension.cpp:18-40 | True exactly when some layer is protected and none is a secure camera or secure display. |
| QtiOutputExtensions.HasSecureDisplay | services/surfaceflinger/CompositionEngine/QtiExtension/QtiOutputExtension.cpp:42-61 | True exactly when some layer with a state is a secure display. Null entries are skipped. |
| QtiOutputExtensions.HasSecureOrProtectedContent | services/surfaceflinger/CompositionEngine/QtiExtension/QtiOutputExtension.cpp:63-85 | True exactly when some layer is a secure camera, a secure display or protected. |
| QtiOutputExtensions.LayerFlagFor | services/surfaceflinger/CompositionEngine/QtiExtension/QtiOutputExtension.cpp:89-93 | 1 exactly without secure or protected content, 0 exactly with it. |
| QtiOutputExtensions.WriteLayerFlagToHWC | services/surfaceflinger/CompositionEngine/QtiExtension/QtiOutputExtension.cpp:88-98 | Sends LayerFlagFor through the HWC extension, as LayerFlagOutcome says, when there is one. |
| QtiOutputExtensions.LayerAsMaskCall | services/surfaceflinger/CompositionEngine/QtiExtension/QtiOutputExtension.cpp:100-120 | A mask call is made exactly for a physical display, with an engine and an extension, when decoration is unsupported. It names the layer and the uint32 HWC display id. |
| QtiOutputExtensions.UseSpecFence | services/surfaceflinger/CompositionEngine/QtiExtension/QtiOutputExtension.cpp:130-136 | True exactly when a feature manager exists and enables speculative fences. |
| QtiVdsExtensions.QtiVirtualDisplaySurfaceExtension.SetOutputUsageWith | services/surfaceflinger/QtiExtension/QtiVirtualDisplaySurfaceExtension.cpp:33-48 | Keeps every sink bit. Only a secure display whose sink feeds a video encoder gains a bit. |
| QtiVdsExtensions.QtiVirtualDisplaySurfaceExtension.SetOutputUsage | services/surfaceflinger/QtiExtension/QtiVirtualDisplaySurfaceExtension.cpp:28-30 | The same usage as the flagged form, whatever flag that is given. |
| QtiVdsExtensions.Create | services/surfaceflinger/QtiExtension/QtiVirtualDisplaySurfaceExtension.cpp:22-23 | The sink usage holds the caller's usage and the HW-composer bit. |
| QtiVdsExtensions.CreateAddsOnlyHwComposer | services/surfaceflinger/QtiExtension/QtiVirtualDisplaySurfaceExtension.cpp:23 | No bit besides those two is set. |
| QtiVdsExtensions.OutputUsageProtected | services/surfaceflinger/QtiExtension/QtiVirtualDisplaySurfaceExtension.cpp:36-43 | The output is protected exactly when the sink is, or the display is secure and the sink feeds a video encoder. |
| QtiVdsExtensions.OutputUsageOtherBits | services/surfaceflinger/QtiExtension/QtiVirtualDisplaySurfaceExtension.cpp:34-47 | Outside the protected bit, the output usage equals the sink usage. |
| QtiVdsExtensions.OutputUsageIgnoresFlag | services/surfaceflinger/QtiExtension/QtiVirtualDisplaySurfaceExtension.cpp:33-34 | The argument never changes the output usage. |
| QtiVdsExtensions.OutputUsageIdempotent | services/surfaceflinger/QtiExtension/QtiVirtualDisplaySurfaceExtension.cpp:28-47 | Computing the output usage of an output usage changes nothing more. |
| QtiVdsExtensions.ExcludeVideoFromScratchBuffer | services/surfaceflinger/QtiExtension/QtiVirtualDisplaySurfaceExtension.cpp:50-60 | Sets the framebuffer bit, clears the video-encoder bit, and keeps every other bit. |
| QtiVdsExtensions.ExcludeVideoIdempotent | services/surfaceflinger/QtiExtension/QtiVirtualDisplaySurfaceExtension.cpp:50-60 | Excluding video twice equals excluding it once. |
| QtiVdsExtensions.SecureVideoSink | services/surfaceflinger/QtiExtension/QtiVirtualDisplaySurfaceExtension.cpp:36-60 | A secure video sink's output is protected and still encodes video, while its scratch buffers never encode it. |
| QtiVdsExtensions.GetClientTargetCurrentDataspace | services/surfaceflinger/QtiExtension/QtiVirtualDisplaySurfaceExtension.cpp:66-68 | Always the UNKNOWN dataspace. |
| QtiWorkDurations.TruncatedRemainder | services/surfaceflinger/QtiExtension/QtiWorkDurationsExtension.cpp:18 | C++ `%`: the remainder has the dividend's sign, lies within one divisor, and rebuilds the dividend with the truncated quotient. |
| QtiWorkDurations.SfDurationToOffset | services/surfaceflinger/QtiExtension/QtiWorkDurationsExtension.cpp:12-14 | The SF offset and the SF duration add up to the vsync period. |
| QtiWorkDurations.AppDurationToOffset | services/surfaceflinger/QtiExtension/QtiWorkDurationsExtension.cpp:16-19 | The app offset plus both durations is a whole number of periods. For non-negative durations, the offset lies in (0, period]. |
| QtiWorkDurations.DefaultSfDuration | services/surfaceflinger/QtiExtension/QtiWorkDurationsExtension.cpp:51-52 | Three quarters of the period, rounded down, below the period. |
| QtiWorkDurations.RewrittenConfig | services/surfaceflinger/QtiExtension/QtiWorkDurationsExtension.cpp:49-68 | The rewritten configuration's SF offset and duration fill the period, and, when the app and SF durations sum to a non-negative value, its app offset lies in (0, period]. |
| QtiWorkDurations.EntryAfter | services/surfaceflinger/QtiExtension/QtiWorkDurationsExtension.cpp:40-79 | Rates below 60 or configured get one configuration in all three slots, with offsets derived from the durations. Other rates are unchanged. |
| QtiWorkDurations.DefaultDurations | services/surfaceflinger/QtiExtension/QtiWorkDurationsExtension.cpp:51-55 | An unconfigured rate below 60 gets the default SF duration and the extension's app duration, where -1 means the period. |
| QtiWorkDurations.ConfiguredDurations | services/surfaceflinger/QtiExtension/QtiWorkDurationsExtension.cpp:57-62 | A configured rate takes the configured SF duration, and the configured app duration unless that is 0. |
| QtiWorkDurations.EntryAfterIdempotent | services/surfaceflinger/QtiExtension/QtiWorkDurationsExtension.cpp:39-80 | Updating twice with the same table equals updating once. |
| QtiWorkDurations.WorkDuration.constructor | services/surfaceflinger/QtiExtension/QtiWorkDurationsExtension.cpp:22-30 | The configuration holds the given app duration and cache. |
| QtiWorkDurations.QtiWorkDurationsExtension.constructor | services/surfaceflinger/QtiExtension/QtiWorkDurationsExtension.cpp:22-30 | The extension keeps the vsync configuration it was given, possibly none. |
| QtiWorkDurations.QtiWorkDurationsExtension.UpdateWorkDurations | services/surfaceflinger/QtiExtension/QtiWorkDurationsExtension.cpp:32-81 | Each cache entry becomes EntryAfter of itself, in place. The app duration is kept, and nothing happens without a configuration. |
| QtiWorkDurations.QtiWorkDurationsExtension.UpdateSfOffsets | services/surfaceflinger/QtiExtension/QtiWorkDurationsExtension.cpp:83-86 | Not supported with work durations; changes nothing. |

## Left out

- The event thread's wait on its condition variable is not modelled. The model leaves out the
  wait with its timeouts, the synthetic-vsync fallback timing, and thread creation and
  shutdown (EventThread.cpp:261-278, 501-522).
- `threadMain` is not one method. Its four steps are separate methods: TakeNextEvent,
  OfferToConnections, UpdateThreadState and DispatchToConsumer. Whether each connection's weak
  reference still promotes is a parameter of OfferToConnections.
- The vsync registration is not modelled. The event thread records each schedule, update or
  cancel it makes, with the timing; the message queue takes the registration's answers as
  parameters.
- The resync callback's effect on the scheduler is not modelled; the connection counts its
  invocations.
- The BitTube channel is not modelled. Each send's result is a parameter, and binder uids and
  the connection's callback lifetime are left out.
- The Looper's internals are not modelled. This covers `waitMessage`, message delivery timing
  and the binder IPC flush (MessageQueue.cpp:163-183); the looper is a list of posted messages.
- Locks, mutexes and atomics are left out. The model is sequential.
- Logging and tracing are left out, apart from the trace value the vsync callback toggles.
- Floating point is not modelled:
  - the default SF duration `vsyncDuration * 0.75` is `(3 * vsyncDuration) / 4`;
  - the work-duration table, keyed by float refresh rate in the source, is looked up by the
    rounded integer rate;
  - frame-rate override rates are carried as reals but never computed with.
- `ui::Transform`, `getTransform`, `getColor`, `getUnrotatedBufferSize`, the reduction of
  layer properties, the layer's name (`args.name + "#" + sequence`, RequestedLayerState.cpp:50)
  and the debug strings of RequestedLayerState are not modelled; they work on
  floats or only format text.
- `layer_state_t::merge` and `layer_state_t::diff` are not modelled. A merge takes their results
  as input: the merged field values and the set of fields that differ.
- The VsyncConfiguration internals are reduced to what the work-durations extension reads and
  writes: the app duration and the offsets cache.
- The output extension's `qtiSetLayerType` forwarding (QtiOutputExtension.cpp:122-128) and
  `qtiGetVisibleLayerInfo` (QtiOutputExtension.cpp:138-156) are not modelled. They only relay
  data between objects that are not part of this model.
- `getClientTargetCurrentSlot` (QtiVirtualDisplaySurfaceExtension.cpp:62-64) is not modelled.
  It relays the virtual display surface's current framebuffer-producer slot
  (`mQtiVDS->mFbProducerSlot`), a field of an object that is not part of this model. It also
  dereferences that surface without a guard, while the constructor (:18-20) only warns when it
  is null.
- QtiHwcExtensions.QtiHWComposerExtension.WithComposer: the HIDL path creates a second HIDL
  extension object that is never freed (QtiHWComposerExtension.cpp:33). The model records only
  that an extension exists.
- Null dereferences the source does not guard become preconditions:
  - IsProtectedContent and HasSecureOrProtectedContent require every layer entry to be
    dereferenceable (AllDereferenceable);
  - LayerAsMaskCall requires the physical display to be in the HWC's id map;
  - RingBuffer.PushFront and RingBuffer.PushBack require a non-zero capacity, because pushing
    onto a zero-capacity buffer writes outside the array;
  - MessageQueues.MessageQueue.VsyncCallback requires a frame-timeline token manager, which
    the callback dereferences unguarded (MessageQueue.cpp:86);
  - MessageQueues.MessageQueue.SetDuration and MessageQueues.MessageQueue.ScheduleFrame require
    the vsync registration to exist (MessageQueue.cpp:157, 210);
  - EventThreads.EventThread.OnVsync requires a tracked display. The callback dereferences its
    vsync state after a check that only aborts (EventThread.cpp:394-403).
- Other undefined behaviour of the source also becomes a precondition:
  - RingBuffer.Front, RingBuffer.Back, RingBuffer.PopFront and RingBuffer.PopBack require a
    non-empty buffer. On an empty buffer the source reads a slot that holds no element, and the
    pops wrap the unsigned size below zero (RingBuffer.h:106-109, 125, 134);
  - QtiWorkDurations.QtiWorkDurationsExtension.UpdateWorkDurations requires every rewritten
    entry to have a positive period (PeriodsPositive). Otherwise the source computes a
    remainder by zero (QtiWorkDurationsExtension.cpp:18);
  - EventThreads.FillFrameTimelines and EventThreads.GenerateFrameTimeline require a positive
    frame interval. With a non-positive interval and a preferred deadline not after the
    timestamp, every pass of the source loop skips its entry and the loop never ends
    (EventThread.cpp:603-610);
  - SurfaceFlingers.SurfaceFlinger.GetPhysicalDisplayIdLocked requires Valid(): the physical
    display tokens form a map with distinct ids, as the source's keyed container always is.
- QtiWorkDurations.AppDurationToOffset and QtiWorkDurations.SfDurationToOffset do not model
  int64 overflow of the duration sums. Real durations and periods are far below 2^63.
- EventThreads.FillFrameTimelines and EventThreads.GenerateFrameTimeline do not model int64
  overflow of `preferred + multiplier * frameInterval` in the timeline times
  (EventThread.cpp:602-637); they compute on unbounded integers. Real timestamps and intervals
  are far below 2^63.
- EventThreads.EventThread.DispatchToConsumer posts a vsync event as it was queued. The source
  posts a per-consumer copy (EventThread.cpp:660-668) whose frame interval is the vsync period
  of the consumer's owner uid and whose timelines generateFrameTimeline regenerates from that
  interval. The per-uid period is an oracle outside this model, and the modelled Event carries
  no frame interval or timelines.
- The feature manager's property store is a map from feature to value. The system property
  names themselves are still modelled by PropName.
- Some constants come from headers that are not part of this model. These are the VSyncRequest
  values, the frame-timeline capacity (7), the early-latch threshold (100 ms), the gralloc usage
  bits, the layer flags and the status codes. They use the standard Android values.
