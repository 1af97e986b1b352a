# A model of the chromeless broker and capture components

The project models seven parts of chromeless and proves what they promise over
every run. All of them are stateful code, so each part has the same shape: a value-level
state machine whose steps are functions, lemmas about every run of it, and a class in
the source's own form whose methods are proved to take exactly those steps.

**Signaling broker** (`signaling/server.go`). A session has a browser and a client, each
with at most one registered connection, per-role replay buffers (the latest SDP envelope
of each type and up to 32 ICE candidates), per-connection flags, and a send channel of 32.
- `Signaling`: one step per operation (join, inbound frame, disconnect, channel write). `SignalingHistory` and
  `SignalingBuffers` read holders, flags and buffers off the event log and prove that the state is that
  reading, `SignalingInbox` everything a connection is ever sent; `SignalingRearm` builds re-arm safety on it.
- `SignalingFine`: one step per mutex section, with a program counter for each goroutine and any
  interleaving. `SignalingSchedules` proves the run-level results and that each coarse step is the
  fine schedule in which one goroutine runs alone.
  `SignalingRearmFine` is re-arm safety at this grain and `SignalingRearmExact` when exactly it holds.
- `SignalingBroker`: the `peer` and `session` objects and the handlers.
- `SessionHub`: connections finding, entering and removing sessions by (tenant, id), each section interleaved.
  `SessionHubHistory` reads it off the events.

**Tenant metrics** (`signaling/metrics.go`, the hub in `server.go`): `TenantMetrics`, with label insertion, gauge
update and hub sections interleaved; `TenantHistory` says who keeps a label of their own.

**BeginFrame driver** (`cb_begin_frame_driver.cc`): `BeginFrame` (timed steps against a compositor that acks late,
out of turn or never), `BeginFrameHistory` (every issue and every timer read off the events), `RendererDeath`, `BeginFrameDriver`.

**File upload receiver** (`cb_file_upload_receiver.cc`): `FileUpload` (handlers against a thread pool that runs
writes, read-backs and deletes in any order, in part or not at all), `FileUploadSafety` (the invariant),
`FileUploadHistory` and `FileUploadTasks` (replies, outcomes and posted tasks read off the events),
`FileUploadTheorems`, `FileUploadDelivery`, `FileUploadOrder`, `FileUploadScramble`, `FileUploadRuns` (runs that show where the
promises stop),
`FileUploadReceiver`.

**Control channel** (`cb_control_channel.cc`): `ControlChannel` (with a stack of callbacks in progress and drained
maps, so callbacks may call back in at any depth), `ControlChannelHistory`, `ControlChannelObject`.

**Drag dispatcher** (`cb_input_dispatch_drag.cc`): `DragDispatch`, `DragHistory`, `DragDispatcher`.

**Audio lifecycle** (`cb_audio_lifecycle.cc`): `AudioLifecycle`, `AudioReentry` (the observer calls back in), `AudioHistory`, `AudioLifecycleObject`.

Check everything with `dafny verify dfyconfig.toml`.

## Where the code and its text disagree

The model follows the code.
- `cb_file_upload_receiver.cc:42-51` says two chunk writes cannot be in flight at once. They can: the sequence number
  advances when a chunk is accepted, not when it is written. `FileUploadRuns.ShuffledUploadCompletes` is a complete
  upload with two chunks swapped; `FileUploadOrder.SpacedExactly` is the exact discipline under which no schedule of the
  pool can do that.
- An upload can be reported complete when its file is gone, because the wipe of the session before has no order against
  this one's writes (`cb_file_upload_receiver.cc:218-230`): `FileUploadRuns.CompleteWithoutFile`, with the exact condition in
  `FileUploadDelivery.CompleteFileOnDisk`.
- The session quota (`cb_file_upload_receiver.cc:330`) counts finished uploads only, so concurrent uploads can exceed it:
  `FileUploadRuns.QuotaOvershoot`, with the exact condition for any batch of uploads in `FileUploadRuns.BatchKeepsQuotaIff`
  and the condition for whole runs in `FileUploadTheorems.QuotaHolds`.
- `server.go:88-95` describes the flag `negotiated` as also set on registration; `register` does not set it.
- Between a connection's `unregister` and its `discardReplay` a joiner can still be replayed that connection's
  envelopes: `SignalingSchedules.DepartedOfferIsReplayed`. `SignalingSchedules.ReplayProvenance` says of each replayed frame
  exactly when this is so; in the coarse model it never is.
- `cb_audio_lifecycle.h:187-192` promises a stop notice on every path into the stopped state. `OnClosed` and `OnFailed`
  give none when nothing was adopted: `AudioLifecycle.IdleFailureIsSilent`, with the exact condition in
  `AudioLifecycle.StopNoticeExactly`.
- A drag ended while no widget can be resolved sends no Leave, and the next drag's Enter is then a second one:
  `DragDispatch.LostWidgetOverlaps`, with the exact condition in `DragDispatch.WellNestedExactly`.
- `cb_begin_frame_driver.h:338` has a second resize restart the nudge; the code lets the pending one run.
- One sixtieth of a second is 16666 whole microseconds, so the fastest rate puts 61 frames in a second:
  `BeginFrame.SixtyOneInASecond`. Every slower interval keeps to 60: `BeginFrame.SixtyASecondExactly`.
- `server.go:915-928` and `server.go:1036-1067` keep an ended viewer from wiping the browser's next offer. A viewer still wipes it if,
  when the browser's bye reaches it, its own bye has passed the echo check (`SignalingRearmExact.CrossingByesLoseTheOffer`) or its
  own answer is about to clear the flag (`SignalingRearmExact.CrossingAnswerLosesTheOffer`). `SignalingRearmExact.RearmExactly`
  is the exact condition.
- A connection handed a session by `getOrCreate` can find it removed before it registers, and waits in it alone:
  `SessionHub.PeersNeverMeet`, with the exact condition in `SessionHub.CarefulExactly`.

## Model

| member | source | states |
|---|---|---|
| `SignalingHistory.HoldersAreHistory` | signaling/server.go:418-512 | In every legal run a role is held by exactly the connection the log says: the last to join it that has not left. |
| `SignalingHistory.FlagsAreHistory` | signaling/server.go:570-622 | Each of a connection's three flags (negotiated, said bye, bye received) is a reading of the whole log: the last event of its kind. |
| `SignalingHistory.SynthesisedByeIsHistory` | signaling/server.go:922-974 | A disconnect synthesises a bye if and only if the broker is not shutting down and the last of the leaver's {offer or answer sent, bye sent, bye received} after its first frame is an offer or answer sent. |
| `SignalingBuffers.StepBuffer` | signaling/server.go:624-701 | What each event does to a role's replay buffer: store, evict, purge stale SDP, or wipe. |
| `SignalingBuffers.IceQueueIsHistory` | signaling/server.go:661-682 | The candidate queue of a role is the last at most 32 data-bearing candidates it sent, in order, since its frames were last voided. |
| `SignalingBuffers.SdpSlotIsHistory` | signaling/server.go:644-660 | Each SDP slot holds the latest envelope of its type since the last voiding, or is empty because that one was found stale, and then it stays stale. |
| `SignalingBuffers.LiveFramesAreTheHolders` | signaling/server.go:886-928 | Every frame of a role that is still live was sent by the connection registered in that role now. |
| `SignalingBuffers.ReplayIsHistory` | signaling/server.go:431-502 | What a join replays is what the log owes; deleting stale SDP at one join never changes a later replay. |
| `SignalingBuffers.OwedByHolder` | signaling/server.go:431-502 | Nothing owed to a joiner comes from a departed connection. |
| `SignalingBuffers.JoinerReceives` | signaling/server.go:431-503 | A joiner receives exactly the first 32 of: the last live offer, answer and renegotiation request, each if no older than the maximum age, in that order; then, in send order, exactly the live candidates with fewer than 32 later ones and no older than the maximum age. No SDP is dropped, at most as many newest candidates as there is SDP. Alone, it gets the absence notice only. |
| `SignalingInbox.MailIsHistory` | signaling/server.go:644-701 | Everything a connection is ever sent, in order: its replay or absence notice, then every frame forwarded to it while fewer than 32 waited; and how much of it is on the socket. |
| `SignalingRearm.EndedPeerIsHarmless` | signaling/server.go:1028-1067 | After a bye reached a connection and until it sends an offer or answer, no step of it, its own bye and disconnect included, changes the counterpart's buffers or flags or forwards it a bye. |
| `SignalingRearm.OfferStaysLive` | signaling/server.go:915-928 | The counterpart's offer stays the latest live one through any number of such steps. |
| `SignalingRearm.NextViewerGetsOffer` | signaling/server.go:684-688 | The re-armed browser's offer is the first thing the next viewer receives, whatever the old viewer did meanwhile. |
| `SignalingRearmFine.SpentForEver` | signaling/server.go:684-688 | Under every interleaving, a connection that a bye has reached and that has no offer or answer of its own under way, and no bye but to one who has left, stays so until it negotiates again. |
| `SignalingRearmFine.EndedPeerIsHarmlessFine` | signaling/server.go:886-974 | No mutex section of it, through any such schedule, touches the buffer or flags of the counterpart registered then, or sends it a bye. |
| `SignalingRearmExact.RearmExactly` | signaling/server.go:683-701 | For a registered connection that a bye has reached: some schedule without a further offer or answer from it changes the registered counterpart's buffer or flags or sends it a bye, if and only if it has an offer or answer of its own under way, or a bye not addressed to one who has left. |
| `SignalingRearmExact.UnsafeCanHarm` | signaling/server.go:1028-1067 | From every such position of its goroutine, whatever else is going on, a schedule that does the harm. |
| `SignalingRearmExact.CrossingByesLoseTheOffer` | signaling/server.go:1028-1067 | Byes that cross: the browser's next offer, sent after its bye reached the viewer, is wiped by the viewer's own bye. |
| `SignalingRearmExact.CrossingAnswerLosesTheOffer` | signaling/server.go:1028-1035 | A bye that crosses the viewer's answer: the answer clears it, the browser's next offer is stored, and the viewer's hangup wipes that offer. |
| `SignalingRearmExact.TheyMeet` | signaling/server.go:418-503 | The state from which they cross is reachable. |
| `SignalingFine.RunConsistent` | signaling/server.go:418-512 | Under every interleaving of mutex sections a connection is registered exactly while its goroutine is between register and unregister, and every pending send has a known target. |
| `SignalingFine.TailDecidesAsAtUnregister` | signaling/server.go:922-974 | The flags the disconnect tail reads in separate sections give the decisions one atomic read at unregister would have given, under every interleaving. |
| `SignalingSchedules.ReplayPrecedesLive` | signaling/server.go:418-503 | Everything register replays to a connection precedes everything ever forwarded to it live. |
| `SignalingSchedules.RunBufferHome` | signaling/server.go:644-701 | Every buffered frame belongs to a connection that is registered, or has unregistered and not yet discarded. |
| `SignalingSchedules.ReplayProvenance` | signaling/server.go:886-928 | A replayed frame comes from the counterpart registered now if and only if its sender is not between its unregister and its discardReplay. |
| `SignalingSchedules.ReplayFromPresentCounterpart` | signaling/server.go:431-502 | With no disconnect tail of the other role pending, a whole replay comes from the present counterpart. |
| `SignalingSchedules.DepartedOfferIsReplayed` | signaling/server.go:886-928 | A schedule in which a viewer is replayed the offer of a browser that has left. |
| `SignalingSchedules.SoloJoin` | signaling/server.go:418-503 | A join whose sections run without interference is the coarse join. |
| `SignalingSchedules.SoloReceive` | signaling/server.go:1010-1094 | An inbound frame handled without interference is the coarse receive. |
| `SignalingSchedules.SoloLeave` | signaling/server.go:886-974 | A disconnect tail run without interference is the coarse leave, with the same decision on the bye. |
| `SignalingBroker.Peer.TrySend` | signaling/server.go:692-700 | The non-blocking send keeps a frame while fewer than 32 wait and drops it otherwise. |
| `SignalingBroker.Session.Register` | signaling/server.go:418-503 | Rejects a taken role and changes nothing; otherwise takes the register step, loops over slots and queue included. |
| `SignalingBroker.Session.Unregister` | signaling/server.go:506-512 | Frees the role only if this connection holds it. |
| `SignalingBroker.Session.MarkNegotiated` | signaling/server.go:570-576 | Sets one flag of one peer. |
| `SignalingBroker.Session.SetSaidBye` | signaling/server.go:578-591 | Sets or clears one flag of one peer. |
| `SignalingBroker.Session.ClearByeReceived` | signaling/server.go:609-616 | Clears one flag of one peer. |
| `SignalingBroker.Session.DiscardReplay` | signaling/server.go:624-631 | The loop removes both buffers of exactly the roles named. |
| `SignalingBroker.Session.Forward` | signaling/server.go:644-701 | Stores a replayable frame or candidate, flags a bye's receiver and sends, as the forward step does. |
| `SignalingBroker.Join` | signaling/server.go:418-503 | Register, advice and first frame together are the coarse join. |
| `SignalingBroker.HandleFrame` | signaling/server.go:1010-1094 | One iteration of the read pump is the coarse receive. |
| `SignalingBroker.Disconnect` | signaling/server.go:886-974 | The disconnect tail is the coarse leave. |
| `TenantMetrics.LabelIsForEver` | signaling/metrics.go:68-89 | In every interleaving a tenant's first label is its label for ever. |
| `TenantMetrics.FewLabels` | signaling/metrics.go:68-89 | At most 102 distinct labels are ever emitted. |
| `TenantHistory.MetricsAreStory` | signaling/metrics.go:68-89 | In every interleaving the sessions, the sections under way and every label given are those of the events. |
| `TenantHistory.FirstHundredKeepTheirNames` | signaling/metrics.go:61-89 | A tenant is labelled with its own name if and only if it is anonymous or among the first hundred to be labelled. |
| `TenantMetrics.GaugeIsSessionCount` | signaling/server.go:366-401 | Whenever the hub lock is free, each label's gauge is the number of sessions in the hub whose tenant has that label. |
| `TenantMetrics.Metrics.LabelTenant` | signaling/metrics.go:68-89 | Returns the tenant's settled label and inserts the tenant only below the cap. |
| `TenantMetrics.Metrics.RecordSession` | signaling/metrics.go:125-134 | Moves the gauge of that label and no other. |
| `TenantMetrics.Hub.GetOrCreate` | signaling/server.go:366-383 | Adds the key if absent and keeps every gauge in balance. |
| `TenantMetrics.Hub.DropIfEmpty` | signaling/server.go:386-401 | Removes the key of an empty session only and keeps every gauge in balance. |
| `SessionHub.CarefulPeersMeet` | signaling/server.go:828-836 | If no session is removed while a connection is between getOrCreate and register in it, two connections registered for the same key are in the same session. |
| `SessionHub.CarefulExactly` | signaling/server.go:366-401 | Removals are so if and only if at no point of the run could a connection have ended up registered in a session the hub no longer has. |
| `SessionHub.PeersNeverMeet` | signaling/server.go:386-401 | A run in which browser and viewer of the same key are registered in different sessions. |
| `SessionHubHistory.JourneyIsHistory` | signaling/server.go:828-838 | Each connection is where its own moves have brought it, in the session its dial was handed; one whose role was taken goes to dropIfEmpty at once. |
| `SessionHubHistory.SessionsAreHistory` | signaling/server.go:366-401 | The hub has a session for a key exactly from the dial that made it until a leaving connection finds nobody registered in it. |
| `SessionHubHistory.NoSessionIsLeftBehind` | signaling/server.go:385-401 | Every session in the hub has somebody on the way in, inside or on the way out; once all are gone the hub is empty. |
| `BeginFrame.ClampInterval` | capture/build-integration/cb_begin_frame_driver.cc:103-110 | The interval lies between one sixtieth of a second and one second, and a request in that range is kept. |
| `BeginFrame.RunKeeps` | capture/build-integration/cb_begin_frame_driver.cc:230-476 | The invariant of every legal run: ack chain, watchdog timing, boot window, pacing. |
| `BeginFrame.AckChain` | capture/build-integration/cb_begin_frame_driver.cc:230-353 | At most one frame of the current epoch is un-acked: one is and the next-frame timer is idle, or none is and it is armed; issues are accepted acks plus epoch bumps plus the one outstanding. |
| `BeginFrame.StaleAckIsIgnored` | capture/build-integration/cb_begin_frame_driver.cc:303-335 | An ack of an abandoned epoch changes nothing in the driver. |
| `BeginFrame.OneIssueBeforeFirstAck` | capture/build-integration/cb_begin_frame_driver.cc:371-476 | Before the first ack exactly one BeginFrame has been issued, however often the watchdog fired. |
| `BeginFrame.NoReissueWhileAwaiting` | capture/build-integration/cb_begin_frame_driver.cc:196-228 | While a reconfigure ack is awaited the epoch stands still and nothing is issued over an outstanding frame; only the awaited ack or a stop ends the wait. |
| `BeginFrame.ReissueComesLate` | capture/build-integration/cb_begin_frame_driver.cc:371-476 | Every watchdog re-issue comes at least 15 s after the issue it abandons and opens the next epoch. |
| `BeginFrame.RateIsBounded` | capture/build-integration/cb_begin_frame_driver.cc:337-352 | The k-th issue after any other is at least k intervals later. |
| `BeginFrame.SixtyASecondExactly` | capture/build-integration/cb_begin_frame_driver.cc:103-110 | Every legal run issues at most 60 frames within any second if and only if the interval asked for is longer than 16666 microseconds, the fastest. |
| `BeginFrame.SixtyOneInASecond` | capture/build-integration/cb_begin_frame_driver.cc:103-117 | At the fastest interval a legal run issues 61 frames within a second. |
| `BeginFrameHistory.DriverIsHistory` | capture/build-integration/cb_begin_frame_driver.cc:124-476 | In every legal run each issue, with number, epoch, time and cause, the nudges, and when each timer is due are those of the history. |
| `BeginFrameHistory.WatchdogExactly` | capture/build-integration/cb_begin_frame_driver.cc:371-476 | A watchdog fire re-issues, in a new epoch, if and only if a first ack was accepted, no resize is awaited and it is the 15th since the last issue, ack or resize. |
| `BeginFrameHistory.CadenceExactly` | capture/build-integration/cb_begin_frame_driver.cc:337-352 | An accepted ack issues at once if an interval has passed since the last issue, and otherwise has the next frame due at exactly one interval. |
| `RendererDeath.CounterIsBarrenTail` | capture/build-integration/cb_begin_frame_driver.cc:581-607 | The counter is the length of the longest suffix of armed ticks with nothing captured. |
| `RendererDeath.DiesOnceOrNever` | capture/build-integration/cb_begin_frame_driver.cc:519-533 | The death callback has run once if six such ticks in a row ever ended, and otherwise not at all. |
| `RendererDeath.DeathIsFirstBarrenRun` | capture/build-integration/cb_begin_frame_driver.cc:581-607 | It runs at a tick if and only if that is the first to end six in a row. |
| `BeginFrameDriver.CbBeginFrameDriver.Start` | capture/build-integration/cb_begin_frame_driver.cc:124-161 | Takes the start step. |
| `BeginFrameDriver.CbBeginFrameDriver.Stop` | capture/build-integration/cb_begin_frame_driver.cc:163-180 | Takes the stop step: every timer is disarmed. |
| `BeginFrameDriver.CbBeginFrameDriver.IssueOneBeginFrame` | capture/build-integration/cb_begin_frame_driver.cc:230-301 | Issues one frame in the current epoch, recorded with its number, time and cause, and arms the watchdog. |
| `BeginFrameDriver.CbBeginFrameDriver.OnNextFrameTimer` | capture/build-integration/cb_begin_frame_driver.cc:337-352 | Takes the timer step. |
| `BeginFrameDriver.CbBeginFrameDriver.OnBeginFrameAck` | capture/build-integration/cb_begin_frame_driver.cc:303-353 | Takes the ack step for any epoch, stale ones included. |
| `BeginFrameDriver.CbBeginFrameDriver.OnStallWatchdog` | capture/build-integration/cb_begin_frame_driver.cc:371-476 | Takes the watchdog step on each of its branches; `BeginFrameHistory.WatchdogExactly` says which. |
| `BeginFrameDriver.CbBeginFrameDriver.NotifyDisplayReconfigured` | capture/build-integration/cb_begin_frame_driver.cc:196-228 | Takes the reconfigure step. |
| `BeginFrameDriver.CbBeginFrameDriver.OnReconfigureNudge` | capture/build-integration/cb_begin_frame_driver.cc:355-369 | Takes the nudge step. |
| `BeginFrameDriver.DeathDetector.SetPermanentDeathCallback` | capture/build-integration/cb_begin_frame_driver.cc:190-194 | Wires the callback and leaves the detector's counts alone. |
| `BeginFrameDriver.DeathDetector.EmitDiagnostic` | capture/build-integration/cb_begin_frame_driver.cc:519-607 | Takes the tick step of the death detector. |
| `BeginFrameDriver.ObjectKeepsChain` | capture/build-integration/cb_begin_frame_driver.cc:230-353 | A driver object whose entry points were called only when their event may happen has the invariant of the runs, and the issues and timers of its history. |
| `BeginFrameDriver.ObjectDiesOnce` | capture/build-integration/cb_begin_frame_driver.cc:519-607 | A detector object has called back once if six barren ticks in a row have ended, and otherwise not at all. |
| `FileUploadSafety.FullFileCovers` | capture/build-integration/cb_file_upload_receiver.cc:100-124 | A file made of prefixes of distinct chunks is no longer than all of them together, and if as long, holds every non-empty chunk whole and once. |
| `FileUploadSafety.RunKeepsOk` | capture/build-integration/cb_file_upload_receiver.cc:387-623 | Under every schedule of the pool each upload keeps its invariant: the file is the pieces that landed, chunk 0 first, and the counters count the posted writes. |
| `FileUploadHistory.ReceiverIsHistory` | capture/build-integration/cb_file_upload_receiver.cc:311-673 | Under every schedule the live uploads, the chunks posted, the bytes credited, the pending chooser, every outcome and every reply are those of the history. |
| `FileUploadHistory.SelectionExactly` | capture/build-integration/cb_file_upload_receiver.cc:613-655 | An upload reported complete is attached if and only if a chooser was pending, which is then given exactly that file; and a chooser is given a file by nothing else. |
| `FileUploadTasks.TasksAreHistory` | capture/build-integration/cb_file_upload_receiver.cc:212-569 | The writes in flight, an end held back for them, and the read-backs, deletes and wipes posted are those of the history. |
| `FileUploadTheorems.UploadAccounting` | capture/build-integration/cb_file_upload_receiver.cc:387-427 | `writes_in_flight` is the number of writes posted and not replied; accepted bytes never exceed the declared size. |
| `FileUploadTheorems.HashPostedWhenQuiet` | capture/build-integration/cb_file_upload_receiver.cc:505-512 | A read-back is posted only for a live upload with no write outstanding. |
| `FileUploadTheorems.LastReplySettles` | capture/build-integration/cb_file_upload_receiver.cc:455-471 | The reply of the one unreplied write of an upload whose end came early posts the read-back, or abandons the upload if the write failed. |
| `FileUploadTheorems.EarlyEndIsNotLost` | capture/build-integration/cb_file_upload_receiver.cc:467-513 | In every run a live upload whose end has come and whose writes are all replied has a read-back on the way. |
| `FileUploadTheorems.ReadBackDecides` | capture/build-integration/cb_file_upload_receiver.cc:571-623 | Its delivery takes the upload off and sends exactly one reply: complete, or what failed. |
| `FileUploadTheorems.ReadBackSeesEveryChunk` | capture/build-integration/cb_file_upload_receiver.cc:126-147 | A read-back as long as the declared size has found every non-empty accepted chunk in the file, whole and exactly once. |
| `FileUploadTheorems.CompleteUploadIsWhole` | capture/build-integration/cb_file_upload_receiver.cc:571-623 | An upload reported complete had the declared length, the declared digest if any, and every non-empty chunk once, chunk 0 first. |
| `FileUploadTheorems.CompleteUploadIsTheClientsFile` | capture/build-integration/cb_file_upload_receiver.cc:605-612 | With an injective digest, what was read back for a complete upload is the client's file. |
| `FileUploadDelivery.CompleteFileOnDisk` | capture/build-integration/cb_file_upload_receiver.cc:571-623 | At completion the file is on disk, as it was read back, if and only if no wipe ran since the read-back; otherwise it is gone. |
| `FileUploadDelivery.PageGetsTheClientsFile` | capture/build-integration/cb_file_upload_receiver.cc:605-617 | With an injective digest the client's file is on disk at completion if and only if no wipe ran since the read-back. |
| `FileUploadTheorems.ListenersAreConserved` | capture/build-integration/cb_file_upload_receiver.cc:164-210 | Over every run choosers are resolved in the order parked, each once; one is pending exactly while the deadline is armed; destruction leaves none. |
| `FileUploadTheorems.SelectionMeansComplete` | capture/build-integration/cb_file_upload_receiver.cc:613-655 | A listener is given a file only by an upload that completes in that step. |
| `FileUploadTheorems.LedgerStep` | capture/build-integration/cb_file_upload_receiver.cc:613-616 | No event but a start raises the bytes stored plus the bytes declared by uploads in progress. |
| `FileUploadTheorems.QuotaHolds` | capture/build-integration/cb_file_upload_receiver.cc:330-337 | While every accepted start leaves room for the uploads in progress, stored plus declared bytes stay within 512 MiB. |
| `FileUploadTheorems.QuotaHoldsOneAtATime` | capture/build-integration/cb_file_upload_receiver.cc:330-337 | With no other upload in flight at each start, the receiver's own check is enough. |
| `FileUploadOrder.InOrderIsJoined` | capture/build-integration/cb_file_upload_receiver.cc:107-112 | Whole chunks in increasing order make the concatenation of the chunks. |
| `FileUploadOrder.SpacedUploadIsInOrder` | capture/build-integration/cb_file_upload_receiver.cc:42-51 | If no chunk is accepted over an earlier one, the first aside, still in the pool, a complete upload is its chunks in order, with or without a digest. |
| `FileUploadOrder.TwoChunksAreInOrder` | capture/build-integration/cb_file_upload_receiver.cc:100-112 | One or two chunks complete in order whatever the client does. |
| `FileUploadOrder.ScramblesExactly` | capture/build-integration/cb_file_upload_receiver.cc:419-426 | Once in order, some schedule of the pool puts the file out of order if and only if a queued write, not the first, has a later one queued or landed. |
| `FileUploadOrder.SpacedExactly` | capture/build-integration/cb_file_upload_receiver.cc:387-427 | A run is spaced if and only if at no point of it could any schedule of the pool have put its chunks out of order. |
| `FileUploadOrder.WaitingIsSpaced` | capture/build-integration/cb_file_upload_receiver.cc:463-465 | Waiting, from the third chunk on, for the replies to all writes but the first is enough. |
| `FileUploadScramble.CrossingCompletes` | capture/build-integration/cb_file_upload_receiver.cc:419-426 | From any reachable state in which two writes of a live upload without a digest can cross, its other writes having worked, some run completes it with its chunks out of order. |
| `FileUploadRuns.ShuffledUploadCompletes` | capture/build-integration/cb_file_upload_receiver.cc:408-426 | For any three chunks there is a run that completes an upload without digest with the last two swapped. |
| `FileUploadRuns.BatchIsCredited` | capture/build-integration/cb_file_upload_receiver.cc:330-350 | From any reachable state any number of uploads that each fit by themselves are all accepted, can all complete, and are all credited. |
| `FileUploadRuns.BatchKeepsQuotaIff` | capture/build-integration/cb_file_upload_receiver.cc:613-616 | Such a batch keeps the quota if and only if every start of it left room for the uploads then in progress. |
| `FileUploadRuns.QuotaOvershoot` | capture/build-integration/cb_file_upload_receiver.cc:330-337 | Six files of 100 MiB started together put 600 MiB in one session. |
| `FileUploadRuns.CompleteWithoutFile` | capture/build-integration/cb_file_upload_receiver.cc:243-248 | A run in which the wipe of the session before removes a file between its read-back and its completion. |
| `FileUploadRuns.ReusedIdMiscounts` | capture/build-integration/cb_file_upload_receiver.cc:339-350 | From a reachable state: a start under a live id forgets the first one's write, whose reply then lets the end through with the second one's write in the pool. |
| `FileUploadReceiver.SafeComponent` | capture/build-integration/cb_file_upload_receiver.cc:59-74 | The result is one safe path component; safe input of at most 128 characters is unchanged; other characters become underscores. |
| `FileUploadReceiver.PathsMeetExactly` | capture/build-integration/cb_file_upload_receiver.cc:344-347 | Two uploads share a path if and only if the longer id starts with the shorter and goes on with what the names make up for. |
| `FileUploadReceiver.PathsCollide` | capture/build-integration/cb_file_upload_receiver.cc:344-347 | With underscores two different uploads can share a path. |
| `FileUploadReceiver.CbFileUploadReceiver.BeginChooser` | capture/build-integration/cb_file_upload_receiver.cc:169-195 | Cancels the earlier chooser, parks the new one and arms its deadline. |
| `FileUploadReceiver.CbFileUploadReceiver.CancelChooser` | capture/build-integration/cb_file_upload_receiver.cc:197-210 | Disarms the deadline and resolves a pending listener as cancelled. |
| `FileUploadReceiver.CbFileUploadReceiver.ResolveChooserWith` | capture/build-integration/cb_file_upload_receiver.cc:625-655 | Gives the file to the pending listener, if any, and says whether there was one. |
| `FileUploadReceiver.CbFileUploadReceiver.ResetForNewSession` | capture/build-integration/cb_file_upload_receiver.cc:212-250 | Takes the reset step; the loop counts the writes in flight over all uploads. |
| `FileUploadReceiver.CbFileUploadReceiver.HandleStart` | capture/build-integration/cb_file_upload_receiver.cc:311-351 | Takes the start step, both rejections included. |
| `FileUploadReceiver.CbFileUploadReceiver.HandleChunk` | capture/build-integration/cb_file_upload_receiver.cc:353-427 | Takes the chunk step: unknown id, wrong sequence, bad base64, too many bytes, or accepted. |
| `FileUploadReceiver.CbFileUploadReceiver.OnChunkWritten` | capture/build-integration/cb_file_upload_receiver.cc:441-472 | Takes the write-reply step. |
| `FileUploadReceiver.CbFileUploadReceiver.HandleEnd` | capture/build-integration/cb_file_upload_receiver.cc:474-513 | Takes the end step. |
| `FileUploadReceiver.CbFileUploadReceiver.OnFinalised` | capture/build-integration/cb_file_upload_receiver.cc:571-623 | Takes the finalise step: each rejection, or credit, chooser and reply; `FileUploadHistory.SelectionExactly` says what that is. |
| `FileUploadReceiver.CbFileUploadReceiver.HandleCancel` | capture/build-integration/cb_file_upload_receiver.cc:657-673 | Takes the cancel step, for known and unknown uploads. |
| `FileUploadReceiver.CbFileUploadReceiver.Dispatch` | capture/build-integration/cb_file_upload_receiver.cc:272-309 | Every task of the UI sequence keeps the object on a run of the machine. |
| `FileUploadReceiver.ObjectKeepsUploads` | capture/build-integration/cb_file_upload_receiver.cc:387-623 | So every valid receiver object has each upload's invariant, conserves its listeners, and has sent the replies and given the outcomes of its history. |
| `ControlChannel.ExactlyOnce` | capture/build-integration/cb_control_channel.cc:67-230 | In every interleaving and at every depth of re-entry each request issued has run once or waits in exactly one place, never both. |
| `ControlChannel.AtRestAllHaveRun` | capture/build-integration/cb_control_channel.cc:183-230 | With nothing pending and no frame open every callback has run exactly once. |
| `ControlChannel.IdsAreNeverReused` | capture/build-integration/cb_control_channel.cc:87-118 | An id pending later has been pending all along, for the same request. |
| `ControlChannel.LateAnswerIsIgnored` | capture/build-integration/cb_control_channel.cc:207-218 | Once a request is no longer pending, a response, failed send or deadline for it resolves nothing, for ever. |
| `ControlChannel.PendingIsGuarded` | capture/build-integration/cb_control_channel.cc:109-130 | Every pending request has its deadline running. |
| `ControlChannel.CancelResolvesAll` | capture/build-integration/cb_control_channel.cc:183-205 | When CancelAllPending returns, everything pending at the call has been run with the default, whatever its callbacks did. |
| `ControlChannelHistory.ChannelIsHistory` | capture/build-integration/cb_control_channel.cc:67-230 | In every interleaving and at every depth the requests waiting, the deadlines running, every callback run with its answer, and the frames are those of the history. |
| `ControlChannelHistory.ClosedCallRunsDefault` | capture/build-integration/cb_control_channel.cc:67-107 | A request on a closed channel, or one that cannot be serialised, has its callback run with the default at once, and leaves nothing waiting. |
| `ControlChannelObject.CbControlChannel.SendRequest` | capture/build-integration/cb_control_channel.cc:67-151 | Is a run of the machine that starts with the send and ends with the caller's frames as they were. |
| `ControlChannelObject.CbControlChannel.ResolvePending` | capture/build-integration/cb_control_channel.cc:207-230 | Runs the callback with this answer first of all if the id is pending; changes nothing otherwise. |
| `ControlChannelObject.CbControlChannel.DeadlineExpired` | capture/build-integration/cb_control_channel.cc:120-130 | Resolves a pending request with the default. |
| `ControlChannelObject.CbControlChannel.CancelAllPending` | capture/build-integration/cb_control_channel.cc:183-205 | The drain loop runs every request pending at the call, although callbacks re-enter the object. |
| `ControlChannelObject.ObjectRunsEachOnce` | capture/build-integration/cb_control_channel.cc:183-230 | An object at rest has run each callback exactly once or still has it pending, and has run what its history says. |
| `DragDispatch.WellNestedExactly` | capture/build-integration/cb_input_dispatch_drag.cc:213-528 | Over lies only between an Enter and the next Leave or Drop, and Enters never overlap, if and only if no drag was started over one that ended with its widget gone. |
| `DragDispatch.ResolvableIsWellNested` | capture/build-integration/cb_input_dispatch_drag.cc:213-528 | Against a widget that can always be resolved the calls are well nested. |
| `DragDispatch.LostWidgetOverlaps` | capture/build-integration/cb_input_dispatch_drag.cc:468-491 | Start, end without a widget, start: two Enters in a row. |
| `DragDispatch.PayloadsAreTheEnvelopes` | capture/build-integration/cb_input_dispatch_drag.cc:398-436 | The payloads of the Drop calls, and of the Enter calls, are those of the dispatched envelopes themselves, in order. |
| `DragDispatch.LeavesAtTheLastPoint` | capture/build-integration/cb_input_dispatch_drag.cc:479-491 | Every Leave is sent to the point of the call before it. |
| `DragHistory.TraceIsHistory` | capture/build-integration/cb_input_dispatch_drag.cc:213-528 | Every call, with its point and payload, is the one its envelope asks for: a failed or unsaid end after a drop leaves, a successful one does not. |
| `DragHistory.ItemsKeptExactly` | capture/build-integration/cb_input_dispatch_drag.cc:113-158 | Exactly the items with a kind and a type are kept, in order; exactly the strings keep their data. |
| `DragHistory.TypesKeptExactly` | capture/build-integration/cb_input_dispatch_drag.cc:160-172 | Exactly the string entries are kept, in order. |
| `DragHistory.PayloadExactly` | capture/build-integration/cb_input_dispatch_drag.cc:534-610 | The payload has the last text and HTML, every URL in order, the last data of each other type, and counts the files, item by item. |
| `DragDispatcher.ParseItems` | capture/build-integration/cb_input_dispatch_drag.cc:113-158 | Keeps the well-formed items in order; only strings carry data. |
| `DragDispatcher.ParseTypes` | capture/build-integration/cb_input_dispatch_drag.cc:160-172 | Keeps the string entries in order. |
| `DragDispatcher.CbInputDispatchDrag.BuildDropData` | capture/build-integration/cb_input_dispatch_drag.cc:534-610 | The loop yields the last text and HTML, every URL in order, the last data of each other type, and one file per file item. |
| `DragDispatcher.CbInputDispatchDrag.DispatchDragStart` | capture/build-integration/cb_input_dispatch_drag.cc:213-315 | Takes the start step. |
| `DragDispatcher.CbInputDispatchDrag.DispatchDragOver` | capture/build-integration/cb_input_dispatch_drag.cc:321-361 | Takes the over step. |
| `DragDispatcher.CbInputDispatchDrag.DispatchDrop` | capture/build-integration/cb_input_dispatch_drag.cc:367-446 | Takes the drop step, which keeps the payload even when the coordinates are missing; `DragHistory.TraceIsHistory` has its point. |
| `DragDispatcher.CbInputDispatchDrag.DispatchDragEnd` | capture/build-integration/cb_input_dispatch_drag.cc:452-528 | Takes the end step on all five of its branches. |
| `DragDispatcher.ObjectIsWellNested` | capture/build-integration/cb_input_dispatch_drag.cc:193-207 | What an object has sent is what its envelopes ask for, and well nested exactly under that condition. |
| `AudioLifecycle.RefsHeldExactly` | capture/audio/cb_audio_lifecycle.cc:104-170 | The three references are held together exactly while armed or active. |
| `AudioLifecycle.ReleasedInOrder` | capture/audio/cb_audio_lifecycle.cc:396-419 | Everything adopted has been released once, in the order transceiver, track, source, or is what is held now. |
| `AudioLifecycle.NoticesAreDisciplined` | capture/audio/cb_audio_lifecycle.cc:267-350 | Between re-arms at most one activation and one stop notice, and no activation after the stop. |
| `AudioLifecycle.StopNoticeExactly` | capture/audio/cb_audio_lifecycle.cc:317-350 | A stopped session has given its stop notice if and only if it was not an idle one the driver closed or failed. |
| `AudioLifecycle.StopNoticesAreHistory` | capture/audio/cb_audio_lifecycle.cc:354-430 | The stop notices given, in order, with reason, graceful exactly when the embedder asked for the teardown. |
| `AudioLifecycle.IdleFailureIsSilent` | capture/audio/cb_audio_lifecycle.cc:336-350 | A driver that fails before anything is adopted stops the session without a notice. |
| `AudioLifecycle.PassedExactlyOnce` | capture/audio/cb_audio_lifecycle.cc:432-461 | Every driver event is passed downstream exactly once, in order. |
| `AudioLifecycle.StepPasses` | capture/audio/cb_audio_lifecycle.cc:267-350 | It is passed on after everything done locally. |
| `AudioLifecycle.DestroyReleases` | capture/audio/cb_audio_lifecycle.cc:88-102 | Destruction leaves no reference held, and everything adopted released in order. |
| `AudioHistory.LogIsHistory` | capture/audio/cb_audio_lifecycle.cc:104-430 | The phase is the history's, and the log is exactly the notes it owes, in order. |
| `AudioHistory.ActivationExactly` | capture/audio/cb_audio_lifecycle.cc:267-292 | An activation is announced exactly when ICE connects for the first time since an adoption, and the session is active exactly from then until it stops. |
| `AudioHistory.DestroyIsHistory` | capture/audio/cb_audio_lifecycle.cc:88-102 | Destruction adds the release and an ungraceful notice to an armed or active session, and nothing to any other. |
| `AudioReentry.DisciplinedAtAnyDepth` | capture/audio/cb_audio_lifecycle.cc:277-291 | The notices stay disciplined, and references held exactly while armed or active, when the observer calls back in from its notices, to any depth. |
| `AudioReentry.ReleasedAtAnyDepth` | capture/audio/cb_audio_lifecycle.cc:396-430 | Adoptions made from inside a notice are released once and in order too. |
| `AudioReentry.PassedOnceAtAnyDepth` | capture/audio/cb_audio_lifecycle.cc:432-461 | Every driver event is passed on exactly once, or its own entry point has yet to return. |
| `AudioReentry.StopNoticesAtAnyDepth` | capture/audio/cb_audio_lifecycle.cc:354-430 | The stop notices given, nested calls included, are those the calls owed, in order. |
| `AudioReentry.StopNoticeExactlyAtAnyDepth` | capture/audio/cb_audio_lifecycle.cc:317-350 | At any depth a stopped session has given its stop notice since the last re-arm if and only if it was not an idle one the driver ended. |
| `AudioHistory.NestedIsHistory` | capture/audio/cb_audio_lifecycle.cc:277-291 | At any depth of re-entry phase, references and everything logged, what is passed on aside, are those of the calls in the order made. |
| `AudioReentry.UndisturbedIsStep` | capture/audio/cb_audio_lifecycle.cc:267-350 | An entry point during which nobody calls back in is the plain step. |
| `AudioLifecycleObject.CbAudioLifecycle.AdoptBindings` | capture/audio/cb_audio_lifecycle.cc:104-146 | Adopts only when idle and given all three references. |
| `AudioLifecycleObject.CbAudioLifecycle.PrepareForTeardown` | capture/audio/cb_audio_lifecycle.cc:148-170 | Takes the teardown step. |
| `AudioLifecycleObject.CbAudioLifecycle.Rearm` | capture/audio/cb_audio_lifecycle.cc:178-258 | Succeeds exactly when stopped, and clears the activation latch. |
| `AudioLifecycleObject.CbAudioLifecycle.OnIceConnectionStateChanged` | capture/audio/cb_audio_lifecycle.cc:267-292 | Takes the ICE step and passes it on; `AudioHistory.ActivationExactly` says when it activates. |
| `AudioLifecycleObject.CbAudioLifecycle.Relay` | capture/audio/cb_audio_lifecycle.cc:294-315 | Passes renegotiations and new viewers on and does nothing else. |
| `AudioLifecycleObject.CbAudioLifecycle.OnClosed` | capture/audio/cb_audio_lifecycle.cc:317-334 | Takes the close step and passes it on. |
| `AudioLifecycleObject.CbAudioLifecycle.OnFailed` | capture/audio/cb_audio_lifecycle.cc:336-350 | Takes the failure step and passes it on. |
| `AudioLifecycleObject.CbAudioLifecycle.Teardown` | capture/audio/cb_audio_lifecycle.cc:88-102 | Takes the destructor's step. |
| `AudioLifecycleObject.CbAudioLifecycle.StopInternal` | capture/audio/cb_audio_lifecycle.cc:354-430 | Stops the transceiver, drops transceiver, track and source in that order, then gives the notice. |
| `AudioLifecycleObject.ObjectIsDisciplined` | capture/audio/cb_audio_lifecycle.cc:104-350 | Every lifecycle object has the phase and log of its history, and so the discipline, the release order and the forwarding of the runs. |

## Assumptions

- Signaling: connections are told apart by ids never reused; the results that mention freshness assume a clock that never runs
  backwards (`Monotone`); one session object is followed for its whole life; `SessionHub` says when
  the connections of a key share one.
- BeginFrame: acks arrive asynchronously, timers fire no earlier than their delay, `Start` is called once per driver, and the clock
  never runs backwards.
- File upload: each pool task is atomic; an upload id is started once and has its own path, as ids without an underscore do
  (`FileUploadReceiver.PathsAreDistinct`, `FileUploadReceiver.PathsMeetExactly`, `FileUploadRuns.ReusedIdMiscounts`); the digest is a
  parameter, never the empty string where that matters.
- Control channel: the 64-bit request counter does not wrap around.

## Left out

- SignalingSchedules.ReplayFromPresentCounterpart: one way only, because a pending disconnect tail is harmless when nothing fresh of its sender is buffered; ReplayProvenance has both directions.
- FileUploadTheorems.QuotaHolds: one way over whole runs, because an upload that never completes is never credited; BatchKeepsQuotaIff has both directions for uploads that do.
- FileUploadOrder.SpacedUploadIsInOrder: one way only, because chunks with equal bytes may land in any order; SpacedExactly has both directions on the pieces.
- FileUpload: what remains on disk after an abandon or a session wipe, which the source calls best-effort.
- WebSocket upgrade, pings, socket I/O, HTTP handlers, tokens, the admin endpoint and TURN configuration: plumbing and straight-line checks.
- JSON and base64 parsing: envelopes are datatypes and decoding is a parameter.
- SHA-256 itself, Prometheus, Chromium, viz and libwebrtc internals, the audio device pre-arm calls in `Rearm`.
- Log output, sequence numbers of control envelopes, advisory control events, device scale factors and keyboard modifiers of drag events: they would only add easy members.
- AudioLifecycleObject: the object's notices do not call back in; AudioReentry has the machine in which they do.
- The TypeScript client, the Go input bridge and the remaining capture components.
