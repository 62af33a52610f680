# atlax verification

A Dafny model of the two stateful cores of atlax, and proofs about all their runs.

**The stream multiplexer** (`pkg/protocol`). One connection carries many streams. Relay
identifiers are odd, agent identifiers even, and freed identifiers are handed out again.
The model has three grains:

- *Objects.* `StreamSessions`, `MuxSessions`, `WriteQueues`, `Codec`, `Windows` and
  `ServiceLists` follow the methods statement by statement, with their loops, and prove each
  against a value-level function of the state.
- *Calls and handlers.* In `Mux` each public call and each frame handler, with its callbacks,
  is one step; `MuxPair` links two such endpoints with resets and cancelled opens. Here live
  identifier conservation, the bound on the identifier counter, agreement of sessions and
  table, and termination of resets; `Accounts` follows the bytes, the waiting opens and the
  going-away flag of one endpoint through any run.
- *Locked sections.* In `Flow` the check and the push of Write, the state change, the signal
  and the callback of Close, and every `select` arm of the drain loop are separate steps.
  `Link` joins two endpoints at that grain with both write queues and the frames in flight,
  in runs without reset, cancelled open or session close; `Conversation`,
  `FirstUse` and `Reuse` follow one identifier through it; `Delivery` states what holds of whole
  runs, `Wire` adds the bytes, `Freeing`, `EarlyReuse` and `Races` say what the
  guards are for, `Witnesses` gives the runs that break them, and `Removals` takes the removal of
  a stream apart further still.

`Refinement` and `PairRuns` tie the last two together: each whole call and each handler is a
run of the locked sections, so `CallerStories` can say of the calls themselves what Read
returns and what an open call has agreed on.

**The relay port table** (`pkg/relay`, `pkg/config`, `cmd/relay`). `Reload` gives the closed
form of a configuration reload and what follows over runs; `Admin` the requests of the admin
API and `PortRequests` what they promise; `ConfigTrees` the index of a configuration, over the
tree; `Sidecar` saving, merging and restarting; `Ports`, `PortIndexes` and `AdminServers` the
objects and loops.

Transition systems are functions of an event, and a run is any list of enabled events, so
every scheduling is covered. Packets of the link carry the number of the session that queued
them; it is not on the wire and no step looks at it.

## What the proofs found

- `maybeRemoveStream` does not look whether the entry is still there. When its two callers, the
  callback of Close and the handler of a closing frame, both see the session closed, the
  identifier is freed twice; that is the only way to lose conservation
  (`Removals.ConservedExactlyWhenSeenOnce`). In the linked model it is a closing frame that lands
  inside Close (`Races.ConservationExact`, `Witnesses.FinCanLandInsideClose`).
- If the identifier is taken again before the callback of that Close, the callback removes the
  next use instead (`Races.OpenerLosesNextUse`, `Races.AccepterLosesNextUse`,
  `Witnesses.NextUseCanBeLost`).
- Close frees the identifier before the drain loop has queued the closing frame. A reuse in
  that window can only fail (`Races.EarlyReuseAlwaysFails`, `Witnesses.ReuseCanBeEarly`).
- A request that arrives while Close is at work on the last use is dropped, or taken and then
  lost (`Races.RequestOutcome`, `Witnesses.RequestCanArriveInsideClose`,
  `Witnesses.RequestCanBeTakenInsideClose`).
- The results about reuse guard just the two points where an identifier passes to its next use
  (`Delivery.GuardedDo`), and only for the identifier they speak of. First-use delivery and the
  first handshake need no guard.
- A refused customer change is stored as the applied configuration, so a later removal of the
  port is refused too and the mapping stays (`Reload.RejectedChangeStrandsMapping`).
- `pkg/relay/admin_reload.go:79-84` says that a reload never moves a port between customers. It
  does when the admin API made the mapping, the configuration lists the port for the first time,
  for someone else, and its listener starts (`Reload.CustomerMovesExactlyWhenNew`,
  `Admin.MovedTenant`).
- `docs/protocol/stream-lifecycle.md:199` says that identifiers are never reused; the code
  recycles them, and the model follows the code. `pkg/config/loader.go:169-170` speaks of a port
  assigned to several customers; the code also refuses one customer listing it twice.

## Parameters

Whether a listener starts, a file is read or written, a context is cancelled, and whether a
string is an IP address (with `0.0.0.0` one of them) are parameters. JSON and YAML are taken
to round-trip. Go's unspecified map order is a choice that no result depends on.

## Model

| member | source | states |
|---|---|---|
| `Delivery.FirstUseDelivery` | pkg/protocol/mux_session.go:326-490 | In every run of two linked endpoints and for every identifier, at its first use: what either side has read is a prefix of what the other has written, and a reader sees the end only after reading every chunk whose Write completed before Close. No guard on the run |
| `Delivery.EveryUseDelivery` | pkg/protocol/mux_session.go:111-141 | The same for every later use of an identifier, use by use, in every run whose steps about that identifier are guarded; nothing is asked of the other streams |
| `Delivery.NoStaleFrames` | pkg/protocol/mux_session.go:408-490 | In every run whose earlier steps about the identifier are guarded, a data or closing frame is applied to the incarnation that answers the one that sent it, and a guarded request to open finds its identifier inactive at the peer |
| `Delivery.HandshakeAgreement` | pkg/protocol/mux_session.go:143-163 | In every run whose steps about the identifier are guarded, once an open call has succeeded the peer holds a session of the same use with exactly the opener's payload, and nothing of that session reaches the opener before the answer |
| `Delivery.FirstHandshake` | pkg/protocol/mux_session.go:143-163 | The same for the first use of an identifier, in every run |
| `Races.ConservationExact` | pkg/protocol/mux_session.go:641-648 | For every run at the fine grain and every identifier: it is conserved at every point, and through the end of every Close call on it under way there, if and only if no closing frame of it is handled, at its owner, between the locked section of Close and its callback |
| `Removals.ConservedExactlyWhenSeenOnce` | pkg/protocol/mux_session.go:480-490 | With the handler and maybeRemoveStream taken apart: in every run an identifier stays live or free once, and its last use in the table, through all removals under way, if and only if no use is seen closed by both callers of maybeRemoveStream |
| `Removals.FinInsideClose` | pkg/protocol/stream_impl.go:168-176 | The window inside Close, as a run |
| `Removals.CloseInsideHandler` | pkg/protocol/mux_session.go:488-489 | The window the other way, inside the handler, as a run |
| `Removals.InvKept` | pkg/protocol/mux_session.go:641-648 | Every step but a second look at a closed use keeps: each older use was removed once and the last one is live until it is |
| `Races.TidyRunsConserve` | pkg/protocol/mux_session.go:719-723 | Under that one guard, whatever happens to other identifiers, whatever is reused early and wherever requests arrive, the identifier is live or in the free list, exactly once |
| `Races.TidyOpenIsGuarded` | pkg/protocol/mux_session.go:116-141 | Under that guard an identifier is handed out only when inactive and with no Close at work on it; of the guard on opens only the queued closing frame is left |
| `Races.FinInsideCloseFreesTwice` | pkg/protocol/mux_session.go:641-648 | In any run, a closing frame handled there makes that Close free the identifier a second time |
| `Races.OpenerLosesNextUse` | pkg/protocol/mux_session.go:641-648 | If the identifier is handed out again before that callback runs, the callback removes the new, open session from the table and frees the identifier while it is in use |
| `Races.AccepterLosesNextUse` | pkg/protocol/mux_session.go:641-648 | At the accepting end, with the next request right behind such a closing frame, the callback removes the next use, accepted meanwhile |
| `Races.CloseFinishes` | pkg/protocol/stream_impl.go:168-176 | A Close past its locked section can always finish |
| `Races.EarlyReuseAlwaysFails` | pkg/protocol/stream_impl.go:170-176 | After any run whose steps about the identifier are guarded, handing it out, for any use, before the closing frame of its last use was queued: however the run goes on, the open call is never answered, its request finds the identifier active and is dropped, and unless the identifier is handed out yet again the peer gets no session |
| `Delivery.EarlyReuseIsDropped` | pkg/protocol/stream_impl.go:170-176 | For the second use, after any run at all, such a request finds the identifier still active at the peer |
| `Races.OpenOutcome` | pkg/protocol/mux_session.go:116-141 | After any run whose steps about the identifier are guarded: an open of an active identifier displaces a session that has not ended, and an open while Close is at work on the last use ends with the new, open session out of the table and its identifier in the free list |
| `Races.RequestOutcome` | pkg/protocol/mux_session.go:434-442 | After any run whose steps about the identifier are guarded, a request to open is taken if no Close is at work there; otherwise it is dropped if the last use is still in the table, or taken and then removed from the table by the end of that Close |
| `Witnesses.FinCanLandInsideClose` | pkg/protocol/stream_impl.go:150-179 | A guarded run after which a closing frame is about to be handled inside Close, with room to hand the identifier out again |
| `Witnesses.ConservationCanFail` | pkg/protocol/mux_session.go:641-648 | A run that does not conserve identifiers |
| `Witnesses.ReuseCanBeEarly` | pkg/protocol/stream_impl.go:170-176 | A guarded run after which an identifier is handed out before the closing frame of its last use was queued |
| `Witnesses.RequestCanArriveInsideClose` | pkg/protocol/mux_session.go:434-442 | A guarded run after which a request is about to be dropped, Close being at work on the last use |
| `Witnesses.RequestCanBeTakenInsideClose` | pkg/protocol/mux_session.go:434-442 | A guarded run after which a request is about to be taken with Close at work on the last use |
| `Witnesses.NextUseCanBeLost` | pkg/protocol/mux_session.go:641-648 | A guarded run after which the accepting end is about to lose the next use |
| `Delivery.WrongParityNever` | pkg/protocol/mux_session.go:736-758 | In no run does an endpoint receive a request to open in its own parity space |
| `Wire.BytesInFlight` | pkg/protocol/frame_codec.go:26-88 | In every run the bytes that carry the frames in flight decode to exactly those frames, and reading one leaves the bytes of the rest: the frame-level link is the byte-level one |
| `Wire.CutInFlight` | pkg/protocol/frame_codec.go:26-53 | However many of those bytes have arrived, the reader gets exactly the frames that are there in full and waits for the rest of the next |
| `Link.SimulatesAll` | pkg/protocol/mux_session.go:385-490 | Every step of the link moves each single stream by one step of its own conversation, or leaves it alone |
| `Link.NetInvKept` | pkg/protocol/mux_session.go:111-141 | Every step keeps, at both ends, that identifiers below the counter are live or free and that the counter cannot wrap |
| `Link.OffTheWire` | pkg/protocol/mux_session.go:719-758 | Every stream frame that arrives is one the peer's code builds, and a request has the peer's parity |
| `FirstUse.FirstInvKept` | pkg/protocol/mux_session.go:408-490 | The invariant behind first-use delivery is kept by every step of a conversation, reuse included |
| `FirstUse.EarlyKept` | pkg/protocol/mux_session.go:116-141 | A request sent ahead of the closing frame of the first use stays ahead of it |
| `Reuse.ReuseInvKept` | pkg/protocol/mux_session.go:111-141 | The invariant behind guarded reuse is kept by every guarded step |
| `Reuse.RequestFindsInactive` | pkg/protocol/mux_session.go:434-442 | When a guarded request for the next use arrives, the last use has left the table and is over |
| `Reuse.AppliedToPartner` | pkg/protocol/mux_session.go:462-490 | A data or closing frame meets the partner of the session that queued it |
| `Freeing.FreeInvKept` | pkg/protocol/mux_session.go:641-648 | Per identifier, every step but a closing frame inside Close keeps: the live session is the last one, all others are done with the table, and the identifier is live or free once |
| `EarlyReuse.StuckKept` | pkg/protocol/mux_session.go:408-442 | Per identifier, every step keeps an early request stuck: the owner waits, the guest is silent and holds the last use while the request is under way |
| `Conversation.TakeStep` | pkg/protocol/mux_session.go:462-490 | The oldest frame under way to a session is its next undelivered chunk, or the closing frame after the last one |
| `Flow.FlowInvPreserved` | pkg/protocol/stream_impl.go:86-248 | Every single step of Write, Close, Read, the drain loop and the read loop keeps the session invariant: pushed chunks are the sent ones followed by the buffered ones, bytes read and still buffered are the bytes applied, at most one finCh token, one closing frame |
| `Flow.SignalNeverBlocks` | pkg/protocol/stream_impl.go:168-172 | Close's send on finCh always finds room |
| `Flow.RunLog` | pkg/protocol/mux_session.go:326-382 | Over any run, the frames on the data lane are exactly what the session records as drained, and the pushed chunks are the pushes of the run |
| `Flow.DrainOrder` | pkg/protocol/mux_session.go:326-373 | Under every interleaving, resets included, the frames of one drain loop are a prefix of the chunks in push order, then at most one closing frame |
| `Flow.NothingAfterFin` | pkg/protocol/mux_session.go:348-373 | No frame follows the closing frame, whatever happens later |
| `Flow.PushedBeforeSignalPrecedesFin` | pkg/protocol/mux_session.go:326-373 | Every chunk pushed before the finCh signal is ahead of the closing frame |
| `Flow.DrainCompletes` | pkg/protocol/mux_session.go:326-373 | From every signalled, unreset state the drain loop's own steps lead to the closing frame with every pushed chunk ahead of it |
| `StreamTable.FreshBelowHighWater` | pkg/protocol/mux_session.go:117-129 | A fresh identifier is taken only while fewer than the stream limit have been handed out |
| `StreamTable.OwnLiveBelowMax` | pkg/protocol/mux_session.go:117-129 | Local-parity live streams never outnumber the limit, whatever the peer opens |
| `StreamTable.OpenKeepsConserved` | pkg/protocol/mux_session.go:116-141 | An open hands out an identifier that is not in use and keeps conservation and the bound on the counter |
| `StreamTable.DropKeepsConserved` | pkg/protocol/mux_session.go:719-723 | Removing a live stream and freeing its identifier keeps conservation |
| `StreamTable.PeerInstallKeepsConserved` | pkg/protocol/mux_session.go:434-442 | Accepting a peer's stream leaves the local identifiers alone |
| `Mux.IdentifiersConserved` | pkg/protocol/mux_session.go:116-141 | For every run of calls and frame handlers: identifiers handed out split without repeats into live streams and the free list, opens never return one in use, and the counter stays within two per allowed stream of its start |
| `Mux.RunKeeps` | pkg/protocol/mux_session.go:434-714 | For every run: each table entry is open at least one way, each session that has not ended is the entry under its own identifier, closedCh is closed exactly in terminal states, and finCh holds at most one token |
| `Mux.DoKeeps` | pkg/protocol/mux_session.go:385-714 | Every public call and every frame handler keeps that invariant, whatever the peer sends |
| `Mux.TerminalIsFinal` | pkg/protocol/stream_impl.go:150-248 | Closed and Reset are final and no session is forgotten, in every run |
| `Mux.EntryOrigin` | pkg/protocol/mux_session.go:427-442 | A new entry of the local parity comes from a local open of the next identifier, one of the peer's parity from a peer's request for it |
| `Mux.RefusedOpen` | pkg/protocol/mux_session.go:736-758 | A duplicate or wrong-parity request changes no session and no identifier; only the second is answered with a reset |
| `Mux.ResetKeeps` | pkg/protocol/mux_session.go:680-714 | Each reset that onReset emits removes exactly one live entry |
| `MuxPair.StepSettles` | pkg/protocol/mux_session.go:492-513 | Every step of two linked endpoints pays for each reset it sends or handles with a stream |
| `MuxPair.ResetsNeverOutnumberStreams` | pkg/protocol/mux_session.go:680-714 | In every run of two endpoints from connection, resets and cancelled opens included: resets emitted and live streams together never outnumber the streams installed, and at most two resets are handled per stream |
| `MuxPair.OwnParityNeverRequested` | pkg/protocol/mux_session.go:736-758 | In no such run does an endpoint receive a request to open in its own parity space |
| `MuxPair.ResetsEnd` | pkg/protocol/mux_session.go:492-513 | After any such run, once no request is left and no open follows, the resets handled are bounded by a measure of the state and the resets sent by its live streams, although each reset is answered with one |
| `MuxPair.ResetsAreBounded` | pkg/protocol/mux_session.go:680-714 | The bounds between any two points of a run |
| `MuxPair.ResetsTerminate` | pkg/protocol/mux_session.go:492-513 | The end of the exchange, from any state with the invariant |
| `CallerStories.PairDelivery` | pkg/protocol/mux_session.go:326-490 | In every run of whole calls, writes and handlers between two connected endpoints: what Read has returned is a prefix of what the other side's Write has accepted, and all of it when the next Read would report the end, which is only after the other side closed. For the first use of an identifier, and for every use if it is opened again only once its last session is drained |
| `CallerStories.PairHandshake` | pkg/protocol/mux_session.go:111-163 | In such runs the session that a peer accepts holds exactly the payload given to the open call of the same use, and an open call that no longer waits has been accepted |
| `CallerStories.RunTells` | pkg/protocol/stream_impl.go:86-124 | The sessions of the fine grain have recorded exactly what the calls of the run told their callers |
| `CallerStories.RunIsGuarded` | pkg/protocol/stream_impl.go:170-176 | At the grain of whole calls the guards on reuse come down to one: the drain loop has taken the token of the last session |
| `PairRuns.PairRefines` | pkg/protocol/mux_session.go:111-490 | Refinement: every such run is a run of the locked sections of Flow and Link, and ends in the same tables, lanes and frames in flight |
| `PairRuns.RunRefines` | pkg/protocol/mux_session.go:111-490 | The same from any related states |
| `PairRuns.StepRefines` | pkg/protocol/mux_session.go:385-406 | The same for one call, one frame written or one frame handled |
| `PairRuns.WrittenIsTaken` | pkg/protocol/write_queue.go:50-88 | The write loop of MuxPair moves exactly the frame that Dequeue returns |
| `PairRuns.TransmittedIsTaken` | pkg/protocol/write_queue.go:71-81 | So does that of Link |
| `Refinement.HandleMirrors` | pkg/protocol/mux_session.go:385-575 | For every frame a peer may send, the handler here and the small steps of Link take related endpoints to related endpoints: delivery, payload, answer, pending open, reset and removal |
| `Refinement.OpenMirrors` | pkg/protocol/mux_session.go:111-141 | Opening a stream: the same identifier, request, session and pending call |
| `Refinement.CallFollows` | pkg/protocol/stream_impl.go:86-179 | Each of Write, Read and Close, and each turn of the drain loop, is exactly a run of the steps of Flow, with the frames of that run on the data lane in its order |
| `Refinement.FlushRuns` | pkg/protocol/mux_session.go:358-373 | flushAndFIN, step by step: the buffered chunks in their order, then the closing frame, then nothing |
| `Refinement.ActsRun` | pkg/protocol/mux_session.go:326-382 | The steps of one session, run between two endpoints, change that session and its frames only |
| `Accounts.ReadAccount` | pkg/protocol/mux_session.go:462-478 | In every run of one endpoint, whatever the peer sends, resets and cancels included: what was buffered followed by the payloads of the data frames handled is what Read has returned followed by what is buffered, unless the session was reset; and the window has lost what arrived and gained the credits |
| `Accounts.WaitsUntilAnswered` | pkg/protocol/mux_session.go:408-432 | In every run an open call waits exactly until its answer is handled or its caller gives up |
| `Accounts.AwayForGood` | pkg/protocol/mux_session.go:207-232 | In every run the endpoint refuses opens for good exactly from the first GO_AWAY sent or handled |
| `Accounts.ResetSends` | pkg/protocol/mux_session.go:680-714 | A reset sends its code once, empties the session, and frees its entry and identifier; on an ended session it does nothing |
| `Accounts.ResetEchoes` | pkg/protocol/mux_session.go:492-513 | A reset with a code is answered with the same code |
| `Accounts.GoAwayWords` | pkg/protocol/mux_session.go:220-222 | The last identifier is the first word, the reason the second |
| `Frames.BigEndian` | pkg/protocol/frame_codec.go:69-75 | Words are written and read most significant byte first |
| `StreamSessions.StreamSession.constructor` | pkg/protocol/stream_impl.go:53-65 | A new session is idle and empty |
| `StreamSessions.StreamSession.Open` | pkg/protocol/stream_impl.go:190-194 | Changes the state to Open and nothing else |
| `StreamSessions.StreamSession.Close` | pkg/protocol/stream_impl.go:150-179 | The state change of Close and its one finCh token; reports whether the callback is due |
| `StreamSessions.StreamSession.RemoteClose` | pkg/protocol/stream_impl.go:207-221 | Half-closes, or closes and signals closedCh |
| `StreamSessions.StreamSession.Reset` | pkg/protocol/stream_impl.go:224-243 | Resets once and clears the buffer; later calls do nothing |
| `StreamSessions.StreamSession.Deliver` | pkg/protocol/stream_impl.go:198-204 | Appends to the read buffer and lowers the window |
| `StreamSessions.StreamSession.Read` | pkg/protocol/stream_impl.go:86-103 | Returns bytes off the front of the buffer, else end of stream exactly when the read side is closed |
| `StreamSessions.StreamSession.Write` | pkg/protocol/stream_impl.go:107-124 | Buffers the chunk last, or refuses exactly when the write side is closed |
| `MuxSessions.MuxSession.constructor` | pkg/protocol/mux_session.go:73-102 | Starts empty with the role's first identifier, and the connection window wrapped to 32 bits |
| `MuxSessions.MuxSession.OpenStreamWithPayload` | pkg/protocol/mux_session.go:111-172 | Refuses exactly when going away or at the limit; otherwise the whole new state is that of an open |
| `MuxSessions.MuxSession.CancelOpen` | pkg/protocol/mux_session.go:164-171 | Removes the stream, frees its identifier and leaves its request queued |
| `MuxSessions.MuxSession.Close` | pkg/protocol/mux_session.go:671-675 | Close with its callback: the entry goes exactly when the session has ended |
| `MuxSessions.MuxSession.Reset` | pkg/protocol/mux_session.go:680-714 | Reset with its callback: one frame, one removal, or nothing |
| `MuxSessions.MuxSession.MaybeRemoveStream` | pkg/protocol/mux_session.go:641-648 | Removes and frees without looking whether the entry is there |
| `MuxSessions.MuxSession.RemoveStream` | pkg/protocol/mux_session.go:651-666 | Removes and frees only a present entry, then resets its session |
| `MuxSessions.MuxSession.FreeID` | pkg/protocol/mux_session.go:719-723 | Keeps identifiers of the local parity only |
| `MuxSessions.MuxSession.AcceptPeerOpen` | pkg/protocol/mux_session.go:736-758 | Accepts exactly the peer-parity requests and answers the others with a reset |
| `MuxSessions.MuxSession.HandleStreamOpen` | pkg/protocol/mux_session.go:408-460 | Both halves of the handshake, on the object; a stream that is taken is offered to AcceptStream last |
| `MuxSessions.MuxSession.AcceptStream` | pkg/protocol/mux_session.go:175-187 | Streams come out in the order they were offered |
| `MuxSessions.MuxSession.HandleStreamData` | pkg/protocol/mux_session.go:462-478 | Delivers to the live session, then ends its read side on FIN |
| `MuxSessions.MuxSession.HandleStreamClose` | pkg/protocol/mux_session.go:480-490 | Ends the read side and removes an ended session |
| `MuxSessions.MuxSession.HandleStreamReset` | pkg/protocol/mux_session.go:492-513 | Resets, answers with a reset and removes |
| `MuxSessions.MuxSession.HandleWindowUpdate` | pkg/protocol/mux_session.go:537-564 | Adds a signed increment to a live stream's window, or credits the connection window for stream 0; short payloads are ignored |
| `MuxSessions.MuxSession.HandleServiceList` | pkg/protocol/mux_session.go:577-605 | Publishes the list unless the last one was not taken |
| `MuxSessions.MuxSession.HandleFrame` | pkg/protocol/mux_session.go:385-406 | Dispatch: the whole new state for any frame, connection window and service list included |
| `MuxSessions.MuxSession.LargestID` | pkg/protocol/mux_session.go:211-218 | The loop finds the largest identifier in use, or zero |
| `MuxSessions.MuxSession.GoAway` | pkg/protocol/mux_session.go:208-232 | The frame carries the largest identifier in use |
| `MuxSessions.MuxSession.FlushAndFIN` | pkg/protocol/mux_session.go:358-373 | The loop queues every buffered chunk in order and then the closing frame |
| `MuxSessions.MuxSession.DrainTurn` | pkg/protocol/mux_session.go:326-344 | One turn of the drain loop for each arm its select can pick: a chunk queued, the end with flush and closing frame, a stop after a reset, or the wait for the token |
| `MuxSessions.MuxSession.DrainData` | pkg/protocol/mux_session.go:375-382 | Takes the oldest buffered chunk and queues it |
| `MuxSessions.MuxSession.AwaitFIN` | pkg/protocol/mux_session.go:348-354 | With the token there, takes it, flushes and ends; else waits |
| `WriteQueues.LaneIsFifo` | pkg/protocol/write_queue.go:32-88 | For every history, what left a lane followed by what is in it is what it accepted, in order |
| `WriteQueues.DataWaitsForControl` | pkg/protocol/write_queue.go:71-81 | When a data frame leaves, every control frame accepted so far has left |
| `WriteQueues.TakeAgrees` | pkg/protocol/write_queue.go:50-88 | Dequeue fails only when nothing is pending and otherwise returns the frame that leaves |
| `WriteQueues.ClosedAcceptsNothing` | pkg/protocol/write_queue.go:36-38 | After Close no lane accepts a frame |
| `WriteQueues.CloseDrains` | pkg/protocol/write_queue.go:50-96 | After Close the pending frames can all be taken in order, and only then Dequeue reports the end |
| `WriteQueues.WriteQueue.Enqueue` | pkg/protocol/write_queue.go:32-46 | Appends to the lane of its priority unless closed |
| `WriteQueues.WriteQueue.Dequeue` | pkg/protocol/write_queue.go:50-88 | Control lane first, then data, then closed or blocked |
| `WriteQueues.WriteQueue.Close` | pkg/protocol/write_queue.go:91-96 | Closes and keeps what is pending |
| `Codec.StreamRoundTrip` | pkg/protocol/frame_codec.go:26-88 | Any list of frames written back to back in front of any bytes reads back as that list and leaves exactly those bytes |
| `Codec.DecodeEncode` | pkg/protocol/frame_codec.go:57-88 | One frame in front of any bytes reads back with exactly those bytes left |
| `Codec.RejectsExactly` | pkg/protocol/frame_codec.go:91-104 | Each of the three errors happens exactly on its condition on the bytes |
| `Codec.PrefixIsTruncated` | pkg/protocol/frame_codec.go:26-53 | A cut-off frame always reads as truncated |
| `Codec.CutStream` | pkg/protocol/frame_codec.go:26-53 | Any cut of a stream of frames decodes to the frames that are there in full, and reading on finds it truncated |
| `Codec.EncodeDecode` | pkg/protocol/frame_codec.go:26-88 | Writing a decoded frame again restores its bytes with only the reserved byte zeroed |
| `Codec.FillHeader` | pkg/protocol/frame_codec.go:69-75 | The twelve header bytes, filled in place field by field |
| `Codec.WriteFrame` | pkg/protocol/frame_codec.go:57-88 | The header filled field by field and the payload, or a refusal exactly when oversize |
| `Codec.ReadFrame` | pkg/protocol/frame_codec.go:26-53 | Reads one frame off the stream and consumes exactly its bytes, or the error that the bytes call for |
| `Windows.WindowExactlyWhenRoomy` | pkg/protocol/window.go:35-96 | For every window and every list of wire payloads, consumes of any amounts and resets, 32-bit arithmetic agrees with an unbounded ledger throughout if and only if no negative amount overflows the bound |
| `Windows.WindowIsExact` | pkg/protocol/window.go:35-96 | In particular, with non-negative amounts the window stays in 0 to 2^31-1 and equals initial plus accepted minus consumed since the last reset |
| `Windows.FlowWindow.Consume` | pkg/protocol/window.go:35-59 | One round of the wait loop: takes exactly when enough is there |
| `Windows.FlowWindow.Update` | pkg/protocol/window.go:63-80 | Accepts exactly positive increments that stay under the bound |
| `Windows.FlowWindow.Reset` | pkg/protocol/window.go:91-96 | Restores the initial size |
| `ServiceLists.AdvertisementRoundTrip` | pkg/protocol/mux_session.go:577-637 | For every list that can be sent, the peer publishes the non-empty names among its first 1024 |
| `ServiceLists.SplitJoin` | pkg/protocol/mux_session.go:577-637 | Splitting undoes joining for names without newlines |
| `ServiceLists.JoinSplit` | pkg/protocol/mux_session.go:577-637 | Joining undoes splitting for any bytes |
| `ServiceLists.SendServiceList` | pkg/protocol/mux_session.go:617-637 | Refuses exactly names with line breaks and oversize payloads |
| `ServiceLists.HandleServiceList` | pkg/protocol/mux_session.go:577-605 | For any payload, at most 1024 names, none empty, in order |
| `Ports.PortRouter.AddPortMapping` | pkg/relay/router_impl.go:53-63 | Sets one port, overwriting what was there |
| `Ports.PortRouter.UpdatePortMapping` | pkg/relay/router_impl.go:116-133 | Replaces the mutable fields of a mapped port; no port's customer changes |
| `Ports.PortRouter.RemovePortMapping` | pkg/relay/router_impl.go:136-147 | Clears the port exactly when it belongs to the named customer |
| `Ports.PortRouter.GetPort` | pkg/relay/router_impl.go:77-91 | The mapping of a port, if any |
| `Ports.PortRouter.ListPorts` | pkg/relay/router_impl.go:94-108 | Every mapping exactly once, in whatever order the map is visited |
| `PortIndexes.BuildPortIndex` | pkg/config/loader.go:171-194 | Succeeds exactly when no port is listed twice; otherwise reports the first row whose port an earlier one has, and both customers |
| `PortIndexes.IndexPorts` | pkg/relay/admin_reload.go:340-361 | The same index as BuildPortIndex wherever that succeeds, and the last listing of each port in general |
| `PortIndexes.IndexIsUnique` | pkg/relay/admin_reload.go:340-361 | A list of rows has one index |
| `PortIndexes.IndexOfIndexes` | pkg/config/loader.go:171-194 | That index maps exactly the listed ports, each to its last row |
| `PortIndexes.DistinctIndex` | pkg/config/loader.go:171-194 | Without repeated ports the index is exactly the set of rows |
| `ConfigTrees.IndexIsTree` | pkg/config/loader.go:171-194 | Over the configuration tree itself, without repeated ports: a port is in the index if and only if some customer lists it, with that customer's identifier, stream limit and rate limit and that listing's service and address, 0.0.0.0 when empty |
| `ConfigTrees.IndexedAs` | pkg/relay/admin_reload.go:345-359 | With repeated ports too: each port has the entry of its last listing in the tree |
| `ConfigTrees.IndexedIsListed` | pkg/relay/admin_reload.go:345-359 | The index holds exactly the ports that the tree lists |
| `ConfigTrees.DistinctIsNoRepeats` | pkg/config/loader.go:173-179 | The flattened configuration repeats a port exactly when the tree does |
| `ConfigTrees.ConflictIsRepeat` | pkg/config/loader.go:175-179 | A refusal names a port that the tree lists twice and the customers of the earlier and the later listing |
| `Reload.ReloadConfluent` | pkg/relay/admin_reload.go:160-197 | For any table, configurations and bind outcomes, whatever order either loop visits its map in, the table and the counts are one closed form |
| `Reload.SummaryExact` | pkg/relay/admin_reload.go:160-278 | The counts are the sizes of the diff classes: new ports whose listener starts, dropped ports still owned, mapped ports with changed fields, ports that change customer |
| `Reload.AgreesExactlyWhenClean` | pkg/relay/admin_reload.go:166-184 | From a table that agrees with the old configuration, the new table agrees with the new one if and only if no customer change was refused and every new listener started |
| `Reload.ConvergesExactlyWhenClean` | pkg/relay/admin_reload.go:90-197 | Over any number of reloads the table agrees with the latest configuration after each one if and only if every reload is clean |
| `Reload.ReloadUnchanged` | pkg/relay/admin_reload.go:160-197 | Reloading the same configuration changes nothing and counts nothing, on any table |
| `Reload.CustomerKept` | pkg/relay/admin_reload.go:255-278 | A port in both configurations keeps its customer in the table, whatever they say |
| `Reload.CustomerMovesExactlyWhenNew` | pkg/relay/admin_reload.go:79-84 | A reload moves a mapped port to another customer if and only if the port is new to the configuration, its listener starts and the configuration names another customer |
| `Reload.OthersUntouched` | pkg/relay/admin_reload.go:160-184 | Ports in neither configuration keep their mapping |
| `Reload.DroppedExactlyWhenOwned` | pkg/relay/admin_reload.go:237-250 | A dropped port's mapping goes if and only if it still belongs to the customer of the last applied configuration |
| `Reload.RejectedChangeStrandsMapping` | pkg/relay/admin_reload.go:128-130 | After a refused customer change, dropping the port leaves its old mapping in the table; after an accepted one it does not |
| `Admin.TenantBindingKept` | pkg/relay/admin_reload.go:79-84 | A port listed in every applied configuration keeps its customer through any mixture of reloads, refused ones included, updates of any port, and creations and deletions of other ports |
| `Admin.ApiMappingMoves` | pkg/relay/admin_reload.go:166-171 | A mapping made over the API moves to another customer when a configuration lists its port for the first time, for that customer, and its listener starts |
| `Admin.MovedTenant` | pkg/relay/admin_reload.go:79-84 | An input on which that happens |
| `Admin.CustomerKeptByStep` | pkg/relay/admin.go:483-530 | One step of that |
| `PortRequests.CreateLaw` | pkg/relay/admin.go:394-481 | After an acceptable create the port has the customer, service, address (0.0.0.0 when empty) and limit of the request, or is free if its listener did not start; other ports are untouched; an unacceptable one changes nothing. The status says which |
| `PortRequests.UpdateLaw` | pkg/relay/admin.go:487-578 | After an accepted update the fields given are new, the omitted ones and the customer are as before, and no other port changes; otherwise nothing does |
| `PortRequests.DeleteLaw` | pkg/relay/admin.go:598-636 | After a delete the port is free and the others keep their mappings |
| `PortRequests.DeletedStaysFree` | pkg/relay/admin.go:598-636 | And it stays free in every run until it is created again or an applied configuration lists it |
| `PortRequests.CreatedStays` | pkg/relay/admin.go:394-481 | A port created outside the configuration serves its request through any run of events about other ports |
| `PortRequests.DeletedSurvivesRestart` | cmd/relay/main.go:122-169 | A port outside the configuration that was deleted, and not mapped again, is free after save and restart |
| `PortRequests.CreatedSurvivesRestart` | cmd/relay/main.go:122-169 | One that was created there, and left alone, still serves its request after save and restart |
| `AdminServers.AdminServer.Reload` | pkg/relay/admin_reload.go:90-154 | Succeeds exactly when a path is set, the file loads and its ports are distinct; otherwise no part of the state changes; on success table, counts, limiters, configuration and sidecar are given in full |
| `AdminServers.AdminServer.ApplyReload` | pkg/relay/admin_reload.go:160-197 | The two loops with arbitrary choice reach the closed form |
| `AdminServers.AdminServer.AddPort` | pkg/relay/admin_reload.go:202-233 | Adds the mapping, or leaves the port unmapped when the listener fails |
| `AdminServers.AdminServer.RemovePort` | pkg/relay/admin_reload.go:237-250 | Removes and counts exactly an owned mapping |
| `AdminServers.AdminServer.UpdatePortReload` | pkg/relay/admin_reload.go:255-265 | Updates and counts exactly a present mapping, keeping its customer |
| `AdminServers.AdminServer.ReconcileNew` | pkg/relay/admin_reload.go:167-177 | The switch of the first loop, rejection included, as one visit |
| `AdminServers.AdminServer.ApplyRateLimitChanges` | pkg/relay/admin_reload.go:285-305 | Replaces and counts exactly the limiters of customers with a new or different positive limit |
| `AdminServers.RateLimits` | pkg/relay/admin_reload.go:374-383 | The last limit of each customer |
| `AdminServers.LimitsUnchanged` | pkg/relay/admin_reload.go:285-305 | The same limits again replace nothing |
| `AdminServers.AdminServer.CreatePort` | pkg/relay/admin.go:394-481 | Status and table for every request and bind outcome, and the sidecar written exactly on success |
| `AdminServers.AdminServer.UpdatePort` | pkg/relay/admin.go:487-578 | Status and table for every request; omitted fields keep their value |
| `AdminServers.AdminServer.DeletePort` | pkg/relay/admin.go:598-636 | Status and table; the sidecar is written exactly on success |
| `Sidecar.SaveCurrentState` | pkg/relay/store.go:112-124 | One record per listed mapping, in order, under version 1 |
| `Sidecar.MergeSidecar` | cmd/relay/main.go:122-169 | Configured entries win, otherwise the first mergeable record of each port counts; also the number merged |
| `Sidecar.MergeIsUnique` | cmd/relay/main.go:122-169 | That determines the merged index |
| `Sidecar.RegisterPorts` | pkg/relay/server_impl.go:50-59 | Start puts every index entry in the router, in any order |
| `Sidecar.RestartExact` | cmd/relay/main.go:122-169 | Saving any table and starting again restores it if and only if it agrees with the configuration and every other mapping is one the admin API could have made |
| `Sidecar.RestartFromFile` | pkg/relay/store.go:49-72 | What a save left in the file always loads again, with the same exact condition for restoring the table |
| `Sidecar.RestartAfterRun` | pkg/relay/admin.go:401-426 | From any start and after any creates, updates, deletes and reloads that leave only storable mappings behind, save and restart restores the table if and only if it still agrees with the configuration last applied, and never skips a mapping outside it |
| `Sidecar.ReloadKeepsStorableExactly` | pkg/relay/admin_reload.go:237-250 | A reload keeps the mappings outside the configuration acceptable to the merge if and only if those it leaves behind are |
| `Sidecar.AdminKeepsStorable` | pkg/relay/admin.go:401-426 | Create, update and delete keep every mapping outside the configuration acceptable to the merge |
| `Sidecar.StartIsStorable` | cmd/relay/main.go:122-169 | A start from any sidecar yields such a table, in agreement with the configuration |
| `Sidecar.AgreementKept` | pkg/relay/admin.go:487-636 | Requests about ports outside the configuration leave the agreement alone |

## Left out

- Session Close and everything after it, beyond the write queue's own Close.
- Waiting: Dequeue, Consume, Read and AcceptStream report that they would block instead of waiting.
- Frame handlers in smaller steps in the linked model: there a handler is one step between steps of the calls.
- Removals.ConservedExactlyWhenSeenOnce: one identifier at its owner, with one closing frame from the peer per use.
- Races.ConservationExact: exact of the linked model, in which a handler is one step; Removals.ConservedExactlyWhenSeenOnce takes the handler apart, for one identifier at its owner, and also finds the window in which Close lands between pkg/protocol/mux_session.go:488 and :489.
- Races.TidyRunsConserve: likewise with handlers in one step.
- Resets and cancelled opens in the fine-grained link; they are covered at the grain of calls and handlers.
- CallerStories.PairDelivery: its runs have no resets by a caller, cancelled opens or frames over the size limit, and use a stream once its open was answered; Accounts.ReadAccount has resets and cancels, for one endpoint.
- CallerStories.PairHandshake: likewise without resets and cancelled opens.
- Refinement.HandleMirrors: receive windows are not compared, since Link does not follow WINDOW_UPDATE; Accounts.ReadAccount gives them.
- MuxSessions.MuxSession.DrainTurn: the arm for the end of the connection is not modelled.
- Delivery.WrongParityNever: its runs have no resets or cancelled opens; MuxPair.OwnParityNeverRequested has them, at the coarser grain.
- MuxPair.ResetsAreBounded: starts from any pair with the invariant; MuxPair.ResetsNeverOutnumberStreams starts from connection.
- MuxPair.ResetsTerminate: starts from any pair with the invariant; MuxPair.ResetsEnd starts from connection.
- Wire.BytesInFlight: writing and reading single bytes are not steps of the link; Wire.CutInFlight covers every cut of the bytes instead.
- StreamSessions.StreamSession.Write: one step on the object; the gap between its check and its push, and the select arm for closedCh that can be taken there, are steps of Flow.
- MuxSessions.MuxSession.OpenStreamWithPayload: ends where the wait begins; the answer is HandleStreamOpen, the cancelled wait CancelOpen, and a successful return is the acked session of Link.
- MuxSessions.MuxSession.HandleStreamOpen: the accept channel has no capacity, so a handler that waits for room in it is not modelled.
- MuxSessions.MuxSession.AcceptStream: a cancelled context and a closed session are not modelled.
- MuxSessions.MuxSession.HandleFrame: a pong changes nothing here, because ping timing is not modelled.
- Per-stream receive windows as a limit: the code counts them and never waits on them.
- Ping timing, heartbeats, reconnection and the IP rate limiter.
- Wrong-version and oversize frames as endings of the read loop: the codec rejects them, the loop then closes the session.
- AdminServers.AdminServer.Reload: without the restart-required part of the summary, which only compares strings.
- AdminServers.AdminServer.ApplyReload: likewise without the restart-required part of the summary.
- Listener bookkeeping: starting and stopping sockets has no effect on the table beyond the outcome of a start.
- TLS, certificates, HTTP, logging, metrics and audit.
- The agent, the registry, request routing and the UDP payload helpers.
- Flow.DrainCompletes: gives the run that ends the drain; that the goroutine is scheduled is not modelled.
- AdminServers.AdminServer.ApplyRateLimitChanges: rates are real numbers, so not-a-number is not modelled.
