# Verification of the tunnel's data plane

A reverse tunnel multiplexes many public TCP connections and UDP peers over a
few WebSocket data channels between a server and an agent. This project models
the bookkeeping, the flow control, the clean-up and the ownership rules of that
data plane, and proves what they keep, in Dafny 4.11. `dafny verify
dfyconfig.toml` checks everything.

Two kinds of model stand side by side. Where the source updates fields or runs
a loop, there is a class or a method with a loop, proved against a
specification. Where several tasks share state, there is a transition system
whose step is one lock-held region or one queue operation, so every
interleaving of the source's locks is a run; theorems about it are over all
runs or all reachable states.

| module | what it models |
|---|---|
| `Wrappers` | `Option` and `Result` |
| `Framing` | binary stream frames: stream id and payload |
| `Registry` | the server's maps and its two indexes, as values |
| `DataPlane` | the server's `DataPlane` object, each helper undisturbed |
| `RegistryMachine` | the same helpers taken apart at their locks, in any interleaving, with inserts and removals that may be aborted |
| `RegistryRuns` | what those regions achieve one after the other: admission, insert, removal |
| `SharedQueue` | the sending half of a data channel: bridges, quota, wake-ups, shared queue, writer (server and agent alike) |
| `Upstream` | agent to public client: a `SharedQueue`, the wire, the server's router, the per-stream queues and writers |
| `PendingBuffer`, `Downstream` | public client to local service: the agent's buffer for frames that beat their `StreamOpen` |
| `TokenBucket` | the bandwidth limiter, over reals |
| `Connections` | one device's control connections: session, heartbeat, restart banner |
| `ChannelPool` | one device's data channels: binding, dropping, and the teardown that ends a control connection |
| `Listeners` | listener generations |
| `Flusher` | the heartbeat flusher |
| `Enrollment` | taking a pending enrollment |
| `Credentials` | the agent's credentials file |

## What goes right

Safety alone would hold of a system that does nothing, so each protocol also has
theorems about what it achieves, told by what a reader of the state sees.

- A stream is admitted if and only if its tunnel has room, every number of
  streams up to the limit is reachable, and a stream or session that came and
  went leaves no trace (`RegisterAdmitsIff`, `EveryCountReachable`,
  `StreamRoundTrip`, `SessionRoundTrip`).
- A bridge whose queue has room gets its chunk onto the socket
  (`ChunkCanBeSent`), whatever a local service says can reach the public client
  in full (`EverythingCanArrive`), and what a public client says can reach the
  local service (`EverythingCanBeDelivered`).
- The limiter's tokens obey a conservation law: what is credited is granted,
  kept or cut at the cap (`RunConserves`).
- A teardown left alone closes exactly what its connection has bound
  (`TeardownAchieves`), and collects nothing else however it is interrupted
  (`SnapshotCollectsOwn`, `InHandWasOwned`, `TeardownMissesNone`).
- Restarts come back (`RestartComesUp`), a stopped tunnel can be started again
  (`StopThenStart`), an approval makes one device and reaches its agent
  (`ApprovalAchieves`), and a save keeps every key it does not mention
  (`SaveHolds`, `SavesKeepLastUpdate`).

## Where the code does not keep what its comments promise

Each of these is a run or an input of the model, together with the exact
condition under which the promise holds.

- An aborted UDP listener can stop in the middle of `insert_udp_session`. Its
  unit of load then stays counted for good, and a peer it had indexed never
  gets a session again (`AbortLeaks`, `LeakIsPermanent`). An abort in the middle
  of `remove_udp_session` leaves the peer in the index as well
  (`AbortedRemovalReachable`). At quiescence a counter is exact if and only if no
  such insert is left behind (`LoadIsScanIffNoLeak`), and the peer index if and
  only if neither is (`PeerIndexIsScanIffNoLeak`).
- `acquire_stream_slot` drops the slot's lock before it enrols for the wake-up,
  and `notify_waiters` stores no permit. If all sixteen frames leave in that gap
  the bridge sleeps on (`LostWakeupReachable`); it can wake if and only if one
  of its frames was still outstanding when it enrolled
  (`EnrolWakesIffOutstanding`). With both in one step no wake-up is ever lost
  (`AtOnceNeverLosesWakeup`).
- Closing a stream can strand its bridge after all, although the comment on
  `remove_stream_entry` says it cannot: a bridge in that same gap enrols after
  the last notification, and then only its own abort ends its wait
  (`StrandedReachable`). A remover that is aborted before it resets the slot
  strands even a bridge that was asleep before (`AbandonedReachable`). A sleeping
  bridge can be woken if and only if its slot may still be reset or the writer is
  about to notify it (`SleeperWakesIff`). A close that resets the slot can strand
  the bridge if and only if it stands in the gap (`ResetStrandsIffInGap`), one that
  is cut short also if it sleeps or is about to look at a full slot
  (`AbandonStrandsIff`).
- The end of a response can be lost. `StreamClose` goes over the control socket
  and can overtake data frames (`CloseOvertakesData`), and when the public
  client half-closes, its write task is aborted over whatever it has not written
  (`HalfCloseLosesResponse`). A lost data channel takes what is in transit with it
  (`CutLosesTransit`). Once a stream is at rest, the client has everything if and
  only if no step of the run was one of those that lose bytes
  (`Upstream.CompleteIffNothingLost`). The other direction is the same
  (`LocalCloseLosesRequest`, `Downstream.CompleteIffNothingLost`).
- The agent inserts a stream before it flushes the pending frames. A frame that
  comes in between overtakes them (`OvertakenFlush`); a run keeps order and
  completeness if and only if it takes none of the racing steps
  (`InOrderIffRaceFree`), and one handler at a time never takes one
  (`ExclusiveHandlersKeepOrder`).
- The same handler fills a queue of 64 before the bridge that drains it exists.
  With 65 frames pending the control reader is stuck (`StuckOpenReachable`); it
  can go on if and only if the frames fit (`OpenCompletesIffFits`).
- A cleanup or a status poll may write `restarting` after a newer connection has
  marked the restart online (`LateWriteReachable`,
  `BannerRightIffNoLateWrite`).
- A stale control loop can drop the heartbeat state of a newer connection: it
  handles one more heartbeat, which makes the entry its own, and then cleans up
  (`EntryLostReachable`). A clean-up removes the device's entry if and only if
  its own heartbeat was the last one written (`CleanupRemovesEntryIff`).
- `teardown_device_data_channels` collects ids first, and later, by id, closes
  their streams, unbinds them and aborts their readers; at the end it looks whether
  the device's entry is empty and then removes the whole entry under another lock.
  A data socket that ends acts by id too. An id bound again in between belongs to
  somebody else (`ForeignTearReachable`, `ForeignAbortReachable`,
  `ForeignSweepReachable`, `ForeignDropReachable`). The clean-up of a connection
  and its sockets harms no other if and only if none of its steps acts on what is
  another's by then (`CleanupHarmlessIff`); over runs, that is: the id was not
  rebound (`TearOneIsOwnIffNotRebound`, `DropIsOwnIffNotRebound`), no other's
  stream is left on it (`CloseStreamsIsOwnIffNoneLeft`,
  `CloseCarriedIsOwnIffNoneLeft`), no other's reader is listed under it
  (`AbortTaskIsOwnIffNoneListed`), and no id was bound between the look at the
  empty entry and its removal (`SweepIsOwnIffNoneRebound`).
- `finish_listener` checks under one lock and removes under another
  (`OrphanReachable`). An entry that is not given up survives a run if and only if
  no such removal hits it (`EntrySurvivesIffNotStolen`). The model has no ports: on a TCP tunnel
  the exiting task still holds the port, so the run shown is one of a UDP tunnel.
- Listener generations are unique if and only if fewer than 2^64 are drawn: the
  counter wraps before the `saturating_add` (`GenerationsUniqueIff`).
- An approved device can exist although its agent was told `expired`: the timer
  can win while the approver holds the entry (`DeviceWithoutAgent`) and even when
  the decision has been sent (`SentButExpired`), and the approver's handler can be
  dropped with its client before it sends (`DroppedAfterCreate`). The agent is told
  if and only if neither the timer nor the socket ended the wait and no such drop
  happened (`ApprovalReachesAgentIff`).
- Dropping a device's token bucket when a session ends gives the device a second
  full budget (`RecreationDoubles`); a window is bounded by the number of buckets
  used in it (`DeviceWindowBound`).
- The limiter never grants more than one second's budget at once
  (`LoneAcquireTerminatesIff`); every chunk in the source is below it
  (`ChunksAlwaysPass`).
- `pick_data_channel` walks a hash map, so of several least loaded channels any
  may be chosen; its comment's lowest id is not decided by the code.

## Model

| member | source | states |
|---|---|---|
| Framing.EncodeStreamData | crates/protocol/src/lib.rs:191-199 | succeeds exactly when header and payload fit a frame, and the frame parses back to the same id and payload |
| Framing.DecodeStreamData | crates/protocol/src/lib.rs:201-208 | fails exactly when the length is out of range; otherwise the frame is the encoding of the id and payload returned |
| Framing.ParseOfFrame | crates/protocol/src/lib.rs:191-208 | decode after encode is the identity for every id and payload that fits |
| Framing.FrameOfParse | crates/protocol/src/lib.rs:201-208 | encode after decode is the identity: two frames never carry the same id and payload |
| Framing.ChunkAlwaysFrames | crates/protocol/src/lib.rs:9-11 | no chunk a bridge reads is too large for a frame |
| Framing.FromToBigEndian | crates/protocol/src/lib.rs:196 | big-endian bytes of a width hold every number below that width's bound |
| Framing.ToFromBigEndian | crates/protocol/src/lib.rs:205-207 | any bytes are the big-endian form of their value, which is below the bound |
| Framing.ByteOrder | crates/protocol/src/lib.rs:196 | the byte at place i of w counts the powers of 256 to w - 1 - i: most significant first |
| DataPlane.DataPlane.constructor | crates/server/src/main.rs:233-250 | an empty registry is consistent |
| DataPlane.DataPlane.ChannelLoad | crates/server/src/main.rs:427-433 | the counter read is the number of streams and sessions a full scan would find on the channel |
| DataPlane.DataPlane.InsertUdpSession | crates/server/src/main.rs:464-474 | both indexes agree with a scan again once the session is visible |
| DataPlane.DataPlane.RemoveUdpSession | crates/server/src/main.rs:478-490 | removes one session, both indexes agree with a scan afterwards, and an unknown id changes no session |
| DataPlane.DataPlane.TryRegisterStream | crates/server/src/main.rs:503-534 | admits exactly while the tunnel's streams are below the limit, never passes it, keeps the indexes exact |
| DataPlane.DataPlane.RemoveStreamEntry | crates/server/src/main.rs:575-586 | removes one stream and keeps the indexes exact |
| DataPlane.DataPlane.PickDataChannel | crates/server/src/main.rs:691-719 | a channel of the current connection that no other beats on load; none exactly when there is none |
| DataPlane.DataPlane.PlaceStream | crates/server/src/main.rs:5610-5653 | refuses exactly when no channel is eligible or the tunnel is full; otherwise one least loaded channel carries one more |
| DataPlane.ArrivalsStayBalanced | crates/server/src/main.rs:711-718 | over any run of arrivals the channels' loads never differ by more than max(1, initial spread) |
| DataPlane.DataPlane.CloseTcpStreams | crates/server/src/main.rs:770-780 | exactly the collected streams go, each id once, the indexes stay exact |
| DataPlane.DataPlane.CloseUdpSessions | crates/server/src/main.rs:781-791 | exactly the collected sessions go, each id once, the indexes stay exact |
| DataPlane.DataPlane.CloseChannelStreams | crates/server/src/main.rs:769-793 | only the channel's own streams and sessions go, each id is returned once, its load ends at 0, every other load and peer stays |
| DataPlane.LoadsAfterClose | README.md:55 | consistency before and after a close forces the closed channel's load to 0 and leaves all other loads |
| DataPlane.PeersAfterClose | README.md:55 | consistency before and after a close forces the peers of all other channels to stay as they were |
| DataPlane.DataPlane.BindChannel | crates/server/src/main.rs:5034-5053 | fails exactly when all ids are taken; otherwise binds the least free id in 1..max under the given connection |
| DataPlane.FreeIdExists | crates/server/src/main.rs:5037-5044 | once the length check passes, the search for a free id cannot fail |
| DataPlane.WithinRangeSize | crates/server/src/main.rs:5037-5039 | a device never has more channels than the maximum, so the 16-bit length does not wrap |
| DataPlane.DataPlane.DropChannel | crates/server/src/main.rs:5182-5200 | the dropped channel and what it carried go, nothing of any other channel or device |
| DataPlane.DataPlane.TeardownDeviceDataChannels | crates/server/src/main.rs:797-868 | undisturbed, exactly the channels bound under the ended connection go, with exactly what they carried |
| RegistryMachine.ReachableInv | crates/server/src/main.rs:464-586 | counters, peer index, listeners and limits are exact in every reachable state of the lock-level interleavings |
| RegistryMachine.KeepsLoads | crates/server/src/main.rs:425-458 | every locked region moves a counter exactly with the id that accounts for it |
| RegistryMachine.KeepsIndex | crates/server/src/main.rs:464-490 | every locked region keeps the peer index one entry per accountable id, without empty inner maps |
| RegistryMachine.KeepsListeners | crates/server/src/main.rs:5823-5903 | between limit check and insert, a listener's room for its peer stays free |
| RegistryMachine.KeepsLimits | crates/server/src/main.rs:512-519 | no locked region pushes sessions or streams past a tunnel's limit |
| RegistryMachine.LoadEquation | crates/server/src/main.rs:425-586 | in every reachable state the counter is the scan of both maps plus removals not yet decremented plus inserts not yet visible |
| RegistryMachine.SubtractionNeverClamps | crates/server/src/main.rs:446-457 | the saturating subtraction never meets a zero |
| RegistryMachine.LimitsHold | crates/server/src/main.rs:512-519 | sessions per tunnel and streams per device and tunnel stay within `max_connections` in all interleavings |
| RegistryMachine.LoadIsScanIffNoLeak | crates/server/src/main.rs:464-474 | at quiescence a channel's counter equals the scan if and only if no insert for it was aborted half-way |
| RegistryMachine.PeerIndexIsScanIffNoLeak | crates/server/src/main.rs:460-490 | at quiescence the peer index is exactly the sessions if and only if no insert was aborted after its index write and no removal before its own |
| RegistryMachine.LeakIsPermanent | crates/server/src/main.rs:5735-5738 | whatever runs later, an aborted insert keeps its load counted, and a peer that an aborted insert or removal left in the index never has a session |
| RegistryMachine.AbortLeaks | crates/server/src/main.rs:5735-5738 | such a state is reachable with both maps empty |
| RegistryMachine.AbortedRemovalReachable | crates/server/src/main.rs:478-490 | a removal aborted before its index write leaves a peer entry with no session, no stream and no load |
| RegistryRuns.RegisterAdmitsIff | crates/server/src/main.rs:512-534 | a stream is admitted if and only if its device has fewer streams of the tunnel than the limit; then it is in the map as asked and only its channel carries one more, otherwise nothing changes |
| RegistryRuns.StreamRoundTrip | crates/server/src/main.rs:515-586 | registering, removing and counting down leaves every map, load and peer as it was |
| RegistryRuns.EveryCountReachable | crates/server/src/main.rs:512-519 | for every number up to the limit a reachable state has exactly that many streams of the tunnel |
| RegistryRuns.RefusedAtLimit | crates/server/src/main.rs:512-519 | at the limit the next stream is refused |
| RegistryRuns.ListenerAdmitsIff | crates/server/src/main.rs:5823-5843 | a datagram gets past its listener exactly when its peer has no session and the tunnel has room |
| RegistryRuns.InsertAchieves | crates/server/src/main.rs:464-474 | an insert run to its end brings its session, its peer and one unit of load, and nothing else |
| RegistryRuns.RemovalAchieves | crates/server/src/main.rs:478-490 | a removal run to its end takes exactly those away |
| RegistryRuns.SessionRoundTrip | crates/server/src/main.rs:464-490 | a session that came and went leaves no trace in any map |
| SharedQueue.StepKeepsInv | crates/server/src/main.rs:539-586 | every step of bridges, writer and removals keeps the accounting of all streams at once |
| SharedQueue.QuotaIsExact | crates/server/src/main.rs:356-360 | `outstanding` is the stream's frames queued, held by its bridge or dequeued and unreleased, at most 16; the queue holds at most 128 |
| SharedQueue.ReleaseClampsOnlyUdp | crates/agent/src/main.rs:3365-3375 | giving a slot back never saturates for a registered TCP stream |
| SharedQueue.SentIsPrefixOfRead | crates/server/src/main.rs:5683-5715 | what reached the socket is a prefix of what the bridge read, and the rest is in line in order |
| SharedQueue.LostForever | crates/server/src/main.rs:544-552 | asleep without a frame of its own, a bridge is not woken by anything but its removal |
| SharedQueue.WokenInTime | crates/server/src/main.rs:559-571 | asleep with a frame of its own, a bridge is woken within that frame's distance, at most 128 dequeues |
| SharedQueue.WriterWakes | crates/server/src/main.rs:5068-5088 | the writer alone can always bring that wake-up about |
| SharedQueue.EnrolWakesIffOutstanding | crates/server/src/main.rs:544-552 | an enrolling bridge can wake again if and only if one of its frames is still outstanding |
| SharedQueue.CheckAndEnrolAtOnce | crates/server/src/main.rs:544-552 | with look and enrolment in one step sixteen frames are outstanding |
| SharedQueue.DrainInGap | crates/server/src/main.rs:5068-5088 | from any reachable gap the writer can empty the queue before the bridge enrols |
| SharedQueue.LostWakeupReachable | crates/server/src/main.rs:544-552 | the lost wake-up is a reachable state |
| SharedQueue.RemovalWakesSleeper | crates/server/src/main.rs:573-586 | after the removal has woken a sleeping bridge, in every continuation its acquire fails: the first thing it does is end, without a slot and with its chunk in hand |
| SharedQueue.SleeperWakesIff | crates/agent/src/main.rs:3339-3375 | some run short of its own abort wakes a sleeping bridge if and only if its slot may still be reset or the writer is about to notify it |
| SharedQueue.ClosedStrandsIff | crates/server/src/main.rs:539-586 | the bridge of a closed stream can strand if and only if it sleeps unnotified, stands before its enrolment, or is about to look at a full slot |
| SharedQueue.ResetStrandsIffInGap | crates/agent/src/main.rs:3408-3417 | a close that resets the slot can strand the bridge if and only if the bridge is between its look at the slot and its enrolment |
| SharedQueue.AbandonStrandsIff | crates/server/src/main.rs:575-586 | a close whose remover is aborted before the reset can strand it in exactly two more places |
| SharedQueue.AsleepOnceClosedStays | crates/agent/src/main.rs:3356-3359 | asleep on a closed stream with no notification under way, a bridge stays asleep in every run without its abort |
| SharedQueue.StrandedReachable | crates/server/src/main.rs:573-586 | on either side a bridge stranded by the gap is reachable |
| SharedQueue.AbandonedReachable | crates/server/src/main.rs:832-839 | on either side so is one stranded in its sleep by an aborted remover, sixteen frames of its own queued |
| SharedQueue.AtOnceNeverLosesWakeup | crates/server/src/main.rs:544-552 | in every run whose looks at a full slot are followed at once by their enrolment, a sleeping live bridge has a frame to come and is woken within 128 dequeues |
| SharedQueue.ChunkCanBeSent | crates/server/src/main.rs:5683-5715 | from every state the invariants allow in which a live bridge is ready to read, some run of it and the writer puts its next chunk on the socket behind all that was queued, and it is ready again |
| SharedQueue.UnslottedCanBeSent | crates/server/src/main.rs:5068-5088 | text frames and datagrams, which take no slot, reach the socket too |
| SharedQueue.SlotlessSends | crates/server/src/main.rs:5669-5710 | a bridge that looks for its slot once its stream is gone still queues its chunk, taking no slot, and one that finds its stream has to ask |
| SharedQueue.GrantsIffBelowQuota | crates/server/src/main.rs:544-550 | a look at the slot grants one if and only if fewer than sixteen of the stream's own frames are queued or unreleased |
| Upstream.WritePublic | crates/server/src/main.rs:5538-5562 | a prefix of the data is handed over, each byte once; it gives up if and only if some attempt is a failure, a zero write or a look that finds the stream gone, and the attempts before the first such one have less room than there is data |
| Upstream.DoKeeps | crates/server/src/main.rs:5100-5146 | every step of agent, wire, router, queues and writers keeps all streams' bytes accounted for and in order |
| Upstream.NothingIsInvented | crates/server/src/main.rs:588-632 | what reached the server, lost frames included, followed by what is still outside, is what the agent read |
| Upstream.Conservation | crates/agent/src/main.rs:3239-3269 | while the server has the stream: written, remainder, stream queue, transit, agent queue and bridge chunk together are the bytes read, unless the channel was cut with a frame in its reader's hands |
| Upstream.WrittenIsPrefixOfRead | crates/server/src/main.rs:5674-5682 | after any close anywhere the client has a prefix of the bytes read |
| Upstream.LossStep | crates/server/src/main.rs:588-632 | bytes of a stream are lost by exactly the guarded losing steps, and never come back |
| Upstream.CompleteIffNothingLost | crates/server/src/main.rs:5674-5728 | over every run, once a stream is at rest the client has every byte if and only if no step lost one |
| Upstream.NothingAfterStop | crates/server/src/main.rs:5728 | a write task that has ended writes nothing more, in any continuation |
| Upstream.HalfCloseLosesResponse | crates/server/src/main.rs:5687-5728 | a reachable run in which the client half-closes, nothing is dropped on the way, and it never gets the response |
| Upstream.CloseOvertakesData | crates/agent/src/main.rs:3270-3272 | a reachable run in which the close overtakes the only byte and the client gets nothing |
| Upstream.CutLosesTransit | crates/server/src/main.rs:5181-5200 | a reachable run in which the lost channel takes the only byte, and the stream is still registered |
| Upstream.EverythingCanArrive | crates/agent/src/main.rs:3239-3269 | whatever the local service says, a run without loss ends with all of it written to the public client |
| Upstream.TakesEvery | crates/server/src/main.rs:5100-5146 | the reader takes every frame and has it in hand if and only if its stream is registered; nothing but a dropped frame of a removed stream shows otherwise |
| Upstream.NothingAfterRemoval | crates/server/src/main.rs:5100-5146 | a stream the server has removed gets nothing more, in any continuation, once its reader has no frame of it in hand |
| Upstream.GivenUpLosesResponse | crates/server/src/main.rs:588-632 | a reachable run in which a send times out and the client gets nothing |
| Upstream.AbortedReaderLosesResponse | crates/server/src/main.rs:5181-5200 | a reachable run in which the aborted reader holds the only byte, and the stream is still registered |
| PendingBuffer.PendingMap.BufferPendingFrame | crates/agent/src/main.rs:3087-3115 | dropped exactly past the hard limit, warned about exactly when the budget is crossed, and the byte count stays exact |
| PendingBuffer.PendingMap.TakePending | crates/agent/src/main.rs:2569-2574 | hands over the frames in arrival order and forgets the entry |
| PendingBuffer.BufferedExactly | crates/agent/src/main.rs:3079-3115 | for any arrivals: exact bounded count, an in-order subsequence, and nothing dropped if and only if all of them fit |
| Downstream.InOrderIffRaceFree | crates/agent/src/main.rs:2543-2614 | on an open stream every arrived frame is kept in order if and only if the run takes no racing step |
| Downstream.ExclusiveHandlersKeepOrder | crates/agent/src/main.rs:3126-3177 | with one handler at a time, no expiry and arrivals within the limit: always a prefix, and nothing missing while the stream is open |
| Downstream.WrittenIsPrefixOfArrived | crates/agent/src/main.rs:3208-3238 | without a racing step the local service gets a prefix of the arrived bytes, closes included |
| Downstream.EndToEndPrefix | crates/server/src/main.rs:5683-5715 | from any reachable state of the server's channel, the local service has a prefix of what the public client sent |
| Downstream.FramesCarryPayloads | crates/agent/src/main.rs:3059-3077 | the frames of one stream on the wire carry exactly its bytes, whatever else shares the channel |
| Downstream.OpenCompletesIffFits | crates/agent/src/main.rs:2575-2584 | the `StreamOpen` handler can complete if and only if the pending frames fit the stream queue |
| Downstream.StuckOpenReachable | crates/agent/src/main.rs:2575-2584 | more than 64 frames ahead of `StreamOpen` block the handler in every continuation |
| Downstream.OvertakenFlush | crates/agent/src/main.rs:2546-2579 | a run at the code's granularity that delivers the second frame before the first |
| Downstream.CompleteIffNothingLost | crates/agent/src/main.rs:3208-3272 | for every run, closes and all, once the stream is at rest the local service has every frame in order if and only if no step lost a frame or the order |
| Downstream.LocalCloseLosesRequest | crates/agent/src/main.rs:3270-3272 | a run without any race in which the local service half-closes and never gets the request |
| Downstream.EverythingCanBeDelivered | crates/agent/src/main.rs:2543-2584 | however many frames precede `StreamOpen`, within the queue and the hard limit, some run without loss writes all of them in order |
| Downstream.UnregisterCloses | crates/agent/src/main.rs:3270-3272 | after the bridge has taken its stream out, nothing more is queued for it in any continuation |
| Downstream.GiveUpCloses | crates/agent/src/main.rs:3059-3077 | nor after the router has given a frame up |
| Downstream.LateFrameExpires | crates/agent/src/main.rs:3087-3115 | a frame for a closed stream waits in the buffer and expires without a trace |
| TokenBucket.Limiter.constructor | crates/server/src/main.rs:936-950 | a new bucket holds one second's budget |
| TokenBucket.Limiter.Refill | crates/server/src/main.rs:919-924 | tokens stay between 0 and one second's worth, grow by no more than the time passed at the rate in force, and by exactly that below the cap |
| TokenBucket.Limiter.Acquire | crates/server/src/main.rs:907-934 | the loop ends in the bucket and at the turn of the account of its readings; without a rate it returns at once and takes nothing |
| TokenBucket.LoopIsRun | crates/server/src/main.rs:907-934 | that account is a run of turns in which nothing is admitted before the last one, and then exactly the request |
| TokenBucket.TurnConserves | crates/server/src/main.rs:919-927 | in every turn: tokens before plus what is credited equals tokens after plus bytes admitted plus what is cut at the cap |
| TokenBucket.RunConserves | crates/server/src/main.rs:919-927 | the same balance over every run of any callers |
| TokenBucket.OneInstantSpends | crates/server/src/main.rs:919-927 | at one instant and rate, tokens fall by exactly the bytes admitted, and requests that fit together are all granted |
| TokenBucket.SleepIsExact | crates/server/src/main.rs:929-931 | a turn before the end of the sleep would be refused, and one at its end is granted unless the half-second cap cut the sleep short |
| TokenBucket.TokensStayInBounds | crates/server/src/main.rs:923-926 | in every run of any callers with rates in 1..M, tokens stay between 0 and 125000 M |
| TokenBucket.WindowBound | crates/server/src/main.rs:907-934 | in any window of length T at most 125000 M (1 + T) bytes are admitted, whoever asks and however the rate changes |
| TokenBucket.DeviceIsSum | crates/server/src/main.rs:936-950 | what a device's callers are granted over any interleaving is the sum over the buckets they use, each looked at alone |
| TokenBucket.DeviceWindowBound | crates/server/src/main.rs:953-958 | a device whose callers use n buckets in a window of length T is admitted at most n times 125000 M (1 + T) bytes |
| TokenBucket.RecreationDoubles | crates/server/src/main.rs:953-958 | with one recreation two full budgets pass at the same instant, so the single bucket's bound fails for the device |
| TokenBucket.GrantedAfterTwoSleeps | crates/agent/src/main.rs:426-451 | a lone request within one second's budget is granted after at most two sleeps |
| TokenBucket.NeverGranted | crates/agent/src/main.rs:441-449 | a larger one is refused at every turn |
| TokenBucket.LoneAcquireTerminatesIff | crates/agent/src/main.rs:441-449 | at a fixed rate a lone request ends after at most two sleeps if and only if it is within one second's budget |
| TokenBucket.ChunksAlwaysPass | crates/server/src/main.rs:5683-5689 | every TCP chunk and UDP datagram is granted after at most two sleeps at any rate of 1 Mbps or more |
| Connections.SessionIsLatestUnlessEnded | crates/server/src/main.rs:379-391 | in every reachable state the session is the latest connection exactly until that connection itself ends |
| Connections.HeartbeatOwnerIff | crates/server/src/main.rs:4678-4689 | over any run the entry is a connection's at the end if and only if its heartbeat was the last write and nothing took the entry since |
| Connections.HeartbeatSurvives | crates/server/src/main.rs:393-408 | a connection that neither beats again nor ends keeps its entry if and only if no other connection beats and nothing is pruned: another's clean-up alone never takes it |
| Connections.CleanupRemovesEntryIff | crates/server/src/main.rs:4756-4759 | a clean-up leaves the device without an entry if and only if its own heartbeat was the last one written |
| Connections.EntryLostReachable | crates/server/src/main.rs:4675-4759 | a reachable state in which the registered connection has beaten and an older one's clean-up has removed the entry |
| Connections.BannerRightIffNoLateWrite | crates/server/src/main.rs:4745-4755 | a connected and marked device is never shown as restarting if and only if no late write happens |
| Connections.LateWriteReachable | crates/server/src/main.rs:4362-4377 | the late write is a reachable run |
| Connections.RestartGoesDown | crates/server/src/main.rs:4728-4759 | a requested restart and the end of its connection leave the device without session, shown as restarting, its heartbeat gone if it was its own |
| Connections.RestartComesUp | crates/server/src/main.rs:4618-4629 | the next connection is the session, has the heartbeat and marks the restart online |
| Connections.PollDecides | crates/server/src/main.rs:2961-2993 | the poll of an online restart ends it as done exactly when its first look finds a session, and shows it as restarting otherwise |
| Connections.RestartEnds | crates/server/src/main.rs:2975-2992 | a restart out of time or not sent fails, and exactly the finished ones are forgotten |
| ChannelPool.UndisturbedIdIsOwn | crates/server/src/main.rs:798-831 | an id keeps meaning the same connection's channel until somebody frees it |
| ChannelPool.SnapshotCollectsOwn | crates/server/src/main.rs:798-809 | after its snapshot a teardown can close the streams of exactly the ids bound under its own connection |
| ChannelPool.InHandWasOwned | crates/server/src/main.rs:797-853 | over any run, every id it ever acts on was its own at the snapshot |
| ChannelPool.TeardownMissesNone | crates/server/src/main.rs:797-868 | over any run, when it looks at the entry or has finished it has closed every id bound under its connection at the snapshot |
| ChannelPool.TeardownAchieves | crates/server/src/main.rs:797-868 | undisturbed, it ends with all its channels, their streams and their listed readers gone, and every other untouched |
| ChannelPool.BindAchieves | crates/server/src/main.rs:5023-5053 | a socket gets any free id, and no other, under the connection that was registered when it looked |
| ChannelPool.EndAchieves | crates/server/src/main.rs:5181-5211 | a socket that ends takes its channel, its streams and its reader along |
| ChannelPool.PlaceAchieves | crates/server/src/main.rs:5613-5653 | a new stream goes onto exactly the channels of the registered connection, and can be taken out again |
| ChannelPool.ForeignIff | crates/server/src/main.rs:5034-5053 | over any run an id is bound under another connection at the end if and only if it was so bound and not freed since |
| ChannelPool.ForeignStreamIff | crates/server/src/main.rs:5623-5653 | over any run another connection's stream is on an id at the end if and only if it was registered there and not removed since |
| ChannelPool.ForeignTaskIff | crates/server/src/main.rs:5205-5218 | over any run another connection's reader is listed under an id at the end if and only if it was listed and neither ended nor replaced since |
| ChannelPool.TearOneIsOwnIffNotRebound | crates/server/src/main.rs:797-831 | from its snapshot on, over any run, a teardown unbinds only its own channel if and only if the id was not rebound under another connection and left bound |
| ChannelPool.CloseStreamsIsOwnIffNoneLeft | crates/server/src/main.rs:797-824 | from its snapshot on, over any run, a teardown closes only its own streams if and only if no other connection's stream is left on the id |
| ChannelPool.AbortTaskIsOwnIffNoneListed | crates/server/src/main.rs:832-839 | from its snapshot on, over any run, a teardown aborts only its own reader if and only if no other connection's is listed under the id by then |
| ChannelPool.SweepIsOwnIffNoneRebound | crates/server/src/main.rs:857-867 | from its look at the empty entry on, over any run, the entry's removal takes nobody's channel if and only if no id was rebound under another connection and left bound |
| ChannelPool.DropIsOwnIffNotRebound | crates/server/src/main.rs:5194-5200 | from its bind on, over any run, a socket that drops unbinds only its own channel if and only if the id was not rebound under another connection |
| ChannelPool.CloseCarriedIsOwnIffNoneLeft | crates/server/src/main.rs:5181-5182 | from its bind on, over any run, a socket that drops closes only its own streams if and only if no other connection's is left on the id |
| ChannelPool.CleanupSparesIff | crates/server/src/main.rs:797-868 | each clean-up step of a connection's teardown and of its sockets spares all others if and only if it does not strike |
| ChannelPool.CleanupHarmlessIff | crates/server/src/main.rs:797-868 | over any run, the whole clean-up of a connection harms no other if and only if none of its steps strikes |
| ChannelPool.ForeignTearReachable | crates/server/src/main.rs:797-831 | an old connection's teardown can hold the id of a newer connection's channel with a stream on it |
| ChannelPool.ForeignAbortReachable | crates/server/src/main.rs:832-839 | it can be about to abort a newer connection's reader |
| ChannelPool.ForeignSweepReachable | crates/server/src/main.rs:857-867 | with every id its own, its last step can still remove a newer connection's channel |
| ChannelPool.ForeignDropReachable | crates/server/src/main.rs:5194-5200 | an old socket can be about to unbind a newer connection's channel |
| Listeners.GenerationsUniqueIff | crates/server/src/main.rs:5417-5422 | generations are all different if and only if fewer than 2^64 are drawn |
| Listeners.OneOwnerPerGeneration | crates/server/src/main.rs:5411-5438 | no two calls or tunnels share a generation, even when installs happen out of draw order |
| Listeners.EntrySurvivesIffNotStolen | crates/server/src/main.rs:5411-5464 | over any run in which a listener is not given up, its entry is there at the end if and only if no other task removed it on an outdated check |
| Listeners.ChecksAtOnceNeverSteal | crates/server/src/main.rs:5453-5464 | with check and removal in one step, no run ever removes another task's entry |
| Listeners.OrphanReachable | crates/server/src/main.rs:5453-5464 | an exiting task can remove the entry of a newer listener that goes on running |
| Listeners.StartInstallsIff | crates/server/src/main.rs:5411-5438 | a start installs its task under a new generation if and only if the tunnel has no listener |
| Listeners.ExitRemovesIff | crates/server/src/main.rs:5453-5464 | undisturbed, an exiting task removes its entry if and only if it is still its own |
| Listeners.AbortedNeverRemoves | crates/server/src/main.rs:5735-5738 | an aborted task leaves its entry, and in no continuation removes one |
| Listeners.StaleRemovedIff | crates/server/src/main.rs:5443-5448 | the starter removes the entry if and only if it is still of its generation |
| Listeners.StopThenStart | crates/server/src/main.rs:5411-5438 | after a stop the next start installs a new listener |
| Flusher.OwedMeaning | crates/server/src/main.rs:4418-4422 | owed means pruned with no successful write and no reappearance since |
| Flusher.Flusher.FlushDeviceOffline | crates/server/src/main.rs:4384-4408 | settles a device exactly when it is back in the map or its write succeeds |
| Flusher.Flusher.RetryPending | crates/server/src/main.rs:4429-4434 | keeps exactly the devices whose retry failed, and forgets nobody who is owed |
| Flusher.Flusher.Prune | crates/server/src/main.rs:4436-4447 | exactly the stale entries go, and each of them is owed from then on |
| Flusher.Flusher.FlushStale | crates/server/src/main.rs:4451-4458 | all that are owed are pending afterwards, without duplicates |
| Flusher.Flusher.Tick | crates/server/src/main.rs:4425-4458 | after every tick, whatever fails and whoever returns, the pending list is exactly the devices still owed, each once |
| Enrollment.ConsumedOnce | crates/server/src/main.rs:3603-3631 | for all interleavings one request takes the entry, at most one device and one answer exist, and the answer matches what was done |
| Enrollment.ApprovalReachesAgentIff | crates/server/src/main.rs:3612-3631 | in every run that created the device and ended the wait, the agent was told `approved` if and only if neither the timer nor the socket ended it and the approver's handler was not dropped after the creation |
| Enrollment.DeviceWithoutAgent | crates/server/src/main.rs:4929-4936 | a reachable run in which the device exists and the agent was told `expired` |
| Enrollment.SentButExpired | crates/server/src/main.rs:4914-4938 | the same with the approval already sent: the loop takes the timer's arm |
| Enrollment.DroppedAfterCreate | crates/server/src/main.rs:3612-3631 | a reachable run in which the handler is dropped after the creation and the agent is told `expired` |
| Enrollment.TakesIffThere | crates/server/src/main.rs:3603-3608 | a request takes the entry if and only if it is still there, and is refused otherwise |
| Enrollment.ApprovalAchieves | crates/server/src/main.rs:3603-3631 | an approval run to its end makes one device and the agent is told `approved` |
| Enrollment.DenialAchieves | crates/server/src/main.rs:3668-3670 | a denial makes none and the agent is told `denied` |
| Enrollment.FailureExpires | crates/server/src/main.rs:4914-4938 | an approval that fails after taking the entry, and the timer, leave the agent told `expired` and no device; the socket's end leaves it untold |
| Credentials.CredentialsFile.Load | crates/agent/src/main.rs:483-495 | the table read is clean, and it holds a value for a key exactly when the last line that sets the key gives it |
| Credentials.LastLineWins | crates/agent/src/main.rs:483-489 | folding the lines gives each key the value of the last line that sets it, and nothing else |
| Credentials.CredentialsFile.Save | crates/agent/src/main.rs:497-519 | in any write order the file reads back as the merged table if and only if the updates are clean; a key that is not updated reads back as before |
| Credentials.Merge | crates/agent/src/main.rs:504-511 | in any order of the updates: an updated key has its new value, or none if that is empty, and every other key keeps its old one |
| Credentials.Render | crates/agent/src/main.rs:512-515 | prints every entry of the table once, in some order |
| Credentials.ParsePrint | crates/agent/src/main.rs:483-489 | reading back a printed list of clean entries gives the same keys and values |
| Credentials.ParseIsClean | crates/agent/src/main.rs:483-489 | nothing read from any file at all is unclean |
| Credentials.RoundTripIff | crates/agent/src/main.rs:483-515 | a printed table is read back in every write order if and only if it is clean |
| Credentials.SaveReadsBackIff | crates/agent/src/main.rs:497-519 | one save over any earlier content reads back as the merge if and only if its updates are clean |
| Credentials.SavesFold | crates/agent/src/main.rs:497-519 | any series of clean saves reads back as the fold of the updates |
| Credentials.SaveHolds | crates/agent/src/main.rs:497-519 | after one clean save a key reads back as its update, and one not updated as from the old content |
| Credentials.SavesKeepLastUpdate | crates/agent/src/main.rs:497-519 | after any series of clean saves a key reads back as the last update that mentions it, or as at the start |
| Credentials.TrimCutsEnds | crates/agent/src/main.rs:487 | trimming takes white space off both ends and nothing else |

## Left out

- HTTP handlers, tokens, passwords, audit, SQL and Redis: only the succeeding or failing offline write and the abstract creation of a device remain.
- JSON encoding of control messages: they are datatypes here.
- tokio, sockets and WebSockets: bounded queues, reliable FIFOs with short reads and writes, timers as steps that may happen at any time.
- Stream ids are assumed fresh, as v4 UUIDs are meant to be.
- RegistryMachine: one listener task per tunnel at a time; the listening port itself is not modelled.
- RegistryMachine: `last_seen`, idle expiry and `remove_listener`'s clean-up appear only as removals that may happen at any time.
- UDP payload routing: datagrams only take places in the shared queue; they may be dropped anywhere.
- Upstream: the server's side of `StreamOpen` is the registration step; the message itself is not modelled.
- Downstream: the agent giving up its control connection, which would end a stuck `StreamOpen` handler.
- Downstream: one data socket per stream, as `StreamOpen` assigns it.
- TokenBucket: `f64` rounding. Which callers still hold an old bucket after `remove_device` is given, not derived.
- ChannelPool: closing the streams on an id is one step, which `RegistryMachine` and `SharedQueue` take apart. A bind takes any free id; the least-free choice is `DataPlane.BindChannel`'s.
- RegistryMachine: `max_connections` of a tunnel does not change; `update_tunnel` can change it, and a connection already accepted keeps the old limit.
- Connections: phases an agent chooses itself through `RestartProgress`, device deletion, and the database's online column.
- Listeners: draws beyond 2^64, whose exact effect is `GenerationsUniqueIff`.
- Waiting for a data channel, its timeouts and the reconnect backoff.
- Channel statistics and traffic totals: they would only add easy members.
- File system errors of the credentials file and its access rights.
- The Windows service, named pipe, installer, console, logging, the admin web application and deployment.
