# Superiority, verified

A Dafny model of the parts of the Superiority chat client whose correctness is not visible in any one
function: the Live sharing pipeline from tap to table, TCP reassembly and record splitting in the packet
sniffer, the legacy chat gateway, the updater's version order, and a few arithmetic kernels. What the source
updates in place is a class or a loop here, proved against a function on values; the theorems are about those
functions and about whole runs.

    dafny verify dfyconfig.toml

## What is proved

**Live sharing** (`Wire`, `Batching`, `Tapping`, `Store`, `StoreProperties`, `Pipeline`, `PipelineSafety`,
`Announcements`, `ExactlyOnce`, `Standing`, `Chat`, `Names`, `Issued`, `Projection`, `Sync`, `LiveSync`, `LiveMirror`,
`LiveRuns`, `LiveTap`, `SnapshotDiff`, `ScrRuns`, `EndToEnd`). The client numbers events, drops on a full channel,
batches, retries and may change its feed; the network may lose replies and deliver any earlier request again at any
time. `Pipeline` is that system as a state machine over one session. In every run each feed applies each event at
most once and in order, nothing still buffered is skipped by the replay filter, an event once buffered is applied, still buffered or on record as given up, and the stored transcript is exactly the
transcript of the events applied. Whether an event is buffered at all is decided by when it is received, and that
is stated exactly: the worker must know the session. A sync block stored on a live session leaves the
server showing exactly the client's picture, and while sharing stays on the incremental events after it keep it so
if and only if each is harmless when it comes. The tables a run leaves behind stand as if the events applied had
been applied one by one, so the same holds from the chat session to the stored feed, across retries, repeats and
re-cut batches; and the snapshot differences of the classic products keep the server at the last channel seen.

**Sniffer** (`Reassembly`, `ReassemblyTheorems`, `RecordSplitter`, `Capture`). Reassembly modulo 2^32 is
sound, complete and independent of the order of arrival, and which captures it refuses or hangs on is stated
exactly; record splitting is independent of chunking; the two directions share one counter and stop together. The
keystream and the record decoder are parameters; chunk independence assumes that what the decoder recognises
or rejects on a prefix it recognises or rejects on every extension.

**Gateway** (`Friends`, `Bncs`, `Logon`, `Channels`, `ChannelRuns`). The friend edit script replays to the
current list, framing is a bijection, a client acts only for the expected account, and the active channel is
announced once per activation.

**Updater and kernels** (`Versions`, `VersionOrder`, `Pruning`, `PruningProperties`, `Slugs`, `Descriptors`).

## Where the code falls short

For each there is an exact condition, a concrete input, or both, named in this order.

- A buffered TCP segment that ends strictly before the first byte kept is selected and put back for ever
  (`ReassemblyTheorems.FlushHangsIff`; `HangExample`). The model's outcome `Spins` stands for that loop.
- Splicing a segment in front drops the bytes it carries past the current end
  (`ReassemblyTheorems.PrependKeepsOnlyThePrefix`; `PrependExample`).
- A sync of more than 64 events is withheld, until overflow drops its beginning (`Batching.WithheldIff`;
  `LongSyncIsWithheld`, `WithheldUntilOverflow`).
- A reconcile emits without the check that guards other events, so a session need not be announced ahead of its
  events, and those that arrive first are dropped without being counted (`Announcements.AheadIffNoneEarly`,
  `BufferedIffKnown`; `RosterIsDroppedUncounted`).
- A session that ended, drained and was pruned is never heard again when sharing is switched back on, and
  switching it on before the drain does not help (`PipelineSafety.PruningIsFinal`, `Announcements.BufferedIffKnown`;
  `SwitchedOnAfterPruneIsLost`, `SwitchedOnBeforeDrainIsLost`).
- Channels left behind by a sync on an ended session stay open (`Sync.SyncAgreesIff`; `EndSwallowsSync`).
- Version comparison with letters is not transitive, so selection can miss a newer build
  (`VersionOrder.PaddedUnlessDangling`, `OrderedIffNotDangling`, `SelectionIsSafeIff`; `LettersBreakTheOrder`,
  `SelectionCanBeExceeded`).
- A member that a repeated snapshot silently leaves out stays on the feed until the next periodic reconcile
  (`LiveMirror.DeltaDepictsIff`, `SnapshotFollowsIff`, `LiveRuns.ResyncHeals`; `LiveMirror.SilentDepartureStays`).
- A channel whose index goes to another channel stays open until then too (`LiveMirror.ChannelJoinedFollowsIff`,
  `LiveRuns.FeedFollowsClient`; `ReusedIndexExample`).
- What happens to a channel while sharing is off, departures and removals included, is not applied to its mirror, so
  the tick that finds sharing on again sends the mirror of before (`LiveRuns.OffKeepsMirrors`, `SwitchedOnFollowsIff`,
  `MissedDepartureStays`).
- A rejected channel, or the end of the wait for one, can make the tap reconcile while sharing is off
  (`LiveTap.OffSendsIff`; `HeldBackRosterIsSent`). The worker drops what it flushes while sharing is off.
- A classic tap that is switched on again resends no roster, although the code says it does (`ScrRuns.ResentIff`);
  and a private channel that is renamed stays open beside its new name (`SnapshotDiff.SnapshotInStepIff`,
  `ScrRuns.ServerFollowsIff`; `RenamedChannelExample`).
- Pruning can remove what a read of one product shows (`PruningProperties.LatestUnchangedIff`, `SnapshotUnchangedIff`,
  `ChannelRowsUnchangedIff`, `RosterUnchangedIff`; `QuietProductDisappears`).
- A channel change that cannot send its leave forgets the old channel, and strands an announcement still pending
  (`ChannelRuns.EndsThroughoutIff`, `UnsaidIsForgotten`, `SoundUnlessStrands`, `SoundThroughoutIff`;
  `FailedLeaveStrandsAnnouncement`).

## Model

| member | source | states |
|---|---|---|
| `Reassembly.TcpDirection.constructor` | scanner-sweep/src/packet.rs:28-33 | a new direction has no start, no bytes and nothing buffered |
| `Reassembly.TcpDirection.Add` | scanner-sweep/src/packet.rs:36-94 | adding a segment in place gives the outcome and the state of the specification the reassembly theorems are about, through the mutual recursion with the flush |
| `Reassembly.TcpDirection.Buffer` | scanner-sweep/src/packet.rs:101-111 | an out-of-order segment is kept, or refused when a different payload is already kept under its sequence number |
| `Reassembly.TcpDirection.FlushPending` | scanner-sweep/src/packet.rs:113-135 | the flush loop ends in the specified state; the number of buffered segments is its measure |
| `Reassembly.CandidateIsNotBuffered` | scanner-sweep/src/packet.rs:52-93 | a segment the flush selects is merged or found conflicting, and goes back into the buffer only if it ends strictly before the start |
| `Reassembly.SpinningIterationChangesNothing` | scanner-sweep/src/packet.rs:66-69 | a selected segment that ends strictly before the start is put back unchanged, so the loop repeats for ever |
| `Reassembly.FlushLeavesNoCandidate` | scanner-sweep/src/packet.rs:113-135 | flushing again after a flush that ended changes nothing |
| `Reassembly.FlushIsAddThenFlush` | scanner-sweep/src/packet.rs:129-133 | one turn of the loop (remove, add, flush inside, go round) is the unfolded flush, with strictly fewer buffered segments |
| `ReassemblyTheorems.SerialOrder` | scanner-sweep/src/packet.rs:52-71 | comparison of 32-bit sequence numbers agrees with the order of stream positions within a 2^31 window, across the wrap (section 3.4 of RFC 9293) |
| `ReassemblyTheorems.PlaceBelow` | scanner-sweep/src/packet.rs:52-65 | a segment reaching back over the start moves the start to it and keeps the bytes true to the stream |
| `ReassemblyTheorems.PlaceWithin` | scanner-sweep/src/packet.rs:76-91 | a segment touching the bytes kept extends them to the larger of the two ends, overlap checked and not duplicated |
| `ReassemblyTheorems.PlaceApart` | scanner-sweep/src/packet.rs:66-74 | a segment separated from the bytes kept by a gap is buffered; it is wholly before the start exactly when it ends before it |
| `ReassemblyTheorems.CandidatesAreNotAhead` | scanner-sweep/src/packet.rs:121-125 | the flush selects exactly the buffered segments that begin at or before the end |
| `ReassemblyTheorems.FlushSound` | scanner-sweep/src/packet.rs:113-135 | flushing keeps the bytes a true slice of the stream and never reports an error, whatever is buffered |
| `ReassemblyTheorems.FlushComplete` | scanner-sweep/src/packet.rs:113-135 | with nothing buffered before the start the flush ends, loses nothing, moves only the end, and leaves a gap before every buffered segment |
| `ReassemblyTheorems.FlushTerminates` | scanner-sweep/src/packet.rs:113-135 | as long as every buffered segment reaches the start the recursion terminates and leaves none at or before the end |
| `ReassemblyTheorems.AddAhead` | scanner-sweep/src/packet.rs:36-94 | a segment not before the start is absorbed exactly, and refused exactly when it lies past the end and a different segment is buffered under its number |
| `ReassemblyTheorems.PrependKeepsOnlyThePrefix` | scanner-sweep/src/packet.rs:55-65 | in every state a run can be in, a segment reaching back over the start keeps everything it carries if and only if it does not run past the current end; the end itself never moves |
| `ReassemblyTheorems.FlushBelow` | scanner-sweep/src/packet.rs:113-135 | a flush that selects nothing running past the end moves the end not at all and loses nothing, whether it ends or hangs |
| `ReassemblyTheorems.RunParted` | scanner-sweep/src/packet.rs:36-135 | after any run that neither fails nor hangs each buffered segment is either past a gap after the end or ends before the start, which is all the prepend theorem asks of a state |
| `ReassemblyTheorems.PrependExample` | scanner-sweep/src/packet.rs:55-65 | two arrivals after which a received byte is held nowhere |
| `ReassemblyTheorems.RunSound` | scanner-sweep/src/packet.rs:36-135 | in every order of arrival the bytes kept are a true slice of the stream beginning at the start |
| `ReassemblyTheorems.RunAhead` | scanner-sweep/src/packet.rs:36-135 | over a run what is held is exactly what was held before plus what the arrivals cover |
| `ReassemblyTheorems.RunInTwoParts` | scanner-sweep/src/packet.rs:36-135 | a run of arrivals can be cut at any segment |
| `ReassemblyTheorems.RefusedIffClashes` | scanner-sweep/src/packet.rs:101-111 | with the lowest segment first, a run is refused if and only if some out-of-order arrival (a byte before it not yet covered) has the sequence number of an earlier one and another payload |
| `ReassemblyTheorems.AgreeingNeverClashes` | scanner-sweep/src/packet.rs:101-111 | arrivals that carry one payload per sequence number are never refused |
| `ReassemblyTheorems.LongerRetransmission` | scanner-sweep/src/packet.rs:76-91 | a longer retransmission in order disagrees with the first one and is accepted, and its new bytes are kept |
| `ReassemblyTheorems.ReassemblyComplete` | scanner-sweep/src/packet.rs:36-135 | when the lowest segment comes first, any order of arrival is refused for a clash or ends with exactly the maximal covered prefix of the stream |
| `ReassemblyTheorems.ReassemblyOrderIndependent` | scanner-sweep/src/packet.rs:36-135 | two captures without a clash covering the same positions rebuild the same bytes, however the segments are cut |
| `ReassemblyTheorems.FlushHangsIff` | scanner-sweep/src/packet.rs:113-135 | for every stream, across the 2^32 wrap or not: the flush hangs if and only if the buffered segment of least raw number ends strictly before the start, or the one of least position ends strictly before both the start and that first segment |
| `ReassemblyTheorems.HangExample` | scanner-sweep/src/packet.rs:66-69 | three arrivals that make the flush hang |
| `RecordSplitter.ProtectedDirection.constructor` | scanner-sweep/src/session.rs:140-148 | a direction starts at its offset with empty buffers |
| `RecordSplitter.ProtectedDirection.Consume` | scanner-sweep/src/session.rs:150-251 | consuming a stream in place gives the halt, the updates, the sequence numbers and the buffers of the specification |
| `RecordSplitter.Judge` | scanner-sweep/src/session.rs:176-240 | an accepted record is non-empty and lies within the buffer |
| `RecordSplitter.ConsumeAligned` | scanner-sweep/src/session.rs:150-315 | after a consume offset plus leftover is what was consumed of the stream, and ending the capture there is never an error |
| `RecordSplitter.SplitExtends` | scanner-sweep/src/session.rs:171-249 | splitting a buffer and then the leftover with more bytes is splitting the longer buffer, for a prefix-stable decoder |
| `RecordSplitter.ConsumeTwice` | scanner-sweep/src/session.rs:150-251 | consuming a prefix and then the longer stream is consuming the longer stream |
| `RecordSplitter.ChunkIndependent` | scanner-sweep/src/session.rs:150-251 | any chunking halts if and only if one pass halts, and otherwise yields the same records, offsets and leftovers |
| `RecordSplitter.SplitTiles` | scanner-sweep/src/session.rs:213-215 | the records split off followed by the leftover are exactly the plaintext, and the cipher buffer is cut at the same place |
| `RecordSplitter.RecordsTileTheStream` | scanner-sweep/src/session.rs:150-251 | over every chunking the records and the leftover are the decryption of the stream from the start offset |
| `Capture.ActiveSweep.constructor` | scanner-sweep/src/session.rs:505-529 | an activated sweep is its two flows, its two splitters and one counter |
| `Capture.ActiveSweep.Consume` | scanner-sweep/src/session.rs:505-529 | both directions are consumed in place, outgoing first, the incoming numbers following on; a halt of either is a halt |
| `Capture.ActiveSweep.Ingest` | scanner-sweep/src/session.rs:373-403 | one packet is reassembled into its own direction and both are consumed; a refused packet is an error |
| `Capture.SplitNumbered` | scanner-sweep/src/session.rs:150-251 | where the numbers start changes nothing but the numbers, and they are consecutive |
| `Capture.RoundSplits` | scanner-sweep/src/session.rs:505-529 | one round does to each direction what it would do alone, and numbers the records of both in one sequence |
| `Capture.WatchMatches` | scanner-sweep/src/session.rs:505-529 | so does any number of rounds |
| `Capture.WatchStopsIff` | scanner-sweep/src/session.rs:505-529 | the sweep stops if and only if one of its directions would stop alone |
| `Capture.ReportIsWatch` | scanner-sweep/src/session.rs:373-403 | while no packet is refused, ingesting packets is showing the splitters the growing reassembled streams |
| `Capture.ObservedGrows` | scanner-sweep/src/session.rs:373-403 | per direction the bytes the splitter is shown after each packet only grow, and end with what reassembly makes of that direction's packets |
| `Capture.ReportIsOnePass` | scanner-sweep/src/session.rs:373-529 | over out-of-order packets of both directions the sniffer stops if and only if one pass over the maximal contiguous prefix of one direction would halt; otherwise each direction reports the records of its pass and keeps its leftover, with the shared numbers consecutive in order of report |
| `Capture.ReportOrderIndependent` | scanner-sweep/src/session.rs:373-529 | two captures of the same bytes, interleaved and reordered in any ways and activated at any two moments, both stop, or report per direction the same records and leftovers |
| `Wire.ValidateEvents` | live/worker/events.ts:115-128 | accepts exactly 1 to 64 events with strictly increasing numbers |
| `Batching.BatchIsBounded` | app/src/uplink/model.rs:632-653 | a batch has between 1 and 64 events |
| `Batching.BatchKeepsItsSync` | app/src/uplink/model.rs:634-652 | the first sync that begins in a batch also ends in it |
| `Batching.WithheldIff` | app/src/uplink/model.rs:632-653 | a non-empty buffer is withheld exactly when it begins with a sync that does not close within 64 events |
| `Batching.LongSyncIsWithheld` | app/src/uplink/model.rs:632-653 | a sync at the head of the buffer, whatever follows it, is withheld if and only if it lists more than 62 rosters |
| `Batching.WithheldUntilOverflow` | app/src/uplink/model.rs:580-653 | it stays withheld whatever is pushed, until overflow drops the event that began it, and then a full batch is ready |
| `Batching.Batcher.constructor` | app/src/uplink/model.rs:572-577 | a new batcher is empty and has no age |
| `Batching.Batcher.Push` | app/src/uplink/model.rs:580-592 | appends the event, drops exactly the oldest events over 4096 and reports how many; the age is kept |
| `Batching.Batcher.TakeBatch` | app/src/uplink/model.rs:605-619 | takes a batch exactly when one is due and ready; batch and rest are the old buffer |
| `Batching.Batcher.TakeNow` | app/src/uplink/model.rs:622-624 | takes what is ready whether or not it is due |
| `Batching.Batcher.DiscardBatch` | app/src/uplink/model.rs:627-630 | takes up to 64 events even when they would be withheld |
| `Batching.Batcher.TakeCount` | app/src/uplink/model.rs:655-664 | cuts the buffer in two and keeps the age set exactly while it is non-empty |
| `Batching.Batcher.Restore` | app/src/uplink/model.rs:666-673 | puts a batch back in front, in order |
| `Batching.TakeThenRestore` | app/src/uplink/model.rs:605-673 | taking and restoring leaves the buffer as it was |
| `Tapping.SessionTap.constructor` | app/src/uplink/mod.rs:96-137 | a tap starts unannounced at number 1 |
| `Tapping.SessionTap.TrySend` | app/src/uplink/mod.rs:332-374 | an event takes the next number and is delivered, counted as lost or gone with the worker |
| `Tapping.SessionTap.EmitEvent` | app/src/uplink/mod.rs:332-374 | losses are confessed by a marker before the event |
| `Tapping.SessionTap.AnnounceSession` | app/src/uplink/mod.rs:301-330 | while unannounced each call tries the channel once; when it is accepted the session start follows |
| `Tapping.EmitIsAccounted` | app/src/uplink/mod.rs:332-374 | emitting keeps the accounts whatever the channel answers |
| `Tapping.AnnounceIsAccounted` | app/src/uplink/mod.rs:301-330 | announcing keeps the accounts |
| `Tapping.LossesAreAccounted` | app/src/uplink/mod.rs:274-374 | in every run, the roster and sync events a reconcile sends while the session is unannounced included, numbers issued are delivered, lost or gone with the worker; confessed plus pending losses are the losses; each delivered marker accounts exactly for the gap so far |
| `Store.SessionStore.constructor` | live/worker/store.ts:11-30 | a session begins with empty tables |
| `Store.SessionStore.Upkeep` | live/worker/store.ts:115-150 | the session and feed rows are inserted or moved forward |
| `Store.SessionStore.UpsertMembers` | live/worker/store.ts:321-413 | member rows are written only while their channel is open, newest number wins, missing attributes are remembered |
| `Store.SessionStore.Transcribe` | live/worker/store.ts:257-285 | a transcript line is inserted once per number |
| `Store.SessionStore.Execute` | live/worker/store.ts:32-113 | the statements of one event, in order, give the specified tables |
| `Store.SessionStore.StoreEnvelope` | live/worker/store.ts:11-30 | an envelope stores exactly its events newer than `last_seq`, in order |
| `Store.FreshAppend` | live/worker/store.ts:17-21 | filtering replays works event by event |
| `Store.ApplyAllAppend` | live/worker/store.ts:22-29 | applying events can be cut anywhere |
| `StoreProperties.ApplyOlder` | live/worker/store.ts:152-413 | an event writes no row number at or above the next event's |
| `StoreProperties.StoredCoherent` | live/worker/store.ts:11-30 | storing keeps every row older than `last_seq` + 1, never moves `last_seq` back and raises it to the envelope's last event |
| `StoreProperties.ReplayChangesNothing` | live/worker/store.ts:17-21 | an envelope already stored changes no table |
| `StoreProperties.SyncSeqBelow` | live/worker/store.ts:59-87 | the sync marker never exceeds the newest event applied |
| `StoreProperties.FreshIsNew` | live/worker/store.ts:17-21 | what passes the filter is new, from the envelope and still in order |
| `StoreProperties.UpsertAllRows` | live/worker/store.ts:321-413 | after a bulk upsert listed members have their merged row and the others are untouched |
| `StoreProperties.TouchOpens` | live/worker/store.ts:152-179 | any event on a channel opens it and no other |
| `Pipeline.FreshIsSuffix` | live/worker/store.ts:17-21 | in an ordered envelope the new events are a suffix |
| `Pipeline.Delivery` | live/worker/store.ts:11-30 | a delivery appends to the feed's log exactly the new suffix |
| `Pipeline.DeliverySound` | live/worker/store.ts:11-30 | delivering any request ever sent keeps the log in order and passes over nothing still buffered |
| `Pipeline.DeliveryLossless` | live/worker/store.ts:11-30 | with nothing given up a delivery keeps the log a prefix of everything buffered |
| `PipelineSafety.TapSteps` | app/src/uplink/mod.rs:274-374 | a tap call keeps the invariant of the system, announced or not |
| `PipelineSafety.ReceiveKeeps` | app/src/uplink/mod.rs:493-519 | receiving from the channel, overflow included, keeps the invariant |
| `PipelineSafety.FlushKeeps` | app/src/uplink/mod.rs:575-664 | a flush keeps the invariant for every reply: accepted, retried, refused, unauthorised |
| `PipelineSafety.DeliverKeeps` | live/worker/store.ts:11-30 | redelivering any earlier request at any time keeps the invariant |
| `PipelineSafety.PruneKeeps` | app/src/uplink/mod.rs:540-542 | forgetting an ended, drained session keeps the invariant |
| `PipelineSafety.StepKeeps` | app/src/uplink/mod.rs:484-697 | every step of the system keeps the invariant |
| `PipelineSafety.RunKeeps` | app/src/uplink/mod.rs:484-697 | so does every run |
| `PipelineSafety.AppliedAtMostOnce` | app/src/uplink/mod.rs:575-664 | in every run each feed applies events in strictly increasing order, each at most once, all of them buffered events |
| `PipelineSafety.BufferedIsNeverSkipped` | live/worker/store.ts:17-21 | the `last_seq` filter never skips an event that is still buffered and was not applied |
| `PipelineSafety.NothingIsLostSilently` | app/src/uplink/mod.rs:575-697 | an event that entered the batcher is buffered, applied by a feed, or was given up by overflow, refusal, switching off or shutdown |
| `PipelineSafety.LosslessRunAppliesEverything` | app/src/uplink/mod.rs:484-664 | with nothing given up and one feed the log is a prefix of what entered the batcher, and all of it once the buffer is empty |
| `PipelineSafety.EveryRequestIsAcceptable` | live/worker/events.ts:115-128 | every request of every run passes the server's count and order checks, the buffer is a suffix of history of at most 4096 events, and losses stay accounted for |
| `PipelineSafety.AnnouncedOnceRun` | app/src/uplink/mod.rs:301-330 | in every run at most one announcement is on its way, none before the tap counts as announced and none once the worker knows the session |
| `PipelineSafety.PrunedSessionStaysDeaf` | app/src/uplink/mod.rs:507-518 | a forgotten session buffers nothing again, whatever happens |
| `PipelineSafety.PruningIsFinal` | app/src/uplink/mod.rs:540-542 | in every run nothing a session emits after it was pruned is buffered |
| `Announcements.RunHasTrace` | app/src/uplink/mod.rs:484-545 | every run passes through a sequence of states, one step each |
| `Announcements.TraceIsRun` | app/src/uplink/mod.rs:484-545 | and every such sequence is a run |
| `Announcements.SinkIffKnown` | app/src/uplink/mod.rs:484-545 | the worker holds a buffer for the session if and only if it received the announcement and has not pruned the session since |
| `Announcements.BufferedIffKnown` | app/src/uplink/mod.rs:507-542 | in every run an event the worker receives is buffered if and only if the announcement was received before it and no prune has happened since; otherwise it leaves no trace |
| `Announcements.DeliveredIsHanded` | app/src/uplink/mod.rs:332-374 | what the tap counts as delivered is exactly what the worker received or will receive, in order |
| `Announcements.PushedIsHeard` | app/src/uplink/mod.rs:507-518 | what was ever buffered is exactly the events received while the session was known, in order |
| `Announcements.EveryEventIsSomewhere` | app/src/uplink/mod.rs:274-542 | every number issued is received, waiting or lost and confessed; of the events received exactly those heard while the session was known were buffered |
| `Announcements.AheadIffNoneEarly` | app/src/uplink/mod.rs:274-330 | a session is announced ahead of its events if and only if no emission was accepted while it was unannounced |
| `Announcements.RosterIsDroppedUncounted` | app/src/uplink/mod.rs:274-284 | a reconcile that meets a full channel and then room sends its roster unannounced, and the worker drops it without counting it |
| `Announcements.EndedStays` | app/src/uplink/mod.rs:507-518 | in every run without a prune a session that has ended stays ended, sharing switched back on or not |
| `Announcements.SwitchedOnAfterPruneIsLost` | app/src/uplink/mod.rs:540-542 | a run in which the session start sent after a prune is accepted by the channel and never buffered |
| `Announcements.SwitchedOnBeforeDrainIsLost` | app/src/uplink/mod.rs:507-542 | switching sharing on before the drain does not help: the session is pruned all the same and the next event is dropped |
| `ExactlyOnce.TranscriptLines` | live/worker/store.ts:202-285 | a log has one transcript line for each transcribed event, with that event's contents, and no other |
| `ExactlyOnce.ApplyWritesLine` | live/worker/store.ts:202-285 | the statements of an event write exactly its line |
| `ExactlyOnce.StoringFollowsLog` | live/worker/store.ts:11-30 | the tables refine the log: the same `last_seq`, and the transcript of the events applied |
| `ExactlyOnce.StepLog` | app/src/uplink/mod.rs:575-664 | what a step delivers to a feed is what its log changes by |
| `ExactlyOnce.RunFollows` | live/worker/store.ts:11-30 | the refinement holds over every run, redeliveries included |
| `ExactlyOnce.TranscriptIsExact` | live/worker/store.ts:257-285 | end to end: the transcript a feed stores is the transcript of the events applied once each, and of everything the session produced when nothing was given up |
| `Standing.ApplyAllAlike` | live/worker/store.ts:32-113 | applying the same events at other times leaves the same rosters, and the same channels up to when they were closed |
| `Standing.StoringStands` | live/worker/store.ts:11-30 | `storeEnvelope` keeps rosters and channels those of the events the log applied one after another, however the events were cut and whatever is sent again |
| `Standing.LogsGrow` | app/src/uplink/mod.rs:575-664 | what a feed has applied it never takes back |
| `Standing.RunStands` | live/worker/store.ts:11-30 | so does every run, redeliveries and retried batches included |
| `Standing.RowsAreOfTheLog` | live/worker/store.ts:11-413 | in every run the rosters and channels a feed ends with are those of the events it applied, from any point on: with the sync state if none of them ends the session, and without it if none of them closes a sync |
| `EndToEnd.StoredFeedFollowsTap` | app/src/uplink/mod.rs:158-664 | end to end: a StarCraft II session that reconciles at some point with sharing on, whatever happened before, and sees harmless causes from then on; whatever was repeated, retried or re-cut on the way, a feed that was delivered everything has exactly the channels shown and not left open, with exactly the client's members |
| `EndToEnd.StoredFeedHoldsLastChannel` | app/src/uplink/classic.rs:114-255 | end to end: a feed that was delivered everything a classic session sent, sharing switched as often as may be, has no channel open but the one last seen while sharing was on, with a row for each of its users |
| `Projection.LiveProjector.constructor` | app/src/uplink/model.rs:290-296 | a projector starts empty but for the group names it is given |
| `Names.LastHash` | core/src/games/sc2/chat/session.rs:71-80 | finds the last `#` of a name, or that there is none |
| `Names.Truncated` | app/src/uplink/model.rs:247-253 | a body is cut to exactly its first 4000 characters, and left alone when it has no more |
| `Projection.LiveProjector.RosterUserRef` | app/src/uplink/model.rs:504-526 | a member keeps the order it was first seen in |
| `Projection.LiveProjector.MirrorRoster` | app/src/uplink/model.rs:352-375 | a snapshot is mirrored by handle, in order |
| `Projection.LiveProjector.LeaveChannel` | app/src/uplink/model.rs:484-502 | leaving forgets everything about the index and names the channel to close |
| `Projection.LiveProjector.LearnStructure` | app/src/uplink/model.rs:309-339 | joins, group names and the catalogue are learned even while sharing is off |
| `Projection.LiveProjector.ObserveRoster` | app/src/uplink/model.rs:346-385 | a complete snapshot becomes a whole roster the first time and a delta afterwards |
| `Projection.LiveProjector.Observe` | app/src/uplink/model.rs:304-482 | one chat event in place gives the specified state and event, names without their character codes and bodies cut to the cap |
| `Projection.ProjectKeepsSound` | app/src/uplink/model.rs:304-482 | mirrors stay keyed by handle, and a channel counted as sent stays open and mirrored |
| `Projection.LeaveKeepsSound` | app/src/uplink/model.rs:484-502 | leaving keeps that invariant |
| `Projection.ReconciliationEvents` | app/src/uplink/model.rs:547-567 | a reconcile lists each sent channel once |
| `Sync.RosterReplaces` | live/worker/store.ts:287-305 | a complete roster replaces the stored members of its channel and touches no other |
| `Sync.RostersAreListed` | live/worker/store.ts:287-305 | a run of rosters stores each of them and leaves the other channels alone |
| `Sync.SyncApplied` | live/worker/store.ts:59-87 | after a sync block the open channels are the listed ones plus those left behind, every listed roster is stored exactly, and a live session is marked synced |
| `Sync.SyncAgreesWhenLive` | live/worker/store.ts:59-87 | on a live session exactly the listed channels are open, whatever the tables held |
| `Sync.SyncAgreesIff` | live/worker/store.ts:59-87 | on any session the open channels are the listed ones if and only if none is left behind |
| `Sync.EndSwallowsSync` | live/worker/store.ts:59-87 | an envelope that ends with the end of the session leaves open a channel its sync does not mention, which the sync alone closes |
| `LiveSync.IdentityInjective` | app/src/uplink/model.rs:176-183 | different channels have different keys |
| `LiveSync.ReconcileIsSync` | app/src/uplink/mod.rs:274-284 | what a reconcile emits is a sync block listing the sent channels |
| `LiveSync.ValuesAreTheMap` | app/src/uplink/model.rs:553-558 | the members listed are the mirror: each once, no other |
| `LiveSync.ReconcileShows` | app/src/uplink/mod.rs:274-284 | stored on a live session, a reconcile leaves exactly the sent channels open, each with exactly its mirror |
| `LiveSync.LiveAfter` | live/worker/store.ts:46-57 | a session is live after a run of events if and only if it was live or a session start is among them |
| `LiveSync.StoredSyncShows` | live/worker/store.ts:11-30 | the same for a sync inside a whole envelope that does not end with the session's end, replay filter and row upkeep included |
| `LiveMirror.OneEvent` | live/worker/store.ts:152-255 | an incremental event changes the members of its own channel only, opens that channel or closes it, and touches no other |
| `LiveMirror.MirrorOrders` | app/src/uplink/model.rs:504-526 | members already seen keep their order, and a mirror carries the orders the projector holds |
| `LiveMirror.DeltaDepictsIff` | app/src/uplink/model.rs:362-375 | a repeated snapshot sent as a delta leaves the stored handles those of the snapshot if and only if nobody it leaves out was still known |
| `LiveMirror.SilentDepartureStays` | app/src/uplink/model.rs:362-375 | a snapshot that leaves a shown member out sends nothing, and the member stays |
| `LiveMirror.UserJoinedFollows` | app/src/uplink/model.rs:389-403 | a newcomer, stored, keeps the feed showing the client's mirror |
| `LiveMirror.UserLeftFollows` | app/src/uplink/model.rs:404-428 | so does a departure |
| `LiveMirror.SnapshotFollowsIff` | app/src/uplink/model.rs:362-375 | a repeated snapshot, whether it sends a delta or nothing, can be followed if and only if it leaves out nobody who was there |
| `LiveMirror.FirstSnapshotFollows` | app/src/uplink/mod.rs:182-195 | so does a first roster, which makes the tap reconcile |
| `LiveMirror.BlockFollows` | app/src/uplink/mod.rs:274-284 | a sync block makes a live feed follow the client, whatever its tables held before |
| `LiveMirror.ChannelJoinedFollowsIff` | app/src/uplink/model.rs:309-346 | a join can be followed if and only if its index holds no other channel the feed has open and the channel has no other index |
| `LiveMirror.GoneFollows` | app/src/uplink/mod.rs:219-228 | leaving by command or being removed closes exactly that channel |
| `LiveMirror.PassingFollows` | app/src/uplink/model.rs:343-482 | messages, group names and catalogues change no stored roster |
| `LiveMirror.ResyncFollows` | app/src/uplink/mod.rs:420-435 | so does the periodic reconcile with every roster the session holds |
| `LiveMirror.CauseFollowsIff` | app/src/uplink/mod.rs:158-228 | one chat event, leave command, periodic reconcile or tick, sharing on and its events stored, leaves the feed following the client if and only if it is harmless: a join that fits, and no repeated snapshot that leaves out someone who was there |
| `LiveRuns.FeedFollowsClient` | app/src/uplink/mod.rs:158-228 | sharing on throughout and nothing lost, the feed follows the client at every moment of a run if and only if every cause is harmless when it comes: exactly the channels shown and not left are open, and every roster sent is stored with exactly the client's members (name, clan, presence, order, local and operator flags) |
| `LiveRuns.ReusedIndexExample` | app/src/uplink/model.rs:309-322 | an index goes to another channel without being given up: the old channel stays open although the client is no longer in it |
| `LiveRuns.RefreshedMirror` | app/src/uplink/mod.rs:420-435 | the periodic reconcile replaces the mirror of every channel the session has a complete roster of |
| `LiveRuns.ResyncHeals` | app/src/uplink/mod.rs:420-435 | whatever a live feed and the mirrors held before, it leaves exactly the sent channels open, and each channel it came with a complete roster of with exactly the members of that roster |
| `LiveRuns.OffKeepsMirrors` | app/src/uplink/model.rs:340-342 | while sharing is off a mirror outlasts everything but a join or a leave command on its index: departures, snapshots and removals pass it by |
| `LiveRuns.SwitchedOnFollowsIff` | app/src/uplink/mod.rs:204-215 | the tick that finds sharing on again makes the feed follow the mirrors, whatever it held, if and only if no channel has two indices and, with nothing to reconcile, every channel still open is one the client is in |
| `LiveRuns.MissedDepartureStays` | app/src/uplink/model.rs:340-342 | so a member who departed while sharing was off is shown again by that tick, and it takes a roster of the channel to put it right |
| `LiveTap.LiveSessionTap.constructor` | app/src/uplink/mod.rs:96-137 | a session begins announced if sharing is on, waiting for every channel asked for |
| `LiveTap.LiveSessionTap.ObserveEvent` | app/src/uplink/mod.rs:158-199 | one chat event in place gives the specified state and sends: rosters are held back until every channel is resolved, and a first roster reconciles from then on |
| `LiveTap.LiveSessionTap.ReconcileAll` | app/src/uplink/mod.rs:274-284 | the whole picture goes out as one block, announced first, or nothing if there is none |
| `LiveTap.LiveSessionTap.ReconcileRosters` | app/src/uplink/mod.rs:420-435 | the session's rosters are projected in turn, then everything is reconciled |
| `LiveTap.LiveSessionTap.Reject` | app/src/uplink/mod.rs:230-239 | a rejected channel counts as resolved, and the last one reconciles |
| `LiveTap.LiveSessionTap.Resolve` | app/src/uplink/mod.rs:248-255 | giving up the wait resolves every channel and reconciles |
| `LiveTap.LiveSessionTap.Heartbeat` | app/src/uplink/mod.rs:204-215 | a tick ends, restarts or keeps alive the session |
| `LiveTap.LiveSessionTap.LeaveChannel` | app/src/uplink/mod.rs:219-228 | a leave command forgets the index and sends the departure while sharing is on |
| `LiveTap.SteadyRun` | app/src/uplink/mod.rs:158-284 | from the first sync on, as long as sharing stays on, the tap sends what its causes emit, and nothing else |
| `LiveTap.RunTells` | app/src/uplink/mod.rs:204-272 | in every run, however sharing is switched, the first thing a session sends is its start, and the tap counts as announced and not ended if and only if a start was sent and no end since |
| `LiveTap.OffSendsIff` | app/src/uplink/mod.rs:230-255 | while sharing is off a call sends something other than the session's end if and only if it resolves the last channel waited for and a roster was held back before sharing went off |
| `LiveTap.HeldBackRosterIsSent` | app/src/uplink/mod.rs:248-255 | a run in which a roster held back is sent while sharing is off |
| `SnapshotDiff.ScrProjector.constructor` | app/src/uplink/scr.rs:34-41 | a projector starts without a channel |
| `SnapshotDiff.ScrProjector.Observe` | app/src/uplink/scr.rs:45-88 | one channel as the service sends it, in place, gives the specified state and events: members keyed by handle, the signed-in account marked as local |
| `SnapshotDiff.ScrProjector.DiffRoster` | app/src/uplink/classic.rs:56-89 | whole roster first and on a change of members, changed members otherwise, nothing when nothing changed |
| `SnapshotDiff.WholeRoster` | live/worker/store.ts:287-305 | storing a whole roster makes the server show the snapshot |
| `SnapshotDiff.DeltaRoster` | live/worker/store.ts:307-364 | storing a delta makes the server show the snapshot, an absent avatar being remembered |
| `SnapshotDiff.LeftCloses` | live/worker/store.ts:181-200 | storing the leave closes the channel |
| `SnapshotDiff.JoinedOpens` | live/worker/store.ts:152-179 | storing the join opens exactly that channel |
| `SnapshotDiff.SnapshotInStepIff` | app/src/uplink/scr.rs:45-88 | one snapshot, stored, leaves the server in step with the projector if and only if its channel kept its key or there was nothing to send |
| `ScrRuns.ClassicTap.constructor` | app/src/uplink/classic.rs:128-155 | a classic tap starts unannounced, without a channel |
| `ScrRuns.ClassicTap.Heartbeat` | app/src/uplink/classic.rs:211-227 | a tick ends, restarts or keeps alive the session |
| `ScrRuns.ClassicTap.ObserveLine` | app/src/uplink/classic.rs:233-244 | a chat line on the current channel goes out while sharing is on; whispers and errors never do |
| `ScrRuns.ClassicTap.ObserveChannel` | app/src/uplink/classic.rs:246-255 | a channel goes out as its difference, announced first |
| `ScrRuns.ClassicTap.EmitAll` | app/src/uplink/classic.rs:183-193 | whatever is sent first is preceded by the session's start |
| `ScrRuns.ResentIff` | app/src/uplink/scr.rs:136-159 | a roster is resent if and only if it counts as sent; the tick that finds sharing on again clears that first, so it resends nothing |
| `ScrRuns.CauseHeldIff` | app/src/uplink/classic.rs:211-255 | a channel, chat line, tick or switch, its events stored, leaves the server in step if and only if the channel kept its key or nothing was sent |
| `ScrRuns.ServerFollowsIff` | app/src/uplink/classic.rs:211-255 | whatever a classic session sees and however sharing is switched, the server is in step at every moment if and only if no channel comes back under another key |
| `ScrRuns.RunHoldsLast` | app/src/uplink/scr.rs:45-88 | the projector holds the last channel seen while sharing was on |
| `ScrRuns.RenamedChannelExample` | app/src/uplink/scr.rs:183-189 | a private channel that is renamed comes back under another key, and its roster goes there |
| `Friends.UpdateIfNeeded` | gateway/src/server.rs:1133-1146 | an update is emitted exactly when the entry differs, and replays to the new list |
| `Friends.RemoveGone` | gateway/src/server.rs:1081-1089 | removals from the back leave exactly the friends still wanted, in order |
| `Friends.MoveInto` | gateway/src/server.rs:1104-1109 | a move brings the wanted friend into place and replays |
| `Friends.FriendOperations` | gateway/src/server.rs:1077-1127 | replaying the script on the old list gives exactly the current one with every index in range and in one byte; no old friend is added again; it is empty if and only if the lists are equal |
| `Friends.SettleByMove` | gateway/src/server.rs:1100-1109 | moving the wanted friend keeps the places already settled |
| `Friends.SettleByAdd` | gateway/src/server.rs:1111-1113 | adding a new friend keeps them too |
| `Friends.SettledIsEqual` | gateway/src/server.rs:1125 | when every place is settled the lists are equal, the source's debug assertion |
| `Friends.SmallEnough` | gateway/src/server.rs:1152-1154 | every index of the script fits one byte |
| `Versions.VersionParts.constructor` | updater/src/appcast.rs:311-315 | iteration starts at the beginning |
| `Versions.VersionParts.Next` | updater/src/appcast.rs:317-344 | each call yields the next run of digits or letters and stops only when none is left |
| `Versions.CompareVersions` | updater/src/appcast.rs:242-266 | the two-iterator loop computes the specified comparison |
| `Versions.TrimKeepsValue` | updater/src/appcast.rs:286-288 | dropping leading zeros keeps the number, and leaves nothing exactly for zero |
| `Versions.DigitsCompareAsNumbers` | updater/src/appcast.rs:286-289 | comparing trimmed digit strings by length and text is comparing unbounded numbers |
| `VersionOrder.CompareFlips` | updater/src/appcast.rs:242-298 | for all strings, swapping the arguments reverses the result |
| `VersionOrder.NumbersCompareComponentwise` | updater/src/appcast.rs:242-298 | all-digit versions compare as lists of unbounded numbers padded with zeros, less, greater and equal |
| `VersionOrder.PaddedUnlessDangling` | updater/src/appcast.rs:242-266 | comparing two versions is comparing them padded with zeros if and only if they do not dangle: the comparison does not get as far as letters facing nothing |
| `VersionOrder.PaddedChains` | updater/src/appcast.rs:242-298 | comparison padded with zeros is transitive on all versions |
| `VersionOrder.CompatibleNeverDangles` | updater/src/appcast.rs:242-298 | versions in which no letters face nothing never dangle |
| `VersionOrder.NumericNeverDangles` | updater/src/appcast.rs:242-298 | nor do all-digit versions |
| `VersionOrder.PrereleaseDoesNotDangle` | updater/src/appcast.rs:242-298 | nor do the parts of 1.2 and 1.3rc1, though letters stand where the first has ended |
| `VersionOrder.CompareChains` | updater/src/appcast.rs:242-298 | the order is transitive on versions of which no two dangle |
| `VersionOrder.LettersBreakTheOrder` | updater/src/appcast.rs:247-257 | "1" = "1.0" > "1a" > "1" |
| `VersionOrder.PaddedWitness` | updater/src/appcast.rs:247-257 | for every pair that dangles, the shorter version with zeros appended equals it, exceeds the longer one, and dangles with neither |
| `VersionOrder.OrderedIffNotDangling` | updater/src/appcast.rs:242-298 | a pair does not dangle if and only if every third version that dangles with neither agrees with it on the order |
| `VersionOrder.SelectionIsGreatest` | updater/src/appcast.rs:113-131 | a release is selected exactly when one is eligible, it is eligible, and no eligible release exceeds it when no two eligible builds dangle |
| `VersionOrder.SelectionIsSafeIff` | updater/src/appcast.rs:113-131 | two builds do not dangle if and only if no offer of them and a third build that dangles with neither ever has its selection exceeded |
| `VersionOrder.SelectionCanBeExceeded` | updater/src/appcast.rs:113-131 | with letters an eligible release can exceed the selected one |
| `Pruning.First` | live/worker/read.ts:63-90 | ordering and taking one row finds the row that beats all others, and none exactly when there is no row |
| `Pruning.WinnerAmongFewer` | live/worker/read.ts:63-90 | removing rows keeps the row found if and only if that row is kept |
| `Pruning.Archive.Prune` | live/worker/prune.ts:10-53 | the two batches of deletes, in order, give the specified tables |
| `PruningProperties.SessionsLeft` | live/worker/prune.ts:12-31 | which sessions survive, each unchanged |
| `PruningProperties.ChannelsLeft` | live/worker/prune.ts:43-50 | a channel row survives exactly with its session and feed |
| `PruningProperties.RosterLeft` | live/worker/prune.ts:35-42 | a roster row survives exactly with its session and feed |
| `PruningProperties.NoOrphans` | live/worker/prune.ts:34-52 | afterwards every channel and roster row has its session, every session its feed |
| `PruningProperties.LatestUnchangedIff` | live/worker/read.ts:63-72 | in a surviving feed the latest session, of one product or of all, is the same after pruning if and only if it is retained |
| `PruningProperties.SnapshotUnchangedIff` | live/worker/read.ts:74-90 | the same for the snapshot session |
| `PruningProperties.ChannelRowsUnchangedIff` | live/worker/read.ts:182-207 | the channel list changes exactly when the session it is read from is not retained |
| `PruningProperties.SuccessorIsFound` | live/worker/read.ts:74-90 | after pruning the snapshot session is the best of the retained candidates |
| `PruningProperties.RosterUnchangedIff` | live/worker/read.ts:257-278 | a roster read, of one product or of all, is the same after pruning if and only if its session is retained, or both it and the session that takes over have no member in that channel |
| `PruningProperties.ReadersSeeNoChange` | live/worker/read.ts:63-275 | every cross-product read of a surviving feed is the same before and after, for any fixed tie-break |
| `PruningProperties.PruneIsIdempotent` | live/worker/prune.ts:5-53 | pruning twice at the same time is pruning once |
| `PruningProperties.QuietProductDisappears` | live/worker/prune.ts:13-30 | a read of one product is not protected: a concrete feed loses one |
| `Slugs.ToInt32` | live/worker/feeds.ts:69-75 | the wrapped result is congruent to the exact one modulo 2^32 |
| `Slugs.ShiftedFits` | live/worker/feeds.ts:69 | the shifted word has room for the byte, so or is addition and the result is still a 32-bit integer |
| `Slugs.WordTail` | live/worker/feeds.ts:69 | a wrapped word keeps the low bits of the whole bit string |
| `Slugs.GroupFromWord` | live/worker/feeds.ts:71-74 | the five bits taken from the wrapped word are those of the unbounded bit string |
| `Slugs.LastGroupFromWord` | live/worker/feeds.ts:77 | the last group is the remaining bits filled up with zeros |
| `Slugs.Encode` | live/worker/feeds.ts:67-78 | the nested loops over a wrapping accumulator produce the base32 text of the bytes (section 6 of RFC 4648, lower case, unpadded) |
| `Slugs.UngroupedGroups` | live/worker/feeds.ts:67-78 | decoding the groups gives the bit string back |
| `Slugs.EncodedInjective` | live/worker/feeds.ts:63-79 | different bytes of one length give different slugs |
| `Slugs.SlugLength` | live/worker/feeds.ts:10 | 8 bytes give 13 characters |
| `Descriptors.ReadVarint` | tools/extract-bgs-metadata.py:61-73 | the loop reads the specified value, or fails at the end of data or after ten bytes |
| `Descriptors.EncodeVarint` | tools/extract-bgs-metadata.py:76-84 | the loop writes the specified bytes and refuses negative values |
| `Descriptors.VarintLength` | tools/extract-bgs-metadata.py:76-84 | a varint has at most n bytes if and only if its value is below 128^n |
| `Descriptors.VarintRoundTrip` | tools/extract-bgs-metadata.py:61-84 | with any bytes before and after, reading undoes writing exactly for values below 2^70 |
| `Descriptors.ReadField` | tools/extract-bgs-metadata.py:97-124 | one round of the field loop, every error case included |
| `Descriptors.ParseFields` | tools/extract-bgs-metadata.py:87-124 | the generator yields the specified fields and ends with the specified exception, if any |
| `Descriptors.FieldsTile` | tools/extract-bgs-metadata.py:87-124 | a parse that ends without an exception covers the buffer without gaps or overlaps |
| `Descriptors.WriteDescriptorSet` | tools/extract-bgs-metadata.py:385-393 | the loop writes one tagged, length-prefixed entry per descriptor |
| `Descriptors.DescriptorSetRoundTrip` | tools/extract-bgs-metadata.py:87-393 | the written set parses to exactly its descriptors, in order, as field 1 entries tiling the file, if and only if each is shorter than 2^70 bytes |
| `Bncs.FrameReadsBack` | gateway/src/bncs.rs:87-129 | reading a written packet gives it back and leaves what follows |
| `Bncs.FrameWritesBack` | gateway/src/bncs.rs:87-129 | writing a packet that was read gives its bytes back |
| `Bncs.ReadsWhatWasWritten` | gateway/src/bncs.rs:87-129 | reading a written stream gives exactly the packets whose writes succeeded, then the end of the stream |
| `Bncs.WritesWhatWasRead` | gateway/src/bncs.rs:87-129 | a stream that reads cleanly is what writing its packets produces, so framing is a bijection |
| `Bncs.PayloadWriter.Dword` | gateway/src/bncs.rs:726-728 | appends four little-endian bytes |
| `Bncs.PayloadWriter.Byte` | gateway/src/bncs.rs:730-732 | appends one byte |
| `Bncs.PayloadWriter.CString` | gateway/src/bncs.rs:742-745 | appends the bytes and a zero |
| `Bncs.PayloadReader.Dword` | gateway/src/bncs.rs:688-696 | reads four bytes and advances, or leaves the offset alone |
| `Bncs.PayloadReader.CString` | gateway/src/bncs.rs:705-710 | reads up to the first zero and advances past it, or leaves the offset alone |
| `Bncs.WriteFriend` | gateway/src/bncs.rs:752-760 | appends the fields of an entry, with or without its name |
| `Bncs.SendFriendsList` | gateway/src/bncs.rs:365-374 | more than 255 entries or an oversized packet are refused; otherwise the packet goes out |
| `Bncs.FriendReadsBack` | gateway/src/bncs.rs:752-760 | one entry reads back wherever it stands |
| `Bncs.FriendsListRoundTrip` | gateway/src/bncs.rs:365-374 | a list that could be sent decodes to the same entries if and only if no string contains a zero byte |
| `Logon.LegacyPeer.constructor` | gateway/src/bncs.rs:214-228 | a peer starts unknown, with no keepalives and no ping |
| `Logon.LegacyPeer.SendPing` | gateway/src/bncs.rs:399-407 | the new ping is the outstanding one and the next is due an interval later |
| `Logon.LegacyPeer.StartKeepalives` | gateway/src/bncs.rs:390-397 | keepalives begin once |
| `Logon.LegacyPeer.SendLogonSuccess` | gateway/src/bncs.rs:502-526 | an account that was not accepted is never logged on |
| `Logon.LegacyPeer.HandleNewLogon` | gateway/src/bncs.rs:477-488 | a new-style request decides acceptance and logs nobody on |
| `Logon.LegacyPeer.HandleOldLogon` | gateway/src/bncs.rs:490-500 | an old-style request logs on exactly the expected account, with the status its style uses |
| `Logon.LegacyPeer.HandleProof` | gateway/src/bncs.rs:240-247 | a proof logs on exactly an accepted account |
| `Logon.LegacyPeer.HandlePingReply` | gateway/src/bncs.rs:409-418 | a reply uses up the outstanding ping and is measured only if its token matches |
| `Logon.LegacyPeer.Handle` | gateway/src/bncs.rs:234-314 | one packet in place gives the specified state and outcome, malformed packets included |
| `Logon.LegacyPeer.ServiceKeepalive` | gateway/src/bncs.rs:316-331 | null packets and pings when due |
| `Logon.StepAccepts` | gateway/src/bncs.rs:234-314 | what any packet does to acceptance and logon |
| `Logon.AuthorisedExtends` | gateway/src/bncs.rs:477-532 | how one more packet changes what the history authorises |
| `Logon.LoggedOnIffAuthorised` | gateway/src/bncs.rs:234-314 | in every run a client counts as logged on if and only if its most recent logon request named the expected account, ignoring ASCII case, and was old-style or followed by a proof |
| `Logon.SuccessIsToldIffLoggedOn` | gateway/src/bncs.rs:490-526 | an old-style request or a proof is answered with its style's success status if and only if the client is logged on from then on |
| `Logon.OnlyTheAccountActs` | gateway/src/bncs.rs:259-296 | entering, joining, leaving and the friends request happen only for such a history, and under the expected name |
| `Logon.RoundTripIffLatestPing` | gateway/src/bncs.rs:409-418 | a round trip is reported if and only if the reply names the latest ping and no reply used it up before, and is measured from its sending |
| `Logon.PingsAreSpaced` | gateway/src/bncs.rs:316-407 | two pings are never sent within one interval of each other |
| `Channels.GatewaySession.constructor` | gateway/src/sc2.rs:124-137 | a session starts with no channels |
| `Channels.GatewaySession.Join` | gateway/src/sc2.rs:314-328 | one join at a time, pending only once the command went out |
| `Channels.GatewaySession.LeaveActiveChannel` | gateway/src/sc2.rs:334-345 | leaving clears the active channel, its announcement and its entry once the command went out |
| `Channels.GatewaySession.IdentifyToon` | gateway/src/sc2.rs:591-609 | the first name of the local member is kept |
| `Channels.GatewaySession.ApplyJoined` | gateway/src/sc2.rs:491-516 | a join activates, leaves the previous channel and awaits an announcement, or is only recorded |
| `Channels.GatewaySession.ApplyRoster` | gateway/src/sc2.rs:518-541 | a complete roster announces an awaited channel; later ones report visible changes |
| `Channels.GatewaySession.ApplyMemberJoined` | gateway/src/sc2.rs:543-559 | a newcomer or a changed visible name in the active channel is reported |
| `Channels.GatewaySession.ApplyMemberLeft` | gateway/src/sc2.rs:561-572 | a departure from the active channel is reported with the name known |
| `Channels.GatewaySession.ApplyRemoved` | gateway/src/sc2.rs:574-589 | removal forgets the channel and everything waiting on it |
| `Channels.SameLegacyRosterIff` | gateway/src/sc2.rs:657-664 | equal sizes and one-way matching mean the same handles with the same visible names |
| `ChannelRuns.RunsAreSound` | gateway/src/sc2.rs:491-589 | in every run in which each channel change told the worker to leave the old channel, other commands failed or not, the pending announcement is none or the active channel, the active channel is known, and both are what the record of activations, announcements, leaves and removals says |
| `ChannelRuns.BrokenIff` | gateway/src/sc2.rs:314-345 | a call finds the worker gone if and only if it has a command to send and there is no worker |
| `ChannelRuns.SoundUnlessStrands` | gateway/src/sc2.rs:491-516 | a call breaks the agreement of active channel and pending announcement if and only if it activates a new channel, cannot send the leave for the old one, and an announcement was pending |
| `ChannelRuns.SoundThroughoutIff` | gateway/src/sc2.rs:491-589 | with or without the worker, they agree at every moment of a run if and only if no call of it is such a call |
| `ChannelRuns.UnsaidIsForgotten` | gateway/src/sc2.rs:507-514 | a channel change that cannot tell the worker drops the old channel without a trace, announced or not |
| `ChannelRuns.EndsThroughoutIff` | gateway/src/sc2.rs:491-589 | every channel that was ever active still is, or was left by command or removed, at every moment of a run if and only if every channel change told the worker to leave the old one |
| `ChannelRuns.ReportsAreOfTheCurrentChannel` | gateway/src/sc2.rs:435-589 | whatever is reported is of the channel last activated and not ended since, and a channel is announced only by a complete roster, once awaited |
| `ChannelRuns.ActiveUntilLeftOrRemoved` | gateway/src/sc2.rs:334-345 | a channel that was ever active still is, or was left by command or removed by the server since |
| `ChannelRuns.AnnouncedOncePerActivation` | gateway/src/sc2.rs:518-541 | between two announcements there is a new activation |
| `ChannelRuns.ToonNameStays` | gateway/src/sc2.rs:591-609 | the account's name never changes once known |
| `ChannelRuns.FailedLeaveStrandsAnnouncement` | gateway/src/sc2.rs:507-514 | three calls after which the old announcement outlives its channel |

## Left out

- Threads, sockets, HTTP, clocks and randomness: their outcomes are parameters or nondeterministic choices.
- RC4, the native record decoder, XML and JSON parsing, SQLite: parameters with stated hypotheses, or map updates for the statements.
- `run_worker` and `flush` as loops: they are the actions of a state machine, so their deadlines, backoff and the order of several sessions are not modelled; a batch may be cut whenever one is ready.
- The worker vanishing while a session is live: it is modelled in `Tapping`, while `Pipeline` assumes the worker runs.
- `storeEnvelope` is one atomic step: its read and its batch are taken as serialised per session.
- The server's nightly pruning is not a step of `Pipeline`; it is modelled on its own.
- The session identity and feed partition of the tables: `Store` is one session of one feed, `Pruning` has all of them.
- LiveRuns.FeedFollowsClient: sharing is on throughout; what becomes of the mirrors while it is off, and of the feed when it comes on again, is stated beside it. A portrait a member no longer has may be remembered.
- Standing.RowsAreOfTheLog: with the end of a session among the events the sync state depends on how they were cut into envelopes (EndSwallowsSync), so there only rosters and channels of a log without syncs are compared.
- EndToEnd.StoredFeedFollowsTap: nothing lost and one feed; with losses or a new feed `PipelineSafety` and `ExactlyOnce` say what is stored.
- The per-channel allow-list of `reconciliation_events`: the tap never passes one.
- The `party` key: the client can produce it and the server's key check, which is not modelled, refuses it.
- Validation of field shapes in envelopes, string limits and decoding of malformed text: well-formed values only.
- The 32-bit name hash, lower-casing, presence text and the normalised avatar of a classic user in `SnapshotDiff`: parameters or given fields; two users of one hash are one member, as in the source.
- Portraits and join order in `SnapshotDiff`: the classic products send neither.
- The Warcraft III projector: the same roster difference with another member record.
- `ended_at` is carried through the tables but nothing is claimed about it beyond liveness.
- Friends.FriendOperations: requires names to be distinct and at most 256 entries, because the script finds friends by name and addresses them by one byte.
- Logon: write failures and the bytes of replies other than the logon status; a failed write ends the connection.
- Chat commands and the channel list are not gated by logon in the source, and nothing is claimed of them.
- `Session::resolve_channel` and friend presence in the gateway: a lookup and a table.
- Activation and authentication of the sniffer (`Sweep::try_activate`): cryptography; its result is the offsets at which splitting starts. The error after 128 packets of one direction, flows other than the active one and the skipping of empty packets are left out with it.
- The order of the rows a reader gets back: it is determined by the rows, which are proved equal.
- Descriptor summaries, preferences, product tables, rate limiting and backoff delays: one-branch functions.
