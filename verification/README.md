# Verification of the tmuxcc replication core

A Dafny model of how tmuxcc replicates terminal sessions, and proofs of what it
promises: authoritative state travels as a snapshot plus ordered deltas over one
multiplexed byte stream per connection, and clients hold copies that must agree
with it. `dafny verify dfyconfig.toml` checks the whole project.

| file | models |
|---|---|
| `Framing.dfy` | binary frames and the streaming decoder over a list of chunks |
| `SocketTransport.dfy` | the two-plane demultiplexer and the sender of one connection |
| `Projection.dfy`, `Deltas.dfy`, `Agreement.dfy` | the server's model, its snapshot and its diff, against the client |
| `DeltaOrder.dfy` | exactly which messages a diff holds, in which order, and why that order is safe |
| `ClientModel.dfy`, `ModelHistory.dfy` | the client's model, the functions that fold messages into it, and what it remembers of them |
| `Replica.dfy`, `Resync.dfy` | the sequence-gap machine under loss, repetition and reordering, and recovery |
| `Renderer.dfy`, `Mirror.dfy` | model changes turned back into callbacks, and the stateful mirror around them |
| `PaneStream.dfy` | per-pane output with a bounded buffer before the first subscriber |
| `InputApi.dfy` | client output with coalesced resizes |
| `Broker.dfy`, `Refresh.dfy`, `ClaimSession.dfy`, `UniqueNames.dfy` | the broker: session table and clients, coalesced reconcile, claims, naming |
| `Supervisor.dfy` | the session-proxy registry and its circuit breaker |
| `MetricsExposition.dfy`, `MetricsConservation.dfy` | the merge of Prometheus text expositions (text format 0.0.4) |

State that the source updates in place is a class here. Where properties range
over runs, a class's methods are proved to be the steps of a pure machine (`Next`
or `Receive`, and `Run` over a sequence of events), and the properties are proved
of every run of that machine: every `await`, queued microtask and event handler
is a step of its own, so a run is any interleaving. Non-determinism that the
source does not control (map iteration order, a send that throws, what a handler
does, what tmux answers) is left open.

Ghost bookkeeping: `calls`, `events`, `received` and `history` record what
happened; `log`, `wire`, `delivered`, `calls` of `HookFeed` record what was handed
to the outside; `collided` of the broker says that some step wrote or deleted a name
that was another session's, `silentFlip` that clients missed a change of
availability. Identity of promises and entry objects is a number. A resize on the
wire carries the number of its request as `ticket`.

Where the code and its documentation disagree, the model follows the code:

- `socket-transport.ts` says control messages up to 2^32 bytes are supported; a
  length whose first byte is 0xCC is taken for a frame (`InterleavingArrives`).
- The encoder accepts payloads up to 4294967295 bytes, the decoder at most 8 MiB
  (`FrameRoundTrip`).
- The frame decoder documents that it returns all complete frames; when a bad frame
  follows good ones in the same push, the good ones are lost
  (`Framing.PushesHandOut`, `Framing.CutDecides`).
- The projection promises that snapshot plus diff equals the next snapshot; it
  does exactly for announceable changes (`DiffAgrees`). A window born with
  synchronize-panes on, a pane born with a title and a title that is cleared are
  not (`BornSynchronisedIsLost`, `BornTitledIsLost`, `ClearedTitleIsEmpty`).
- The supervisor says a boundary trip stops the session-proxy; it marks the entry
  torn down first, so `stop()` is not called there (`Supervisor.AtMostOnce`).
- The supervisor holds a fatal error before start() has completed for impossible,
  and a trip of an entry that is not registered for a stale one; a trip while
  start() is awaited comes after the entry is patched in, is swallowed, and the
  stopped pipeline is then registered, deaf to further trips
  (`Supervisor.ReadySlotHealth`, `Supervisor.EarlyTripIsRegistered`).
- The broker says its first refresh runs before it accepts connections, so that no
  client can miss a change of tmux's availability; the socket is bound before that
  refresh and clients register while start() still waits for the default shell
  (`Broker.ServerProxy.RecordReconcile`, `Broker.FlipBeforeStartIsMissed`).
- The broker says at most one reconcile runs at a time; a call between a run's
  finally and its follow-up makes two (`CallInGapOverlaps`).

## Model

| member | source | states |
|---|---|---|
| `Framing.EncodeFrame` | packages/protocol/src/framing.ts:162-195 | the bytes written into the array are the frame of the layout table, or exactly the range error the encoder throws |
| `Framing.FrameLayout` | packages/protocol/src/framing.ts:90-97 | the bytes of a frame by offset: magic 0xCC, sequence number, payload length and id length with high bytes first, id, payload |
| `Framing.FrameRoundTrip` | packages/protocol/src/framing.ts:162-195 | encode then decode gives the frame back, whatever follows it on the stream, exactly for payloads up to MAX_FRAME; longer ones are refused as oversized |
| `Framing.DecodeIsInverse` | packages/protocol/src/framing.ts:385-419 | whatever decodes is the encoding of what it decodes to, so no other bytes mean the same frame |
| `Framing.DecodeStable` | packages/protocol/src/framing.ts:385-419 | a verdict reached on a prefix is the verdict on any longer buffer |
| `Framing.DrainSplit` | packages/protocol/src/framing.ts:238-297 | draining a prefix and going on later is draining the whole |
| `Framing.ChunkingIndependence` | packages/protocol/src/framing.ts:238-297 | draining chunk after chunk, frames of a failing chunk included, is draining the concatenated bytes |
| `Framing.StreamDecodes` | packages/protocol/src/framing.ts:162-297 | any part of a stream of encoded frames drains to the complete frames and leaves a strict prefix of the next one |
| `Framing.ChunkedStreamDecodes` | packages/protocol/src/framing.ts:238-297 | the same when it is drained chunk by chunk |
| `Framing.PushesHandOut` | packages/protocol/src/framing.ts:238-297 | over any sequence of pushes the bytes kept and the verdict are those of the concatenated bytes; the frames handed out are its first ones, and all of them if and only if the push that met the bad header, if one did, completed no frame of its own |
| `Framing.CutDecides` | packages/protocol/src/framing.ts:238-297 | the same bytes cut in two ways, a frame and a bad header: in one push the frame is lost, in two it is handed out |
| `Framing.DecoderHandsOut` | packages/protocol/src/framing.ts:228-297 | a decoder's frames handed out and bytes kept, in terms of all it was pushed, with the same exact condition |
| `Framing.DecoderDecodesStream` | packages/protocol/src/framing.ts:228-297 | a decoder pushed any part of a stream of encoded frames in any chunks has handed out exactly the complete frames and keeps a strict prefix of the next |
| `Framing.FrameDecoder.PeekBytes` | packages/protocol/src/framing.ts:304-324 | peeking over the chunk list is the prefix of the flat bytes |
| `Framing.FrameDecoder.ConsumeBytes` | packages/protocol/src/framing.ts:330-369 | consuming over the chunk list returns the prefix and leaves the suffix of the flat bytes; no empty chunk is kept and the running length stays right |
| `Framing.FrameDecoder.Push` | packages/protocol/src/framing.ts:238-297 | one push is one drain of the buffered bytes plus the chunk; a bad frame keeps the bytes and loses the frames decoded in the same call; the decoder stays what its pushes determine |
| `SocketTransport.CutOfUnit` | packages/driver/src/socket-transport.ts:301-415 | the unit cut off the front of an encoded call is that call's, with exactly its bytes, for in-bound calls, and never that call's for others |
| `SocketTransport.DemuxSplit` | packages/driver/src/socket-transport.ts:270-415 | demultiplexing a prefix and going on later is demultiplexing the whole, for any bytes |
| `SocketTransport.InterleavingArrives` | packages/driver/src/socket-transport.ts:171-207 | any interleaving of sends arrives as that interleaving, complete and in order, if and only if no control length starts with 0xCC and no payload exceeds MAX_FRAME |
| `SocketTransport.ToInt32Step` | packages/driver/src/socket-transport.ts:197-207 | counting with the 32-bit signed wrap stays congruent to the true count |
| `SocketTransport.SentData` | packages/driver/src/socket-transport.ts:197-207 | the stored counter is the count of the pane's calls, wrapped, independently of the other panes; it moves even when encoding throws |
| `SocketTransport.FramesCountUp` | packages/driver/src/socket-transport.ts:197-207 | on the wire the first frame of a pane carries 0 and each later one the number of the pane's frame before it plus one, modulo 2^32, whatever is sent between them |
| `SocketTransport.Transport.OnData` | packages/driver/src/socket-transport.ts:270-281 | receiving keeps delivered units plus what the buffer holds equal to the demultiplexing of everything received; a closed transport delivers nothing |
| `SocketTransport.Transport.ProcessBuffer` | packages/driver/src/socket-transport.ts:301-415 | the loop delivers only units of the received bytes, in order, whatever handlers do: close the transport or install another handler |
| `SocketTransport.Transport.SendControlMessage` | packages/driver/src/socket-transport.ts:171-193 | the bytes written are those of the calls made while open; a payload the length field cannot hold writes nothing |
| `SocketTransport.Transport.SendPaneData` | packages/driver/src/socket-transport.ts:197-207 | the bytes written and the per-pane counters are those of the calls made while open |
| `SocketTransport.Transport.Close` | packages/driver/src/socket-transport.ts:251-266 | the first reason for closing stays |
| `SocketTransport.SettledOutcome` | packages/driver/src/socket-transport.ts:270-415 | once no callback is queued, delivered units, the close verdict and the leftover depend only on the concatenated bytes |
| `SocketTransport.EndToEnd` | packages/driver/src/socket-transport.ts:171-415 | what one transport sends the other delivers, call by call, with nothing left over |
| `ClientModel.ApplyAllConcat` | clients/ts/src/mirror.ts:425-734 | applying two runs of deltas is applying their concatenation |
| `ClientModel.SnapshotWellFormed` | clients/ts/src/mirror.ts:333-406 | in any snapshot's model only a dead pane has an exit code |
| `ClientModel.DeltaWellFormed` | clients/ts/src/mirror.ts:425-734 | every delta keeps that |
| `ModelHistory.ModelRemembers` | clients/ts/src/mirror.ts:333-734 | after a snapshot and any messages the panes are those open, each with the origin it was opened with and its last mode; exit codes and close causes are those of the last closing that gave one; client count and connection id are the last told |
| `ModelHistory.ClosingCode` | clients/ts/src/mirror.ts:476-500 | the code and cause on record after a closing are the closing message's if and only if it gave one or none is left from an earlier life of the id |
| `Projection.SnapshotAgrees` | packages/driver/src/state/projection.ts:191-278 | a client that applies the snapshot sees exactly the server's windows, panes, titles, session and focus, with binding resolved for that client, and the client count and connection id it was given |
| `DeltaOrder.DiffIsDue` | packages/driver/src/state/projection.ts:35-55 | the diff is exactly the due messages, each once: for every kind those panes and windows that differ in it, with the new values and the origin and cause looked up; and they stand in the order of the delta ordering rule |
| `DeltaOrder.NothingUnannounced` | packages/driver/src/state/projection.ts:35-55 | no message of a diff speaks of a pane or window the client was not told of before, or was already told is gone |
| `Deltas.PaneGroupEffect` | packages/driver/src/state/projection.ts:413-600 | one group of pane deltas patches exactly the listed surviving panes |
| `Deltas.WindowGroupEffect` | packages/driver/src/state/projection.ts:389-412 | one group of window deltas patches exactly the listed windows |
| `Agreement.WindowsAddedEffect` | packages/driver/src/state/projection.ts:331-351 | window.added for all new windows adds exactly them and moves the active flag |
| `Agreement.PanesOpenedEffect` | packages/driver/src/state/projection.ts:352-388 | pane.opened for all new panes adds exactly them as the server holds them |
| `Agreement.PanesClosedEffect` | packages/driver/src/state/projection.ts:320-728 | pane.closed takes away exactly the panes that are gone |
| `Agreement.WindowsClosedEffect` | packages/driver/src/state/projection.ts:320-728 | window.closed takes away exactly the windows that are gone |
| `Agreement.DiffAgreesButForTitles` | packages/driver/src/state/projection.ts:320-728 | the round trip without live titles: a client that agreed and applies the diff agrees again, if and only if the change is announceable (default flags on new windows, no layout forgotten, active window announced, same session) |
| `Agreement.TitlesAgreeExactly` | packages/driver/src/state/projection.ts:561-586 | the titles after the diff are the server's if and only if no new pane has one and no surviving pane loses its own |
| `Agreement.DiffAgrees` | packages/driver/src/state/projection.ts:320-728 | the whole round trip, titles included, holds if and only if both conditions do |
| `Agreement.FocusedModelsAnnounceActivity` | packages/driver/src/state/projection.ts:320-728 | between models whose focused window is the active one, the active flags are always announced |
| `Agreement.RunAgrees` | packages/driver/src/state/projection.ts:191-728 | over a whole run of announceable changes, snapshot plus all diffs leaves the client agreeing with the last model, titles included |
| `Agreement.RunAgreesButForTitles` | packages/driver/src/state/projection.ts:191-728 | and on everything but titles, whatever becomes of them |
| `Agreement.BornSynchronisedIsLost` | packages/driver/src/state/projection.ts:331-351 | a window born with synchronize-panes on leaves the client wrong: the round trip the documentation promises does not hold for it |
| `Agreement.BornTitledIsLost` | packages/driver/src/state/projection.ts:352-388 | a pane born with a title leaves the client without it |
| `Agreement.ClearedTitleIsEmpty` | packages/driver/src/state/projection.ts:561-586 | a title that is cleared leaves the client with an empty one where the snapshot has none |
| `Replica.FaithfulStep` | clients/ts/src/mirror.ts:1067-1285 | receiving any log message keeps the copy equal to the log folded up to lastSeq |
| `Replica.ReplicaSafety` | clients/ts/src/mirror.ts:1067-1285 | under any dropping, repeating and reordering, an initialised mirror holds the log's state at exactly lastSeq |
| `Replica.AtMostOneRequest` | clients/ts/src/mirror.ts:1145-1197 | whatever messages arrive, at most one resync.request is ever sent, and exactly one once a gap was seen |
| `Replica.GapReaction` | clients/ts/src/mirror.ts:1145-1197 | over any messages: the first message out of sequence sends the request, one before the answering snapshot is ignored, one after it closes the transport, nothing else does, and model and sequence number stay |
| `Replica.SlotFillersChangeNothing` | clients/ts/src/mirror.ts:1204-1262 | answers, errors, capabilities, hydration and notices use up their number and leave the model alone |
| `Resync.StepInv` | packages/protocol/src/session-proxy-control.ts:1785-1811 | every emission, answer, loss before the answer and delivery keeps the recovery invariant |
| `Resync.Convergence` | packages/protocol/src/session-proxy-control.ts:1785-1811 | over every such run the transport is never closed and at most one request is sent; after a gap, once answered and drained, sequence number and model are the server's head |
| `Resync.DrainedMeansCurrent` | clients/ts/src/mirror.ts:1145-1197 | for every run with a drained channel, the copy is at the server's head if and only if nothing was lost, or the one request was sent and answered |
| `Resync.TailLossGoesUnnoticed` | clients/ts/src/mirror.ts:1145-1151 | a lost last message leaves the copy behind with no request sent |
| `Resync.SnapshotResets` | clients/ts/src/mirror.ts:333-406 | a re-sent snapshot makes everything before it irrelevant |
| `Resync.RecoveredMirrorAgrees` | clients/ts/src/mirror.ts:1067-1285 | a mirror that recovered and drained shows the server's current model, whatever was lost, client-count and stateless messages interleaved; its titles too if all could be announced |
| `Renderer.ComparedInTurn` | clients/ts/src/mirror.ts:1474-1510 | the field-by-field comparisons together bring a stale pane view up to date |
| `Renderer.HookFeed.constructor` | clients/ts/src/mirror.ts:1548-1617 | the catch-up makes a renderer hold exactly the model, without its live titles, and listen to exactly its panes; every callback is due, origin and active flag included, then come focus and onConnected |
| `Renderer.HookFeed.DiffWindows` | clients/ts/src/mirror.ts:1423-1447 | after the window callbacks the renderer's windows (name, layout) are the new model's; an equal layout object may be reported again |
| `Renderer.HookFeed.DiffPanes` | clients/ts/src/mirror.ts:1449-1520 | after the pane callbacks the renderer's panes and the byte subscriptions are the new model's; new panes have no title, changed titles are told, the others stay |
| `Renderer.HookFeed.ComparePane` | clients/ts/src/mirror.ts:1474-1510 | callbacks for one surviving pane leave it as the new model has it, and each tells a field that changed |
| `Renderer.HookFeed.ApplyModelDiff` | clients/ts/src/mirror.ts:1420-1546 | one model change takes a renderer that follows one model, titles as far as they were told, to following the next, in any iteration order; every callback tells a difference between the two models, with the new values, and focus comes last, if and only if it moved |
| `Renderer.HookFeed.Teardown` | clients/ts/src/mirror.ts:1626-1635 | detaching unsubscribes every pane and reports the disconnect, once |
| `Renderer.TitleShownExactly` | clients/ts/src/mirror.ts:1455-1510 | a renderer shows a pane's live title if and only if it changed since the hook opened the pane, or there is none |
| `Renderer.RetitledFollows` | clients/ts/src/mirror.ts:1455-1510 | the titles told by one diff, on top of those known, are exactly those that have changed while the pane was open |
| `Renderer.ClosingReported` | clients/ts/src/mirror.ts:1511-1520 | a pane.closed message reaches the hook as onPaneClosed with that message's exit code and cause, or those of an earlier closing of the id where it has none |
| `Mirror.Mirror.AcceptDelta` | clients/ts/src/mirror.ts:1098-1285 | forwarding, gap handling, sequence accounting and model update are those of the reference machine; requests are numbered and sent only while connected |
| `Mirror.Mirror.LogHydration` | clients/ts/src/mirror.ts:1665-1673 | the hydration log is the last 1024 events |
| `Mirror.Mirror.Handle` | clients/ts/src/mirror.ts:1310-1327 | each message keeps state, forwarded messages and hydration log those of everything received, sends a request exactly on the first gap while connected, and tells an attached renderer exactly the difference of the models |
| `Mirror.Mirror.Attach` | clients/ts/src/mirror.ts:1374-1382 | attaching works once, with a catch-up; a first call before wireDataSources throws and makes every later call do nothing |
| `Mirror.Mirror.DetachHook` | clients/ts/src/mirror.ts:1644-1649 | detaching is done once and leaves no subscription |
| `Mirror.ForwardedInOrder` | clients/ts/src/mirror.ts:1098-1127 | command responses and errors reach their handlers once each, in order, whatever the sequence numbers are |
| `Mirror.HydrationInSequence` | clients/ts/src/mirror.ts:1223-1249 | a hydration message is logged if and only if it comes in sequence |
| `Mirror.AttachTimeIsInvisible` | clients/ts/src/mirror.ts:1374-1635 | attaching early or late gives the same picture and subscriptions |
| `Mirror.HookShowsServerState` | clients/ts/src/mirror.ts:1067-1635 | a renderer behind an adversarial channel shows the server log's state at lastSeq, and of the live titles exactly those that changed while it watched |
| `PaneStream.KeptIsSuffix` | clients/ts/src/pane-stream.ts:233-251 | the buffer is a contiguous suffix of the window's bytes, within the cap, and eviction is minimal |
| `PaneStream.KeptAll` | clients/ts/src/pane-stream.ts:233-251 | nothing is lost if and only if the window's bytes fit the cap |
| `PaneStream.FitAppend` | clients/ts/src/pane-stream.ts:243-250 | evicting as chunks arrive keeps the longest suffix that fits |
| `PaneStream.HandlersOrWindow` | clients/ts/src/pane-stream.ts:227-326 | a pane with handlers has nothing waiting |
| `PaneStream.Conservation` | clients/ts/src/pane-stream.ts:227-326 | every byte pushed was handed on, waits, or was dropped; handed-on followed by waiting is pushed, in order, if and only if no subscription found more bytes waiting than the cap |
| `PaneStream.DroppedByOverflow` | clients/ts/src/pane-stream.ts:227-326 | bytes are dropped exactly when some subscription finds a window longer than the cap |
| `PaneStream.PaneStreamConsumer.Store` | clients/ts/src/pane-stream.ts:239-250 | the eviction loop keeps the longest suffix that still fits with the new chunk |
| `PaneStream.PaneStreamConsumer.Push` | clients/ts/src/pane-stream.ts:227-263 | a push calls the i-th pane handler i-th and then the i-th global handler, each with the bytes, or buffers; every handler has then received what its registrations made due |
| `PaneStream.PaneStreamConsumer.OnPaneOutput` | clients/ts/src/pane-stream.ts:285-317 | the new handler, and only it, gets the whole backlog in order |
| `PaneStream.PaneStreamConsumer.Unsubscribe` | clients/ts/src/pane-stream.ts:319-326 | the first registration of the handler goes, if any |
| `PaneStream.WithoutOne` | clients/ts/src/pane-stream.ts:319-326 | unsubscribing takes away one registration of that handler and none of another |
| `PaneStream.PaneStreamConsumer.OnOutput` | clients/ts/src/pane-stream.ts:343-351 | a global handler joins at the end |
| `PaneStream.PaneStreamConsumer.OffOutput` | clients/ts/src/pane-stream.ts:345-350 | and its first registration goes |
| `PaneStream.PaneStreamConsumer.GetBuffered` | clients/ts/src/pane-stream.ts:368-380 | the copy is the concatenated backlog, or nothing |
| `PaneStream.BufferInvariant` | clients/ts/src/pane-stream.ts:227-326 | a pane never has both a handler and a backlog; the byte count is the backlog's length and within the cap |
| `PaneStream.NothingLost` | clients/ts/src/pane-stream.ts:227-326 | for a real consumer: handed on plus backlog equals pushed if and only if no subscription found more bytes waiting than the cap, and no more wait now |
| `PaneStream.SubscriberGetsAll` | clients/ts/src/pane-stream.ts:227-326 | for a real consumer: a pane handler registered once and still registered was given the backlog it found and then every byte pushed since, in order, and nothing else |
| `PaneStream.UnsubscribedGetsNothing` | clients/ts/src/pane-stream.ts:319-326 | a handler that is not registered is given nothing more |
| `PaneStream.DueWhile` | clients/ts/src/pane-stream.ts:227-263 | while its registrations stay, what is due to a handler grows by every push to the pane or by none |
| `InputApi.RunKeeps` | clients/ts/src/input.ts:376-505 | for every run: wire sequence numbers are 1, 2, 3, ...; a pending resize has its flush queued; resizes carry requested sizes, in order per pane, and follow into the wire before every later sendCommand; no pane's latest size is lost |
| `InputApi.WireIsCalls` | clients/ts/src/input.ts:376-505 | the wire without its resizes is the calls that speak, in order and with their contents; the resizes on record are those called for before the first markDisconnected |
| `InputApi.FlushAnswersAll` | clients/ts/src/input.ts:382-402 | after flush, sendCommand or a queued callback nothing is pending and every resize called for is answered on the wire |
| `InputApi.BurstLeavesOnce` | clients/ts/src/input.ts:416-434 | any burst of resizes and a flush put one resize per pane on the wire, the last size called for |
| `InputApi.ResizesWait` | clients/ts/src/input.ts:396-434 | until then the burst puts nothing on the wire and queues one callback, unless one is still to come |
| `InputApi.MicrotasksRunOut` | clients/ts/src/input.ts:396-402 | each queued callback runs once, and then none is left |
| `InputApi.QuietMeansSent` | clients/ts/src/input.ts:382-402 | with the microtask queue empty every pane's latest size is on the wire |
| `InputApi.NoResizeAfterDisconnect` | clients/ts/src/input.ts:414-453 | once disconnected, no resize is put on record or leaves |
| `InputApi.DisconnectSilencesResizes` | clients/ts/src/input.ts:414-453 | after markDisconnected no resize leaves, neither one that was pending nor one called for later, whatever is called or fires |
| `InputApi.VerbOvertakesExactlyPending` | clients/ts/src/input.ts:473-505 | a sendVerb leaves earlier resizes behind it if and only if some are pending |
| `InputApi.VerbOvertakesResize` | clients/ts/src/input.ts:473-505 | the concrete run in which it does |
| `InputApi.PutEntries` | clients/ts/src/input.ts:432-433 | setting an entry keeps one entry per pane and the others' places |
| `InputApi.Api.FlushPending` | clients/ts/src/input.ts:382-394 | the flush loop sends every pending size once, in map order, and empties the map |
| `InputApi.Api.ResizePane` | clients/ts/src/input.ts:416-434 | one call is one step of the machine: dropped, sent at once, or coalesced |
| `InputApi.Api.SendCommand` | clients/ts/src/input.ts:455-471 | one call is one step: flush first, then the command with its own number as correlation id |
| `InputApi.Api.SendVerb` | clients/ts/src/input.ts:473-505 | one call is one step: no flush |
| `InputApi.Api.MarkDisconnected` | clients/ts/src/input.ts:442-453 | one call is one step: pending sizes dropped, flush disarmed |
| `InputApi.Api.RunMicrotask` | clients/ts/src/input.ts:396-402 | a queued callback is one step |
| `MetricsExposition.ParseExposition` | packages/driver/src/metrics-exposition.ts:101-142 | the line loop computes the parse of the text |
| `MetricsExposition.ParseSound` | packages/driver/src/metrics-exposition.ts:101-142 | every parsed family has headers naming it, samples extending its name, and one of them introducing it; names are distinct |
| `MetricsConservation.ParseKeeps` | packages/driver/src/metrics-exposition.ts:101-142 | parsing keeps every sample line of the text, as often as it is there, and no other, and gives each family its last headers |
| `MetricsExposition.SplitJoined` | packages/driver/src/metrics-exposition.ts:236-236 | joining one-line strings and splitting again gives them back |
| `MetricsExposition.RoundTrip` | packages/driver/src/metrics-exposition.ts:101-142 | printing families and parsing them gives them back if and only if each, after the first, has a header or a name that does not extend the one before |
| `MetricsExposition.LabelReadsBack` | packages/driver/src/metrics-exposition.ts:155-156 | for any session id a reader of the escaped label gets the id back and stops where it ends |
| `MetricsConservation.LabelJoins` | packages/driver/src/metrics-exposition.ts:154-165 | a sample with labels gets session="<id>" first among them, and a comma if there were others |
| `MetricsConservation.LabelStarts` | packages/driver/src/metrics-exposition.ts:166-168 | a sample without labels gets the session as its only one |
| `MetricsExposition.InjectKeepsName` | packages/driver/src/metrics-exposition.ts:84-168 | the injected label never changes which metric a line belongs to |
| `MetricsExposition.InjectKeepsSample` | packages/driver/src/metrics-exposition.ts:154-168 | a labelled line stays one non-comment line |
| `MetricsExposition.LabelRemoved` | packages/driver/src/metrics-exposition.ts:154-168 | removing the label recovers the line if and only if it is not one of three degenerate shapes |
| `MetricsExposition.SessionOnlyNames` | packages/driver/src/metrics-exposition.ts:203-219 | the session-only families are exactly those some session declares and the server does not, once each |
| `MetricsExposition.MergedSound` | packages/driver/src/metrics-exposition.ts:185-236 | the merged families are well formed: own headers, own samples, distinct names |
| `MetricsExposition.MergeMetricsText` | packages/driver/src/metrics-exposition.ts:185-237 | the loops over sets and maps print the server's families and then each session-only family with the first header and every session's labelled samples |
| `MetricsConservation.MergeKeepsSamples` | packages/driver/src/metrics-exposition.ts:185-237 | server families come first, as they are; then each session-only family holds every sample of every session once, labelled with its session, in the order of sessions and then of samples, under the headers of the first session that has it |
| `MetricsConservation.MergeKeepsNames` | packages/driver/src/metrics-exposition.ts:203-219 | every family some session declares is in the merge |
| `MetricsConservation.MergeKeepsOrder` | packages/driver/src/metrics-exposition.ts:203-219 | session-only families come in the order in which the sessions first name them |
| `MetricsExposition.MergeRoundTrip` | packages/driver/src/metrics-exposition.ts:185-237 | parsing the merged text gives exactly those families if and only if they are separable |
| `MetricsExposition.HeadedMerge` | packages/driver/src/metrics-exposition.ts:185-237 | so it always does for expositions whose families all have headers |
| `Supervisor.RunKeeps` | packages/driver/src/session-proxy-supervisor.ts:414-827 | over every interleaving: a slot's entry is of its own session and was not reaped, tripped out or reported crashed; quarantined sessions have no slot; an entry leaves by at most one of reap, trip and crash |
| `Supervisor.ReadySlotHealth` | packages/driver/src/session-proxy-supervisor.ts:453-472 | over every run no slot's entry is torn down, and a ready one is deaf to trips if and only if it tripped before its registration, while start() was awaited included |
| `Supervisor.EarlyTripIsRegistered` | packages/driver/src/session-proxy-supervisor.ts:595-616 | the run in which it is: a trip while start() is awaited is swallowed and uncounted, and the stopped pipeline is then registered |
| `Supervisor.AtMostOnce` | packages/driver/src/session-proxy-supervisor.ts:504-827 | stop() and the crash handler run at most once per entry; never a crash for a reaped or tripped entry; a tripped entry is never stopped |
| `Supervisor.ReapedAreStopped` | packages/driver/src/session-proxy-supervisor.ts:504-528 | over every run a reaped entry, its callback done if it was still being created, has been stopped if and only if its host did not die first |
| `Supervisor.ReapStops` | packages/driver/src/session-proxy-supervisor.ts:504-528 | reaping a ready session frees its slot and calls stop() then and there |
| `Supervisor.ReapIsRemembered` | packages/driver/src/session-proxy-supervisor.ts:504-528 | reaping one that is being created frees its slot and leaves the stopping to its callback |
| `Supervisor.LateReapStops` | packages/driver/src/session-proxy-supervisor.ts:504-528 | which calls stop() unless the entry is torn down |
| `Supervisor.DeathIsReported` | packages/driver/src/session-proxy-supervisor.ts:748-762 | the death of a registered entry's host frees the slot and calls the crash handler once |
| `Supervisor.EnsureServes` | packages/driver/src/session-proxy-supervisor.ts:414-472 | a session without slot that is not quarantined gets one new creation, which holds the slot when it has started |
| `Supervisor.StaleEventsAreHarmless` | packages/driver/src/session-proxy-supervisor.ts:603-762 | a trip or death changes the registry only if that very entry is registered, and then removes only its slot |
| `Supervisor.BreakerRefinement` | packages/driver/src/session-proxy-supervisor.ts:595-678 | a session is quarantined exactly while the unbounded history since its last clear holds three consecutive trips within 10000 ms, and then has no slot |
| `Supervisor.TripIsCounted` | packages/driver/src/session-proxy-supervisor.ts:603-678 | a trip of a registered entry frees the slot, is counted, and quarantines exactly if it completes a burst; a deaf entry's does nothing |
| `Supervisor.ClearingForgets` | packages/driver/src/session-proxy-supervisor.ts:382-392 | clearing lifts the quarantine and forgets the trips |
| `Supervisor.OneMoreTrip` | packages/driver/src/session-proxy-supervisor.ts:628-646 | the three-entry log decides as the whole history would |
| `Supervisor.MonotoneBurst` | packages/driver/src/session-proxy-supervisor.ts:628-646 | with a clock that never runs backwards any three trips will do |
| `Supervisor.FailureEvicts` | packages/driver/src/session-proxy-supervisor.ts:453-460 | the removal after a failed creation is the identity-guarded one if and only if the slot is its own or empty |
| `Supervisor.LateFailureOrphansSuccessor` | packages/driver/src/session-proxy-supervisor.ts:453-460 | the run in which it evicts a newer creation, which then runs in no slot |
| `Supervisor.OrphansWereEvicted` | packages/driver/src/session-proxy-supervisor.ts:453-460 | over every run, a started entry whose start() has been awaited and that was not reaped, tripped or reported crashed holds no slot if and only if the failure of another creation removed its slot |
| `Supervisor.SessionProxySupervisor.EnsureSessionProxy` | packages/driver/src/session-proxy-supervisor.ts:414-449 | quarantine rejects, an existing slot is shared, otherwise one creation is registered at once |
| `Supervisor.SessionProxySupervisor.ContinueAfterStart` | packages/driver/src/session-proxy-supervisor.ts:462-472 | the entry replaces its promise only if that is still registered |
| `Supervisor.SessionProxySupervisor.ContinueAfterFailure` | packages/driver/src/session-proxy-supervisor.ts:453-460 | the slot is removed without a check |
| `Supervisor.SessionProxySupervisor.ReapSessionProxy` | packages/driver/src/session-proxy-supervisor.ts:504-528 | a ready entry is torn down, a creation in flight is left to its callback |
| `Supervisor.SessionProxySupervisor.PushTrip` | packages/driver/src/session-proxy-supervisor.ts:628-637 | push and shift keep the last three |
| `Supervisor.SessionProxySupervisor.OnFatalError` | packages/driver/src/session-proxy-supervisor.ts:595-678 | one call is one step of the machine, guards and order included |
| `Supervisor.SessionProxySupervisor.OnHostDeath` | packages/driver/src/session-proxy-supervisor.ts:748-762 | one call is one step of the machine |
| `ClaimSession.SessionClaimer.RequestClaim` | packages/driver/src/claim-session.ts:370-391 | a claim joins the body in flight for its name or starts and locks one |
| `ClaimSession.SessionClaimer.Resume` | packages/driver/src/claim-session.ts:240-368 | the body's branches from one await to the next |
| `ClaimSession.SessionClaimer.Finally` | packages/driver/src/claim-session.ts:382-387 | the lock is removed if it is still this body's |
| `ClaimSession.FinallyGuardHolds` | packages/driver/src/claim-session.ts:382-387 | it always is |
| `ClaimSession.BodyOutcome` | packages/driver/src/claim-session.ts:240-368 | over every run a body succeeds if and only if it found the session, made it, or lost the race to one that is there, and then went through marking, scroll setting and session-proxy; it fails if and only if it lost the race for nothing or something threw; it has minted if and only if it found none and new-session made one |
| `ClaimSession.ClaimJoins` | packages/driver/src/claim-session.ts:370-391 | a claim awaits the open body of its name, or starts one of its own if there is none |
| `ClaimSession.CommandAnswer` | packages/driver/src/server-proxy.ts:2311-2425 | what a command gets follows from the way its body went: failure, created:true for its own mint and for nothing else, the session, a name taken, or another candidate; a template is applied exactly to its own mint |
| `ClaimSession.CreateClaims` | packages/driver/src/server-proxy.ts:2318-2333 | a create claims its name or candidate for itself if and only if that is neither in the table nor being claimed |
| `ClaimSession.CreateLooksFirst` | packages/driver/src/server-proxy.ts:2311-2317 | and claims nothing before the refresh |
| `ClaimSession.OneBodyPerName` | packages/driver/src/claim-session.ts:231-396 | at most one claim body per name runs at any time, and isInFlight tells |
| `ClaimSession.CreatedAtMostOnce` | packages/driver/src/server-proxy.ts:2311-2344 | each mint is reported as created to at most one command, the one that started it; a successful session.create or createUnique has minted |
| `ClaimSession.MintedOncePerName` | packages/driver/src/claim-session.ts:243-273 | unless another client removes the session, a name is minted at most once, and the session is there |
| `ClaimSession.TemplateAtMostOnce` | packages/driver/src/server-proxy.ts:2149-2162 | a template is applied at most once per mint, and only for a mint |
| `ClaimSession.RunKeeps` | packages/driver/src/claim-session.ts:231-396 | the lock table is exactly the open bodies, over every interleaving |
| `Refresh.ResolvedIsFresh` | packages/driver/src/server-proxy.ts:1448-1476 | a caller goes on only after a reconcile that began no earlier than its call is over |
| `Refresh.OneFollowUpPerRun` | packages/driver/src/server-proxy.ts:1448-1459 | any number of calls during one run queue at most one follow-up |
| `Refresh.ReactionsEnd` | packages/driver/src/server-proxy.ts:1462-1476 | reactions use up a measure, whether a reconcile fails or not |
| `Refresh.SomethingIsDue` | packages/driver/src/server-proxy.ts:1448-1476 | while a caller waits some reaction is due |
| `Refresh.EveryCallerResolves` | packages/driver/src/server-proxy.ts:1448-1476 | from any reachable state, letting the reactions run resolves every caller: nothing wedges |
| `Refresh.NoOverlap` | packages/driver/src/server-proxy.ts:1448-1476 | reconciles never overlap as long as nobody calls between a run's finally and its follow-up |
| `Refresh.CallInGapOverlaps` | packages/driver/src/server-proxy.ts:1448-1476 | a call in that gap lets two run at once |
| `Refresh.GapIsReachable` | packages/driver/src/server-proxy.ts:1448-1476 | the gap is reachable |
| `Refresh.Reconciler.RefreshSessions` | packages/driver/src/server-proxy.ts:1448-1460 | one call is one step of the machine and returns the promise it describes |
| `Refresh.Reconciler.Finally` | packages/driver/src/server-proxy.ts:1471-1473 | the in-flight run is forgotten only if it is this one |
| `Refresh.Reconciler.ContinuePending` | packages/driver/src/server-proxy.ts:1451-1454 | the queued callback clears the pending promise and starts a run |
| `Broker.ServerProxy.Broadcast` | packages/driver/src/server-proxy.ts:1931-1941 | each client left is stamped and sent exactly this message next; a throwing send drops the client |
| `Broker.ServerProxy.BroadcastExiting` | packages/driver/src/server-proxy.ts:1364-1378 | each client is stamped the message, kept even if its send throws |
| `Broker.ServerProxy.Announce` | packages/driver/src/server-proxy.ts:2618-2628 | a table change followed by its message keeps what every client was sent, and what every greeted client holds, equal to the table |
| `Broker.ServerProxy.FinishHandshake` | packages/driver/src/server-proxy.ts:1716-1771 | a client is registered only after a definitive reconcile and outside shutdown, and starts from a snapshot of the table at number 2 |
| `Broker.LostGreeting` | packages/driver/src/server-proxy.ts:1767-1771 | a client whose first snapshot was lost holds the table only if that is empty |
| `Broker.UngreetedClient` | packages/driver/src/server-proxy.ts:1767-1771 | from then on, in every state of the broker, it holds the table if and only if every session of the lost snapshot was announced as added or removed since |
| `Broker.ServerProxy.RecordReconcile` | packages/driver/src/server-proxy.ts:1506-1517 | a definitive answer opens the gate; a change of availability sends every client the table with the news, but only once the broker has started: until then every client there is left with the old news |
| `Broker.FlipBeforeStartIsMissed` | packages/driver/src/server-proxy.ts:854-912 | the run in which a client that connected before start was done goes on believing in a tmux that has gone |
| `Broker.ServerProxy.DropSession` | packages/driver/src/server-proxy.ts:2569-2574 | destroying, or a confirmed absence, removes the session and the name and announces it; if the session was gone already that is harmless for the clients, and for the name index exactly if the name is still free |
| `Broker.ServerProxy.RegisterNewSession` | packages/driver/src/server-proxy.ts:2287-2309 | a new session enters table and index and is announced; the index, right until then, stays right if and only if the step does not collide |
| `Broker.ServerProxy.RenameSession` | packages/driver/src/server-proxy.ts:1622-1637 | a rename changes table and index and is announced; the index, right until then, stays right if and only if no other session has the new name |
| `Broker.ServerProxy.ReconcileRow` | packages/driver/src/server-proxy.ts:1590-1652 | one row registers a session, renames one, or leaves table and index alone, and collides exactly if it takes a name another session has, or an id another name has |
| `Broker.ServerProxy.ReconcileRows` | packages/driver/src/server-proxy.ts:1590-1654 | the row loop has the batch's effect: listed sessions are what their rows say, others are as they were, and every greeted client's fold stays the table; it collides exactly as its rows do |
| `Broker.TableReflectsRow` | packages/driver/src/server-proxy.ts:1590-1654 | after a batch every listed session is what its row says |
| `Broker.UnlistedIsKept` | packages/driver/src/server-proxy.ts:1590-1654 | and every other session is as it was |
| `Broker.RenameIndexed` | packages/driver/src/server-proxy.ts:1622-1637 | a rename keeps the name index right if and only if no other entry still holds the new name |
| `Broker.AddIndexed` | packages/driver/src/server-proxy.ts:1597-1621 | an addition does if and only if the name is free and the id new or so named already |
| `Broker.DropIndexed` | packages/driver/src/server-proxy.ts:2569-2574 | a removal does if and only if the session, if there, goes by the name and the name, if taken, is that session's |
| `Broker.SecondDropEvicts` | packages/driver/src/server-proxy.ts:2557-2574 | a session removed twice, its name taken again in between: the second removal throws the successor out of the index |
| `Broker.LookupIsRight` | packages/driver/src/server-proxy.ts:726-726 | in every state before the first collision a name is found if and only if some session has it, and it is that session |
| `Broker.BatchIndexed` | packages/driver/src/server-proxy.ts:1590-1654 | after a whole batch the index is right if and only if no row added or renamed onto a name another entry held at that point |
| `Broker.TmuxRowsFit` | packages/driver/src/server-proxy.ts:1590-1603 | what tmux lists, distinct ids that start with a dollar sign, meets the conditions on rows |
| `Broker.MintingDiffers` | packages/driver/src/server-proxy.ts:1603-1603 | distinct tmux ids make distinct session ids |
| `Broker.SwappedNamesLoseOne` | packages/driver/src/server-proxy.ts:1622-1637 | two sessions that swap names in one batch leave one out of the index |
| `Broker.ServerProxy.SendResponse` | packages/driver/src/server-proxy.ts:2179-2194 | a response takes the next number even if its send throws |
| `Broker.ServerProxy.BeginAttach` | packages/driver/src/server-proxy.ts:1809-1819 | startSeq is the next number and the client leaves the command plane before any await |
| `Broker.CleanHandover` | packages/driver/src/server-proxy.ts:1809-1874 | after an attach no number from startSeq on was used if and only if no command has been answered since; with none owed, never |
| `Broker.AnswerCollides` | packages/driver/src/server-proxy.ts:2179-2194 | one command in flight at the attach: its answer takes startSeq itself |
| `UniqueNames.CandidatesDiffer` | packages/driver/src/server-proxy.ts:2398-2398 | base, base-2, base-3, ... are pairwise distinct |
| `UniqueNames.DecimalValue` | packages/driver/src/server-proxy.ts:2398-2398 | the decimal suffix reads back as its number |
| `UniqueNames.SomeCandidateIsFree` | packages/driver/src/server-proxy.ts:2390-2424 | among the first |taken| + 1 candidates one is free |
| `UniqueNames.CreateUnique` | packages/driver/src/server-proxy.ts:2381-2425 | the loop ends within |taken| + 1 attempts, returns the first free candidate, claims every candidate not in use up to it and no name in use |
| `UniqueNames.BaseIsProper` | packages/driver/src/server-proxy.ts:2388-2388 | the base is never empty and has no space at either end |
| `UniqueNames.BaseIsTrimmed` | packages/driver/src/server-proxy.ts:2388-2388 | the base is the name asked for without the space around it, or tmuxcc if nothing is left |
| `UniqueNames.CandidateReads` | packages/driver/src/server-proxy.ts:2398-2398 | the first candidate is the base, and the k-th the base, a dash and a numeral that reads k |

## Left out

- JSON and UTF-8: messages, layouts, pane ids on the wire and session ids are opaque values; a leading byte-order mark in a pane id, which the decoder's text decoding drops, is not modelled.
- Aliasing of `Uint8Array` views, and a handler that keeps or changes the bytes it is given.
- Re-entrant handlers: a callback that calls back into the same object while it iterates. Closing the transport or installing a handler from a transport handler is modelled.
- Back-pressure: drain promises, queue metrics and the payload of socket errors in `socket-transport.ts`.
- All input and output: sockets, processes, tmux queries and their parsing, timers, files, logs, HTTP. What they answer is an open choice or a parameter.
- `Renderer.Shows`: origin and the active flag are told once, when a pane or window is opened, and are not part of a renderer's picture; mode is never reported; live titles are a picture of their own (`Titles`), since a title is told only when it changes after the pane was opened.
- `Projection.ServerModel`: one session per proxy, the placeholder snapshot of an empty model, and the origin tags of windows are not modelled; ids are map keys and not repeated in the entries.
- `Renderer.HookFeed`: callbacks are recorded, not executed; byte subscriptions are the set of subscribed panes.
- `Mirror.Mirror`: handlers other than the attached hook (`onResyncNeeded`, `onPaneNotify`) are not recorded.
- `Resync.System`: one connection, FIFO delivery, and losses only before the answering snapshot; the answer is the documented contract of the resync reply, whose server side is not part of this model.
- `Supervisor.SessionProxySupervisor`: entry objects are records in a sequence, alive-count listeners, farewell tracking and metrics are not modelled, and a joined `ensureSessionProxy` returns the shared slot rather than its settled value.
- `ClaimSession.State`: the session table is an open choice at each lookup; timing records, environment and shell arguments are not modelled; a claim body that fails after minting reports nothing.
- `Broker.RowStep`: entries are looked up by session id, where the source keeps the entry objects; two rows of one list that make the same session id, which tmux never gives, are not told apart.
- `Broker.ServerProxy`: window counts, markers and other row fields carried beside the name, and the order of sessions inside a snapshot, are not modelled.
- `UniqueNames.CreateUnique`: runs against fixed sets of taken names, as the termination claim does.
- `InputApi.Api`: promises of `sendVerb` and `sendPaneCapture` and their settlement; the sender neither throws nor re-enters.
- `ReadValue` and `RemoveLabel` in `MetricsExposition.dfy` are readers written for the proofs; the repository has none.
- Socket ownership across processes (`server-proxy.ts`, binding and unlinking), version and feature negotiation, argument parsing, error classes and type guards.
