# simple-peer: the peer session and the data channel adapter

This project models the two event-driven state machines of simple-peer. Both are written
in Dafny, and Dafny proves what they promise.

- **`Peer`** (index.js) is one WebRTC session. It covers:
  - the readiness rendezvous: `_pcReady` comes from ICE and `_channelReady` from the channel's `open`, and `connected` flips once, when both hold;
  - the write queue kept before connecting, and its flush in order;
  - ingesting `signal()` data: a description, a candidate, or invalid data;
  - answering an inbound offer;
  - trickle versus batched signalling of offers and answers;
  - teardown;
  - the `speedHack` bandwidth rewrite of SDP text.
- **`DataChannel`** (datachannel.js) is a stream adapter around one native channel. It covers:
  - the single-slot write held before `open`;
  - backpressure over a 64 KiB threshold, released by the low-buffer event or a 150 ms poll;
  - the poll that treats a channel stuck in "closing" as closed;
  - the deferred close of a channel that has only just opened;
  - destroy;
  - the channel name: the label up to its first `@`.

The native engine is reduced to two handle classes (module `Engine`):
- `ChannelHandle`: ready state, buffered amount, whether `send` throws, the log of sent chunks, close requests and bound handlers;
- `PeerConnectionHandle`: the requests made of it, its local description and its bound handlers.

Each source object follows the same pattern:
1. A value-level state machine holds the state and one step function per handler: `PeerSpec`, `DataChannelSpec`.
2. A class keeps the source's fields and methods: `Peers.Peer`, `DataChannels.DataChannel`. Every method is proved to move `Abs()` exactly as its step function does, and to keep `Valid()`, which includes the invariant `Inv`.
3. Lemmas prove what holds over every sequence of inputs (`Run`): `connect` at most once, `close` exactly once, no write lost or sent twice (and writes in order with the corrected write gate), every offer/answer signalled once, nothing after destroy. Single-step lemmas state what each handler does.

Both objects end `_destroy(err)` with `emit('error', err)` and `emit('close')`. An event emitter throws the error of an `error` event that nobody listens for, so without an `error` listener the error escapes `_destroy` and `close` is never emitted. Whether the application listens for `error` is a constructor argument of both classes (`errorListener`), and the escaped error is recorded (`escaped`).

Engine events, the outcomes of asynchronous engine calls and timers are not called by the model. They become methods (`On...`, `ClosingTick`, `OnInterval`, `CloseDelayElapsed`) and `Input` constructors.

Modules:
- `Wrappers`: `Option` and `Outcome`.
- `Seqs`: counting events in a log.
- `JsStrings`: `indexOf` and `split`/`join` for a non-empty separator.
- `Sdp`: `speedHack`.
- `Engine`: the native handles.
- `DataChannelSpec` and `DataChannels`: the adapter.
- `PeerSpec` and `Peers`: the peer.

## Model

| member | source | states |
|---|---|---|
| JsStrings.IndexOf | index.js:401 | the result is the first occurrence at or after `from`, and `None` exactly when there is none |
| JsStrings.SplitJoin | index.js:401 | `split` then `join` with the same separator gives back the string; no piece contains the separator |
| JsStrings.SplitFirstPiece | datachannel.js:59 | the first piece of `split` is the text before the first separator, or the whole string when there is none |
| JsStrings.SplitSecondPiece | index.js:401-402 | the second piece runs from the end of the first separator to the next one, or to the end |
| Sdp.SpeedHackKeepsOtherSdp | index.js:400-403 | an SDP without `b=AS:30` is left unchanged |
| Sdp.SpeedHackRewritesFirst | index.js:400-403 | otherwise the result is: the text before the first occurrence, then `b=AS:1638400`, then the text up to the second occurrence or the end; later segments are dropped |
| Sdp.SpeedHackSingleOccurrence | index.js:400-403 | with exactly one occurrence, the rewrite replaces just that line |
| Sdp.SpeedHackRemovesSlowLine | index.js:400-403 | the result never contains `b=AS:30` |
| Sdp.SpeedHackIdempotent | index.js:400-403 | rewriting twice is the same as rewriting once |
| DataChannelSpec.ChannelNameIsLabelPrefix | datachannel.js:59 | `channelName` is the label up to its first `@` (the whole label without one); it is a prefix of the label and contains no `@` |
| DataChannelSpec.StepIsSound | datachannel.js:85-185 | every input keeps the invariant and calls back at most one callback: the write's own, or the held one, which it then clears |
| DataChannelSpec.RunKeepsInv | datachannel.js:206-248 | for every input sequence: a destroyed adapter holds no handle, chunk, callback, poll or name; the closing poll runs exactly while live; the backpressure poll runs only with a handle; an escaped error means destroyed without an `error` listener; the listener flag never changes |
| DataChannelSpec.CloseEmittedOnce | datachannel.js:245-246 | from construction, `close` is emitted exactly once if destroyed and never otherwise, except when destroying threw its error: then `close` is never emitted, and that happens only without an `error` listener |
| DataChannelSpec.DestroyedIsFinal | datachannel.js:206-248 | after destroy nothing is emitted or sent, the adapter stays destroyed, and every later callback gets the `ERR_DATA_CHANNEL` write error |
| DataChannelSpec.CallbacksCalledAtMostOnce | datachannel.js:139-145 | when every write brings a new callback, no callback is ever called twice, the held one included |
| DataChannelSpec.WriteBeforeOpenIsHeld | datachannel.js:100-104 | a write before `open` is held in the slot and not completed; a second one overwrites it |
| DataChannelSpec.HeldWriteFlushedOnOpen | datachannel.js:162-177 | on `open` the held chunk is sent, the slot cleared, and its callback called once with null, after `open` is emitted |
| DataChannelSpec.WriteOverThresholdIsHeld | datachannel.js:88-96 | on an open channel a write that leaves more than 65536 bytes buffered is sent and its callback held |
| DataChannelSpec.WriteUnderThresholdCompletes | datachannel.js:88-99 | otherwise it is sent and called back at once with null |
| DataChannelSpec.WriteSendThrows | datachannel.js:89-93 | a `send` that throws destroys the adapter with an `ERR_DATA_CHANNEL` error and calls nothing back. With an `error` listener, `error` then `close` are emitted; without one, nothing is emitted and the error escapes |
| DataChannelSpec.PollReleasesOnlyUnderThreshold | datachannel.js:125-130 | the 150 ms poll releases the held callback exactly when the buffer is at or under the threshold |
| DataChannelSpec.LowBufferReleasesOnce | datachannel.js:139-145 | a second low-buffer event after the first changes nothing |
| DataChannelSpec.ClosingPollTick | datachannel.js:41-48 | a tick destroys exactly when "closing" is seen for the second tick in a row; any other tick resets the flag |
| DataChannelSpec.StuckClosingNeedsTwoPolls | datachannel.js:41-48 | a channel stuck in "closing" is closed on the second poll, not the first, with one `close` |
| DataChannelSpec.DestroyIdempotent | datachannel.js:206-207 | a second destroy changes nothing |
| DataChannelSpec.FreshUntilCloseDelay | datachannel.js:152-154 | closing is deferred until the close delay after `open` has passed, and immediate afterwards |
| DataChannelSpec.BackpressureFollowsBufferSize | datachannel.js:187-189 | a write on an open channel completes at once exactly when `bufferSize` after it is within the threshold |
| DataChannelSpec.DestroyedBufferIsEmpty | datachannel.js:187-189 | a destroyed adapter reports a buffer size of 0 forever |
| DataChannels.DataChannel.constructor | datachannel.js:22-49 | an unnamed channel for a missing or empty name; nothing held; the closing poll started; the `error` listener flag as given |
| DataChannels.DataChannel.SetDataChannel | datachannel.js:51-81 | binds the handle, sets the threshold where the engine supports it, binds the five handlers, and takes the name from the label |
| DataChannels.DataChannel.Write | datachannel.js:85-105 | moves the state as `WriteStep`: reject after destroy, hold before open, send and then complete or hold on backpressure, or destroy on a throwing send. The handle keeps its binding unless released, its `send` log grows by the chunk exactly when the adapter is live and the channel open with a working `send`, and a destroy detaches the handlers and closes the handle, at once or deferred |
| DataChannels.DataChannel.SendNow | datachannel.js:88-99 | the successful-send branch of `_write`, on the handle |
| DataChannels.DataChannel.OnInterval | datachannel.js:125-130 | a tick of the backpressure poll, as `PollStep`; the handle stays bound |
| DataChannels.DataChannel.OnChannelMessage | datachannel.js:132-137 | a message is pushed as `data` unless destroyed |
| DataChannels.DataChannel.OnChannelBufferedAmountLow | datachannel.js:139-145 | clears the held callback, then calls it; a no-op when destroyed or when nothing is held |
| DataChannels.DataChannel.OnChannelOpen | datachannel.js:147-155 | emits `open`, runs `_sendChunk`, and starts the freshness timer unless the flush's destroy threw. The handle's `send` log grows by exactly the held chunk when there is one to flush; a destroy detaches the handlers and closes the handle |
| DataChannels.DataChannel.SendChunk | datachannel.js:162-185 | sends the held chunk (or destroys when `send` throws), clears the slot, calls the callback, and starts the poll where there is no low-buffer event. The handle's `send` log grows by exactly the held chunk when one is flushed and by nothing otherwise; a destroy detaches the handlers and closes the handle |
| DataChannels.DataChannel.FlushHeld | datachannel.js:166-176 | the held chunk reaches the handle's `send`, the slot is emptied, and the held callback is called once |
| DataChannels.DataChannel.BufferSize | datachannel.js:187-189 | the handle's `bufferedAmount`, or 0 without a handle |
| DataChannels.DataChannel.OnChannelClose | datachannel.js:157-160 | destroys without an error: the handle is let go of, its handlers detached and its close requested or deferred, and nothing more is sent on it |
| DataChannels.DataChannel.OnChannelError | datachannel.js:73-75 | destroys with an `ERR_DATA_CHANNEL` error, releasing the handle as `OnChannelClose` does |
| DataChannels.DataChannel.Destroy | datachannel.js:202-248 | moves the state as `DestroyStep`: released handle, stopped polls, empty slot; `error` (when given) and then `close`, or, without an `error` listener, the error escapes and nothing is emitted. On the first call it also detaches four handlers and closes the handle, at once or deferred, sending nothing on it |
| DataChannels.DataChannel.ReleaseChannel | datachannel.js:211-223 | closes the handle (deferred while fresh), nulls its message/open/close/error handlers, and lets go of it |
| DataChannels.DataChannel.StopAll | datachannel.js:230-240 | marks the adapter destroyed, stops both polls, and empties the slot and the name |
| DataChannels.DataChannel.ClosingTick | datachannel.js:41-48 | one tick of the closing poll, as `ClosingPollStep`; nothing is sent, and a destroying tick releases the handle |
| DataChannels.DataChannel.CloseDelayElapsed | datachannel.js:152-154 | the channel is no longer fresh |
| PeerSpec.WireFormsAppend | index.js:318-320 | handing the channel a queue in two parts gives it the same chunks, in the same order, as handing it the whole queue |
| PeerSpec.ChunkArrivesAsSent | index.js:252-260 | what one peer writes reaches the other peer's `data` (index.js:352-360) as written: bytes as the same bytes, an object as its JSON text parsed again, a string as the same text, parsed when it is JSON |
| PeerSpec.EncodedSignalLikeDecoded | index.js:140-146 | a string signal is handled exactly as the object `JSON.parse` makes of it, and a string that does not parse exactly as `{}` |
| PeerSpec.AwaitedSignalsAreDescriptions | index.js:273-277 | the null candidate releases exactly one offer/answer signal per waiting listener, and no `close`, `connect` or candidate signal |
| PeerSpec.RunKeepsInv | index.js:137-390 | for every input sequence the invariant holds and the options stay fixed. Invariant: `connected` implies both sides ready and an empty queue; a destroyed peer is unready; nothing waits once trickling or gathered; sent and queued together are the accepted writes as a multiset, and in order with the gate on `connected`; one `close` iff destroyed and no error escaped; an escaped error means destroyed without an `error` listener; at most one `connect`; no candidate signal without trickle |
| PeerSpec.RunKeepsSignalInv | index.js:269-344 | for every input sequence, the offers/answers signalled plus those waiting for gathering are the ones applied locally, and without trickle none is signalled before the null candidate |
| PeerSpec.DescriptionsSignalledOnce | index.js:269-279 | from construction, every offer/answer applied locally is signalled exactly once: all of them once trickling or gathered; without trickle, no offer, answer or candidate is signalled before the null candidate |
| PeerSpec.WritesNeitherLostNorDuplicated | index.js:239-326 | whatever the write gate, every accepted write is sent once or still queued, and once connected every accepted write has been sent once |
| PeerSpec.ConnectEmittedAtMostOnce | index.js:313-326 | from construction, `connect` is emitted at most once |
| PeerSpec.CloseEmittedOnce | index.js:172-213 | from construction, `close` is emitted exactly once if destroyed and never otherwise, except when destroying threw its error: then `close` is never emitted, and that happens only without an `error` listener |
| PeerSpec.WritesSentInOrder | index.js:318-321 | with the gate on `connected`, accepted writes reach the channel in the order written: sent is a prefix of accepted, the rest is queued, and once connected everything is sent |
| PeerSpec.NoCandidateSignalsWithoutTrickle | index.js:335-344 | with trickle off, no candidate is ever signalled |
| PeerSpec.StepAfterDestroy | index.js:297-376 | after destroy, no input emits, sends, queues or requests anything, and the peer stays destroyed and unready |
| PeerSpec.DestroyedIsFinal | index.js:297-376 | the same over any input sequence |
| PeerSpec.DestroyingStepEmitsNoConnect | index.js:172-213 | a step that destroys the peer emits no `connect` |
| PeerSpec.ConnectOnlyOnReadyEdge | index.js:313-326 | `connect` is emitted only on the step where `connected` goes from false to true, with both sides ready |
| PeerSpec.WriteCallsBackOnce | index.js:239-263 | `_write` calls its callback exactly once and at once: with the destroyed error after destroy, with null otherwise |
| PeerSpec.WriteAfterDestroySendsNothing | index.js:241 | a write after destroy is neither sent, queued nor accepted |
| PeerSpec.QueueFlushedWhenIceConnects | index.js:297-326 | ICE "connected"/"completed" with the channel open sends the whole queue in order, empties it, and emits the state report then `connect`; everything accepted has then been sent, in order with the gate on `connected` |
| PeerSpec.QueueFlushedWhenChannelOpens | index.js:363-369 | the channel opening after ICE connected does the same, emitting only `connect` |
| PeerSpec.ChannelOpenAloneDoesNotConnect | index.js:363-369 | the channel opening before ICE is ready connects nothing and sends nothing |
| PeerSpec.IceFailureDestroys | index.js:308-310 | ICE "disconnected"/"closed" destroys the peer: the state report, then `close` |
| PeerSpec.SignalAfterDestroyThrows | index.js:139 | `signal` after destroy throws "cannot signal after peer is destroyed" and changes nothing |
| PeerSpec.InvalidSignalDestroys | index.js:162-164 | data with neither sdp nor candidate (a non-JSON string among them) destroys the peer. With an `error` listener it emits "signal() called with invalid signal data", then `close`; without one it emits nothing and that error escapes |
| PeerSpec.DescriptionSignalApplied | index.js:148-152 | a description is requested as the remote description, and nothing else happens |
| PeerSpec.CandidateSignalAdded | index.js:153-161 | a candidate is added; if building it throws, the peer is destroyed with "error adding candidate: " and the message, emitted before `close` with an `error` listener and escaping, with nothing emitted, without one |
| PeerSpec.OfferIsAnswered | index.js:149-151 | once the remote description is set, an answer is requested exactly when it is an offer and the peer is live; nothing else changes |
| PeerSpec.CandidateSignalledOnlyWhenTrickling | index.js:338-339 | a found candidate is signalled exactly when trickling |
| PeerSpec.DescriptionSignalledAtOnce | index.js:269-279 | while trickling or after gathering, a created offer/answer is sent with its bandwidth rewritten and signalled at once, as the connection's local description when it has one |
| PeerSpec.BatchedDescriptionWaitsForGathering | index.js:273-277 | without trickle, before gathering ends, the offer/answer is not signalled; the null candidate then signals every waiting one, in order |
| PeerSpec.NegotiationOnce | index.js:88 | a second `negotiationneeded` does nothing |
| PeerSpec.InitiatorOffersOnce | index.js:86-93 | an initiator on an engine without `negotiationneeded` has asked for exactly one offer, bound a channel labelled with its name, and a later `negotiationneeded` asks for no other |
| PeerSpec.DestroyIdempotent | index.js:172-174 | a second `_destroy` changes nothing |
| PeerSpec.AsWrittenWriteOvertakesQueue | index.js:244-249 | with the gate on `_channelReady`, writes a, b (channel opened between them, ICE connecting after) reach the wire as b, a |
| PeerSpec.CorrectedWriteKeepsOrder | index.js:239-263 | with the gate on `connected`, the same inputs reach the wire as a, b |
| Peers.Peer.constructor | index.js:42-114 | a live peer with its connection, handlers, write gate and `error` listener flag. An initiator binds its channel and, where the engine raises no `negotiationneeded`, asks for one offer. Otherwise `ondatachannel` is bound |
| Peers.Peer.Initiate | index.js:86-93 | the initiator's channel, the `negotiationneeded` handler, and the immediate offer |
| Peers.Peer.SetupData | index.js:215-224 | binds the channel and its three handlers, and takes its label as `channelName` |
| Peers.Peer.OnDataChannel | index.js:95 | `ondatachannel` on the answering side, as `_setupData` |
| Peers.Peer.NegotiationNeeded | index.js:88 | the `once` wrapper: only the first call asks for an offer |
| Peers.Peer.CreateOffer | index.js:265-279 | asks the connection for an offer unless destroyed |
| Peers.Peer.CreateAnswer | index.js:281-295 | asks the connection for an answer unless destroyed |
| Peers.Peer.Destroy | index.js:167-170 | `_destroy` without an error |
| Peers.Peer.DestroyWith | index.js:172-213 | moves the state as `DestroyStep`. On the first call it closes the connection and the channel, nulls their handlers and releases both, sending nothing on the channel. `error` (when given) and `close` are emitted, and `close` calls `onclose`; without an `error` listener the error escapes instead, and neither event is emitted nor `onclose` called |
| Peers.Peer.ReleaseHandles | index.js:184-204 | closes both handles, nulls their handlers, and lets go of them |
| Peers.Peer.Send | index.js:239-263 | moves the state as `WriteStep` under the peer's write gate (`_channelReady`, as at index.js:244, or `connected`); the channel's log grows by the chunk's wire form exactly when the peer is live and the gate is open |
| Peers.Peer.Accept | index.js:243-262 | a live peer queues the chunk while the gate is shut and hands it to the channel otherwise, then calls back with null |
| Peers.Peer.MaybeReady | index.js:313-326 | on the ready edge: `connected` set, the queue sent to the channel in order and emptied, `connect` emitted; otherwise nothing. The channel's `send` log grows by the queue exactly when `connected` goes from false to true |
| Peers.Peer.SendQueued | index.js:318-320 | the loop hands every queued chunk, in order, to the channel's `send` |
| Peers.Peer.Signal | index.js:137-165 | moves the state as `SignalStep`; the outcome throws exactly when destroyed |
| Peers.Peer.ApplyRemote | index.js:148-152 | a truthy `sdp` is requested as the remote description |
| Peers.Peer.AddCandidate | index.js:153-161 | a candidate is added, or the peer destroyed when building it throws |
| Peers.Peer.OnRemoteDescriptionSet | index.js:149-151 | an offer is answered |
| Peers.Peer.OnDescriptionCreated | index.js:269-278 | as `DescriptionCreatedStep`: rewrite, set locally, then signal now or wait for gathering |
| Peers.Peer.SetLocal | index.js:272 | `setLocalDescription` is requested with the rewritten description |
| Peers.Peer.OnError | index.js:385-390 | destroys with the error unless already destroyed |
| Peers.Peer.OnIceConnectionStateChange | index.js:297-311 | as `IceConnectionStep`: report, then become ready or destroy. The channel stays bound unless destroyed, its `send` log grows by the queue exactly on the step that connects, and a destroy closes both handles and nulls their handlers |
| Peers.Peer.PcReady | index.js:304-307 | sets `_pcReady` and checks the rendezvous; the channel stays bound and its `send` log grows by the queue, in order, exactly when this connects the peer |
| Peers.Peer.OnSignalingStateChange | index.js:328-333 | reports the signalling state unless destroyed |
| Peers.Peer.OnIceCandidate | index.js:335-344 | as `IceCandidateStep`: signal the candidate when trickling; the null candidate ends gathering and releases the waiting signals |
| Peers.Peer.OnChannelOpen | index.js:363-369 | sets `_channelReady` and checks the rendezvous; the channel stays bound and its `send` log grows by the queue, in order, exactly when this connects the peer |
| Peers.Peer.OnChannelMessage | index.js:346-361 | emits the message's payload unless destroyed |
| Peers.Peer.OnChannelClose | index.js:371-376 | destroys unless already destroyed |

## Left out

- The Node stream machinery is not modelled: `stream.Duplex`, `push`/`end`, readable and writable state, and the `finish` handlers (index.js:98-113, datachannel.js:77-80, 109-123, 242-243). An inbound binary message on the peer is recorded as a `data` event rather than a `push`. In datachannel.js `_onFinish` reads `this._connected`, which nothing there sets.
- Engine selection, `wrtc` loading and the "missing WebRTC support" errors are not modelled (index.js:15-34, 59-65). Nor are the `RTCSessionDescription`/`RTCIceCandidate` objects, which become plain records.
- Media is not modelled: `stream`, `addStream`, `onaddstream`, `_onAddStream` and `_setupVideo`.
- Logging (`_debug`) is not modelled.
- Configuration objects (`config`, `constraints`, offer/answer constraints, `channelConfig`, `negotiated`) are not modelled. They only pass through to the engine.
- JSON is not modelled. `JSON.parse` of a signal string is a given result (`Encoded(Option<SignalData>)`). For a text message, whether it parses is a given flag. `JSON.stringify` of an object chunk is carried inside the chunk.
- The Blob, typed-array and `Buffer` type tests of `_write` are collapsed into three chunk kinds.
- Timer durations are not modelled. The timers (5 s closing poll, 150 ms backpressure poll, 3 s close delay) are methods and inputs that fire when the engine says so; their order against other events is arbitrary.
- The random default channel name (`hat(160)`) is a parameter of the constructor. A missing name becomes the label "null".
- Peers.Peer.Send: requires that the bound channel's `send` does not throw. index.js does not catch that exception, so it would escape from `send`, `_maybeReady` or an event handler.
- Peers.Peer.Send: the callback is recorded when `_write` calls it. `send` wraps it in `dezalgo` (index.js:132), which defers a call made in the same tick to a later one; that deferral, and so the order of the callback against events of the same tick, is not modelled.
- Peers.Peer.Signal: `signal(null)`, or a string that `JSON.parse` turns into `null`, throws a TypeError at index.js:147 (reading `sdp` of null) and leaves the peer live. `SignalInput` has no null object, so the model has no such input.
- PeerSpec.RunKeepsInv: with the gate of index.js:244 (`ChannelReadyGate`), the invariant relates sent, queued and accepted writes only as multisets, because that gate can reorder them (see Findings). In order holds with `ConnectedGate`.
- PeerSpec.WritesSentInOrder: requires the gate on `connected`, for the same reason. With the gate as written, `PeerSpec.WritesNeitherLostNorDuplicated` states what still holds.
- Peers.Peer.OnIceConnectionStateChange: has the same requirement on `send`, because it can flush the queue.
- Peers.Peer.OnChannelOpen: has the same requirement on `send`.
- Peers.Peer.OnRemoteDescriptionSet: after destroy, the source reads `remoteDescription` from a null `_pc` and throws. The model changes nothing there.
- The `error` listener is a flag fixed at construction; adding or removing a listener later is not modelled. After an error escapes `_destroy`, the model goes on taking inputs; what the exception then does to the code that called `_destroy` (a throw out of `signal`, `destroy` or an event handler) is not modelled.
- DataChannels.DataChannel.Destroy: the `cb` passed to `_destroy` (a no-op from `destroy`) is not modelled, so that it is skipped when the `error` emit throws is not visible.
- DataChannels.DataChannel.SendChunk: if a low-buffer event releases the callback of a write held before `open`, the flush at `open` calls the null `_cb` (datachannel.js:174-176). That TypeError stops `_onChannelOpen` before the backpressure poll and the freshness timer start. The model skips the call and carries on. A channel only raises the low-buffer event after its buffered amount drops, which needs an earlier `send`, and `send` needs an open channel, so this needs an engine that breaks that rule.
- `ondatachannel` stays bound after `_destroy` (only three connection handlers are nulled). The model lets a destroyed answering peer bind a channel. All of its handlers then return early.
- The failure callbacks of `setLocalDescription` and `addIceCandidate` reach `_onError` like the others, through `Peers.Peer.OnError`. Their success callbacks (`noop`) are not modelled.
- The engine applying a local description is not driven by the peer. `PeerConnectionHandle.EngineSetLocal` stands for it, and the `localNow` inputs of the spec stand for its value.

## Findings

| source | as written | input that shows it | evidently intended | confidence | as-written member | corrected member |
|---|---|---|---|---|---|---|
| index.js:244 | `_write` queues only while `!_channelReady` and otherwise sends at once | initiator with trickle: write a; channel `open` (ICE not yet connected); write b; ICE "connected". The channel receives b, then a | queue until `connected`, so that the flush in `_maybeReady` keeps writes in order (FIFO) | medium; not executed | PeerSpec.AsWrittenWriteOvertakesQueue | PeerSpec.WritesSentInOrder |

The gate is part of `PeerSpec.Config`: `ChannelReadyGate` is the code as written, `ConnectedGate` the correction, and `Peers.Peer` takes it as a constructor argument. The properties that do not depend on the gate are proved for both, among them `RunKeepsInv`, `ConnectEmittedAtMostOnce`, `CloseEmittedOnce`, `NoCandidateSignalsWithoutTrickle`, `DestroyedIsFinal`, `DescriptionsSignalledOnce` and `WritesNeitherLostNorDuplicated`. Write order (`WritesSentInOrder`) is proved for `ConnectedGate`. `PeerSpec.CorrectedWriteKeepsOrder` runs the inputs of the finding through the corrected gate.
