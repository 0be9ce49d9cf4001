# Verified model of the Socket.IO v5 client

This project models the client-side Socket.IO v5 over Engine.IO v4 stack and proves properties of it in
Dafny. It has three parts.

**The Engine.IO connection and upgrade protocol.** `EngineClient` is a transition system: `Connect`, the
message loop with `handlePacket`, `handleHandshake` and `transportUpgrade`, any number of `Send` and `Close`
calls, and the loops of both transports, interleaved at the program's critical sections, channel operations
and transport calls. The server and the scheduler are adversaries: any frame may arrive at any time, and any
enabled step may be the next one. `PollingTransport` and `WebsocketTransport` are the transports' own
transition systems, embedded in the client's; both refine the contract of `TransportContract`.

- `EngineInvariant` states one inductive invariant, `EngineProof` proves that every step keeps it and which
  steps panic; `EngineOrdering` and `EngineTheorems` draw the conclusions.
- `EngineHistory` says what the handled frames decide, `EngineHooks` who calls `Send`, `EngineOutcomes` what
  `Connect`, `Close`, `Send` and an upgrade come to, each over all runs.
- `EngineRelease`, `EngineStranded`, `EngineRescue` and `EngineWaiters` decide which callers of `Send` wait
  for ever: a closed condition on the state, equivalent to "in no continuation can this caller go on".
- `EngineOvertake` decides when a caller that the upgrade ordering does not cover can have its MESSAGE ahead of
  UPGRADE; `EngineBehind` shows, for that, that every continuation can be had with one caller not moving.
- `EngineReuse` decides when a second run of the websocket transport is like a first one.
- `EngineReach` defines reachability; `EngineWitness`, `EngineReuseWitness` and `EngineOutlast` hold concrete
  runs that show where the guarantees end.
- `EngineDecode` says which bytes become which frame, and ties the frames to the codec and to dispatch.
- `PollingObject` is the polling transport as an object updated in place.

**Acknowledgements, namespaces and dispatch.** `AckMachine` races acks against timers, the context and the
goroutines that deliver them; `NamespaceGate` is the get-or-create map with its connect gates. `AckTable` and
`NamespaceTable` define the critical sections that these machines share with the client object. `Dispatch`
decides what one message does, and `SocketClient` carries it out on the client's mutable objects. `EmitArgs`
is the in-place split of the arguments of `Emit`.

**The two-layer codec.** `EngineFrame` and `PacketCodec` print and scan the headers, down to byte
wrap-around and the bound on ack ids; `PollBody` is the size-limited read of a polling body. JSON itself is a
parameter, `JsonCodec.Codec`, with a law about it: an array that was written is read back, whatever follows
it, and starts with `[` (section 5 of RFC 8259). `SmallJson` satisfies the law. `GoInt` has Go's 64-bit
integers and durations.

## Results that say "no"

Where the code does not keep a promise, the model keeps the code and the project says exactly when.

- A caller of the engine's `Send` outside the Socket.IO stack that takes its snapshot before OPEN is handled
  is not covered by the upgrade ordering; its MESSAGE can reach the new transport before UPGRADE
  (`BareSendOvertakesUpgrade`). From any state with a continuation that upgrades it can do so exactly as long
  as UPGRADE has not been handed over and `Close` has not taken the transport (`UncoveredOvertakesIff`).
- Only the `Close` that took the transport waits for delivery; another one returns at once
  (`SecondCloseDoesNotWait`).
- `PanicsExactly` lists the steps at which the engine client panics, each kind with its condition. A `Send` on
  a polling client before `Connect`, a PING after `Close`, an unasked probe PONG, an OPEN with a negative ping
  interval and a MESSAGE that holds only the type of an EVENT are among them (`SendBeforeConnectPanics`,
  `PingAfterClosePanics`, `UnaskedPongPanics`, `NegativeIntervalPanics`, `IncompletePacketPanics`).
- Gates can strand their waiters. `StrandedIff` says for every waiter in every run whether it does: a gate
  that a later upgrade has replaced, a message loop that has exited, or frames on their way that leave no way
  to open the gate. Each happens (`ReplacedGateStrands`, `CloseStrands`, `NoOpenStrands`).
- With the handshake's GET a second GET can be in flight exactly when a session id is known before `Connect`
  (`TwoGetsIff`). No constructor sets one: that is the state from which a second `Connect` starts.
- A nil option among the arguments of `Emit` panics, unless a payload that is refused comes first (`EndsIff`).
- A second run of the websocket transport is undisturbed in every continuation exactly when nothing is left
  of earlier runs: no stop token, no close still to come, no reader that has yet to start receiving
  (`WebsocketReuseIff`). A client can come to each of the three, without the others
  (`EachLeftoverIsReachable`), and then the token ends the new loop, the late close closes the new
  connection, or the late reader takes one of its messages (`EachLeftoverDisturbs`).
- A `Close` that waits for the websocket transport can wait while any number of messages is forwarded
  (`CloseOutlasts`).
- Dispatch dereferences nil for exactly two frames, a one-byte EVENT and a one-byte CONNECT_ERROR
  (`PanicsIff`).
- An EVENT without a name (one whose array starts with `null` or with `""`) is accepted but cannot be printed
  again (`CanonicalIff`).
- Ack ids repeat exactly for emits that are a multiple of 2^64 apart (`IdsDistinct`).

The comment in `socket.io/v5/parser/default/parser.go:54` speaks of the largest 64-bit integer; the code
refuses every id of 19 digits or more, and the model follows the code. The comment in
`engine.io/v4/client/transport/websocket/transport.go:145-151` says that one reader is in flight at a time;
that holds within one run, and a reader of an earlier run can still call.

## Assumptions

- The client is one that `NewClient` builds without `WithTransport`: it starts on polling whenever polling is
  supported. `Connect` is called once (but for `TwoGetsIff`), and `Close` only after a `Connect` that returned
  nil; `Send` may be called at any time. The transport's `Stop` is called by the client only.
- The handshake gate's late installation, the unguarded uses of `c.transport` and the unconditional close of
  the upgrade gate are not assumed away: where they would panic, the model crashes, and `PanicsExactly` says
  in which states that happens.
- The engine's message handler is the Socket.IO client's, whose root or default namespace exists or is
  created by CONNECT packets. The user's own callbacks run in goroutines of their own and are not part of the
  engine's model.
- A polling request fails once its request context is cancelled. Timers, HTTP responses, websocket messages
  and errors are environment steps that may happen at any time.
- Each access to the websocket object's connection (`Dial`, the start of `Receive`, `Send`, `Close`) is one
  atomic step; a `Dial` that fails leaves the object without a connection. Readers, pending closes and the
  stop token of earlier runs stay in the model.
- The ordering theorem is about runs in which OPEN is the first frame and the only OPEN, and
  `transportUpgrade` has succeeded. The connect hook sends the Socket.IO CONNECT; `Emit` starts to send once
  its namespace is connected.
- Go's `int` is 64 bits wide, and `strconv.Atoi` is exact within that range. The handshake's JSON is a
  parameter; its `pingInterval` is any 64-bit integer.
- A JSON codec satisfies `JsonCodec.Law`. Payloads are JSON values: two notations of one value are the same
  payload.

## Model

| member | source | states |
|---|---|---|
| TransportContract.ContractHolds | engine.io/v4/client/dep.go:23-36 | a session of the contract feeds exactly its recorded frames, puts one close signal exactly when its loop has ended, and does nothing visible after it |
| PollingTransport.LoopRefines | engine.io/v4/client/transport/polling/transport.go:217-287 | every step of the polling loop is one that the contract allows, and a loop past the gate has an open gate |
| PollingTransport.StopRefines | engine.io/v4/client/transport/polling/transport.go:182-206 | every step of Stop is invisible to the contract |
| PollingTransport.HandshakeRefines | engine.io/v4/client/transport/polling/transport.go:87-115 | SetHandshake can open the gate and does nothing else visible |
| PollingTransport.RunIsSession | engine.io/v4/client/transport/polling/transport.go:135-180 | every execution after Run, from whatever object, with Stop and SetHandshake interleaved, is a session of the contract |
| PollingTransport.OneSignal | engine.io/v4/client/transport/polling/transport.go:276-287 | one close signal once the loop has exited, none before, no frame after it |
| PollingTransport.LoopOrder | engine.io/v4/client/transport/polling/transport.go:235-269 | over every execution, which step of the loop follows which: after a body the next GET, after a failure a look at stop and context and only then a pause; the body handed over is the one that the GET brought |
| PollingTransport.LoopStarts | engine.io/v4/client/transport/polling/transport.go:217-233 | the loop's first step waits for the handshake gate, and passes it only with a session id at Run or after SetHandshake |
| PollingTransport.StopAdvances | engine.io/v4/client/transport/polling/transport.go:182-206 | each step of Stop reaches its next stage; stopCh is never closed twice |
| PollingTransport.LoopKeepsStopStage | engine.io/v4/client/transport/polling/transport.go:217-287 | the loop's own steps, its late `stopped := 1` included, disturb no stage of a Stop in progress |
| PollingTransport.StopProgress | engine.io/v4/client/transport/polling/transport.go:217-270 | after Stop each loop step lowers a rank and uses up a budget of one frame |
| PollingTransport.Escape | engine.io/v4/client/transport/polling/transport.go:223-268 | a stopped live loop has a step that needs no room in `messages` and no context; a GET in flight has its request cancelled |
| PollingTransport.StopEnds | engine.io/v4/client/transport/polling/transport.go:182-287 | over every execution after a returned Stop: at most five more loop steps and one more frame |
| PollingObject.StopNotifies | engine.io/v4/client/transport/polling/transport.go:182-206 | a whole Stop on an unstopped transport puts every stop signal in place; a second one changes nothing |
| PollingObject.Poller.MarkHandshakeDone | engine.io/v4/client/transport/polling/transport.go:105-115 | closes the gate once, if it was made |
| PollingObject.Poller.SetHandshake | engine.io/v4/client/transport/polling/transport.go:87-100 | the id is stored; resetting the pinger panics exactly for an interval that is no positive duration, and then the gate stays as it was; otherwise the gate opens |
| PollingObject.Poller.Run | engine.io/v4/client/transport/polling/transport.go:135-168 | the object afterwards, whatever it was |
| PollingObject.Poller.Stop | engine.io/v4/client/transport/polling/transport.go:182-206 | the object after all steps of Stop; no second close of stopCh |
| WebsocketTransport.LoopRefines | engine.io/v4/client/transport/websocket/transport.go:142-215 | every step of the read loop and its readers is one that the contract allows |
| WebsocketTransport.RunIsSession | engine.io/v4/client/transport/websocket/transport.go:54-69 | every execution after Run, with Stop interleaved, is a session of the contract |
| WebsocketTransport.OneSignal | engine.io/v4/client/transport/websocket/transport.go:166-213 | one close signal once the loop has exited, none before, no frame after it |
| WebsocketTransport.LoopOrder | engine.io/v4/client/transport/websocket/transport.go:154-214 | over every execution, which step of the read loop follows which; what is forwarded is the message that the select took |
| WebsocketTransport.LoopStarts | engine.io/v4/client/transport/websocket/transport.go:154-164 | the loop's first step starts a reader |
| WebsocketTransport.ClosedBehindLoop | engine.io/v4/client/transport/websocket/transport.go:127-137 | when the loop has returned and its goroutine is done, the connection is closed |
| WebsocketTransport.ReadersBounded | engine.io/v4/client/transport/websocket/transport.go:145-215 | at the outer select exactly one of reader, message and error is outstanding; readers always have room; what was forwarded is all but at most one of what the run's readers received, in order, and of what the connection yielded if no earlier reader was still to call |
| WebsocketTransport.StopProgress | engine.io/v4/client/transport/websocket/transport.go:166-203 | with nobody consuming, each loop step after Stop lowers a rank bounded by the free slots |
| WebsocketTransport.Escape | engine.io/v4/client/transport/websocket/transport.go:166-195 | a stopped live loop has a step that needs no message, room or context |
| WebsocketTransport.ReuseIsFreshIff | engine.io/v4/client/transport/websocket/transport.go:114-140 | over all executions after Run without a Stop: no token is taken, the live loop's connection is not closed and nobody else takes its messages, exactly when nothing is left of earlier runs |
| EngineClient.UpgradeTarget | engine.io/v4/client/client.go:216-237 | an upgrade that is chosen is supported, offered and not the current transport; FirstSettles says which one |
| EngineClient.FirstSettles | engine.io/v4/client/client.go:216-237 | the first entry that names the current or a supported transport decides; a supported other one is chosen, otherwise none |
| EngineClient.ChooseUpgrade | engine.io/v4/client/client.go:217-236 | the loop over the upgrade list finds exactly that upgrade |
| EngineProof.StepKeeps | engine.io/v4/client/client.go:67-421 | every step of every thread keeps the invariant or panics as CrashOf says |
| EngineProof.RunKeeps | engine.io/v4/client/client.go:67-421 | every uncrashed state of every run satisfies the invariant |
| EngineTheorems.SequentialHandOver | engine.io/v4/client/client.go:147-156 | at most one loop feeds `messages`; its close signal finds an empty channel; Run starts only after the old loop's signal was consumed; `messages` is closed only when no producer is left |
| EngineTheorems.PanicsExactly | engine.io/v4/client/client.go:179-369 | each step of a run panics exactly when CrashOf says so, with the exact condition of each kind: nil transport, nil url, nil gate, ticker reset to no positive duration, incomplete packet; no channel is closed twice and nothing is sent on a closed one |
| EngineHistory.FramesDecide | engine.io/v4/client/client.go:262-320 | over all runs the handled frames alone decide: the default namespace is connected, a namespace is known, there is a session id exactly when one of them said so, and the answers on the record are one PONG for each PING and one UPGRADE for each probe's PONG, in order |
| EngineHistory.EveryPacket | engine.io/v4/client/client.go:288-333 | every step hands over exactly its packet: an answer or the probe to the current transport, a MESSAGE to the transport that its caller picked |
| EngineHooks.OneHookPerHandshake | engine.io/v4/client/client.go:239-260 | over all runs, as many connect hooks as valid OPENs handled to the end, less the upgrades that went wrong |
| EngineHooks.EveryCaller | engine.io/v4/client/client.go:239-260 | who is there to call Send after each step: one new hook at the end of a handshake without an upgrade error, none after one with |
| EngineOutcomes.ConnectOutcome | engine.io/v4/client/client.go:67-104 | nil means that the message loop was started, the gate made and, with polling, a first frame enqueued; an error means that nothing is left running |
| EngineOutcomes.CloseOutcome | engine.io/v4/client/client.go:385-421 | the Close that took the transport leaves no loop, a closed and, in a live context, empty `messages` |
| EngineOutcomes.EveryLoopStep | engine.io/v4/client/client.go:106-177 | the message loop takes the frames in order and leads each through handshake and upgrade as listed; it ends only between frames |
| EngineOutcomes.QueueBound | engine.io/v4/client/client.go:70 | `messages` holds at most a hundred frames, and a loop can hand one over exactly below that |
| EngineOutcomes.UpgradeDecision | engine.io/v4/client/client.go:216-237 | which upgrade is attempted, in terms of the list of the OPEN being handled |
| EngineOutcomes.SendIsGated | engine.io/v4/client/client.go:335-369 | a MESSAGE is handed over only when both gates that the call's snapshot found are open, to a transport that was current when they were |
| EngineTheorems.GateIntegrity | engine.io/v4/client/client.go:131-177 | a gate's Once is spent exactly when its channel is closed; an upgrade error leaves the gate closed, success leaves it shut with the probe handed to the new transport after the gate was made |
| EngineTheorems.WhatWaitersAwait | engine.io/v4/client/client.go:212-243 | once the handling of an OPEN is over, nobody is stuck at the handshake gate; who waits at the latest upgrade gate waits for an upgrade under way or for the answer to a probe sent after that gate was made |
| EngineWaiters.StrandedIff | engine.io/v4/client/client.go:335-369 | for every caller at a shut gate in every run: it waits in all continuations exactly when its gate is not releasable |
| EngineRescue.ReleasableOpens | engine.io/v4/client/client.go:179-320 | from every state in which a gate is releasable some continuation opens it |
| EngineStranded.StepBack | engine.io/v4/client/client.go:106-320 | no step of anybody makes a gate open or releasable that was not releasable before |
| EngineStranded.StaysStranded | engine.io/v4/client/client.go:335-348 | a gate that is shut and not releasable stays so in every continuation |
| EngineWaiters.NoOpenStrands | engine.io/v4/client/client.go:335-348 | a reachable stranded caller: the first body is no OPEN, so that the polling loop never starts |
| EngineWaiters.CloseStrands | engine.io/v4/client/client.go:385-402 | a reachable stranded caller: Close takes the transport before an OPEN with an upgrade is handled |
| EngineWaiters.ReplacedGateStrands | engine.io/v4/client/client.go:131-135 | a reachable stranded caller: a second OPEN replaces the upgrade gate at which it waits |
| EngineTheorems.FifoConservation | engine.io/v4/client/client.go:106-129 | the handler has got exactly the payloads of a prefix of everything enqueued; all of it when the winning Close has returned with a live context |
| EngineTheorems.SingleGet | engine.io/v4/client/transport/polling/transport.go:217-233 | past its gate the polling loop finds the handshake GET over, its OPEN enqueued and taken |
| EngineWitness.TwoGetsIff | engine.io/v4/client/transport/polling/transport.go:146-156 | the handshake GET and a GET of the loop can be in flight together, in some run, exactly when a session id is known at Connect |
| EngineTheorems.PollingReuseIsFresh | engine.io/v4/client/client.go:155-156 | whenever the client runs polling again, it is as new and no old loop is left |
| EngineReuse.WebsocketReuseIff | engine.io/v4/client/transport/websocket/transport.go:114-140 | over all client runs: after a websocket Run no continuation disturbs the new run exactly when no token, no pending close and no uncalled reader of an earlier run is left |
| EngineReuse.FirstRunIsClean | engine.io/v4/client/client.go:155-156 | a client that has not left polling runs the websocket transport on an object as good as new |
| EngineReuseWitness.EachLeftoverIsReachable | websocket/native/ws.go:19-52 | for each of token, late close and late reader a run from polling to websocket to polling to websocket that has that leftover alone |
| EngineReuseWitness.EachLeftoverDisturbs | engine.io/v4/client/transport/websocket/transport.go:114-215 | each leftover alone disturbs the run that begins then |
| EngineTheorems.WaitNeverStuck | engine.io/v4/client/client.go:152 | who waits for a close signal, transportUpgrade, Connect or Close on either transport, can receive it, or the loop has a step that needs nobody else |
| EngineTheorems.CloseNeverStuck | engine.io/v4/client/client.go:385-421 | a Close that has begun can take its next step, or the loop that it has stopped can, or the message loop that it joins can |
| EngineTheorems.WaitStep | engine.io/v4/client/client.go:147-152 | during a wait no step of anybody gives back rank or budget, and the loop's own steps use rank up |
| EngineTheorems.WaitUses | engine.io/v4/client/client.go:147-152 | over any stretch of a wait the loop's steps and frames are paid for from a rank and a budget |
| EngineTheorems.WaitBounded | engine.io/v4/client/client.go:404-410 | during a wait the loop takes at most a bounded number of steps and frames: five and one for polling, one frame per free slot for websocket |
| EngineOutlast.CloseOutlasts | engine.io/v4/client/transport/websocket/transport.go:166-203 | for every number there is a run in which one Close waits for the websocket transport while that many messages are forwarded and consumed |
| EngineGrowth.StepGrows | engine.io/v4/client/client.go:70-75 | what was enqueued stays enqueued, in order; only its own goroutines, Stop and Run touch the websocket object; a caller of Send moves by its own steps only; only sending the probe makes an upgrade a success |
| EngineOrdering.RunKeepsOrder | engine.io/v4/client/client.go:212-257 | the ordering invariant holds in every uncrashed state of every run with one OPEN first |
| EngineOrdering.UpgradeOrdering | engine.io/v4/client/client.go:335-369 | after a successful upgrade every MESSAGE of the stack, and of any caller that saw the upgrade gate, went to websocket, after UPGRADE |
| EngineOvertake.UncoveredOvertakesIff | engine.io/v4/client/client.go:335-369 | the other half, over all runs: a caller without the gate can still overtake UPGRADE, if any continuation upgrades, exactly when UPGRADE has not been handed over and Close has not taken the transport |
| EngineOvertake.OvertakesIff | engine.io/v4/client/client.go:335-369 | from any state, however many OPENs there are, that caller can overtake exactly when some continuation comes between probe and UPGRADE |
| EngineOvertake.HandsAhead | engine.io/v4/client/client.go:350-368 | what the caller's next step then does: its MESSAGE goes to websocket, and UPGRADE is still to come |
| EngineBehind.Delayed | engine.io/v4/client/client.go:335-369 | every continuation can be had with one caller of Send not having moved |
| EngineWitness.BareSendOvertakesUpgrade | engine.io/v4/client/client.go:338-348 | a reachable state in which a bare Send's MESSAGE precedes UPGRADE on the new transport |
| EngineWitness.SecondCloseDoesNotWait | engine.io/v4/client/client.go:400-402 | a reachable state in which a second Close has returned and a payload is undelivered |
| EngineWitness.SendBeforeConnectPanics | engine.io/v4/client/transport/polling/transport.go:289-297 | a reachable crash: a Send before Connect reaches a polling transport without a url |
| EngineWitness.PingAfterClosePanics | engine.io/v4/client/client.go:288-295 | a reachable crash: PING dispatched after Close took the transport |
| EngineWitness.UnaskedPongPanics | engine.io/v4/client/client.go:296-303 | a reachable crash: a probe PONG without an upgrade |
| EngineWitness.NegativeIntervalPanics | engine.io/v4/client/client.go:197-206 | a reachable crash: an OPEN with the ping interval -1 |
| EngineWitness.IncompletePacketPanics | socket.io/v5/client/handlers.go:72-82 | a reachable crash: a MESSAGE with the one byte of an EVENT |
| EngineDecode.FrameIs | engine.io/v4/client/client.go:262-318 | which bytes become which frame, as an equivalence for each kind, with the fields of OPEN and MESSAGE |
| EngineDecode.OwnPackets | engine.io/v4/client/client.go:164-167 | the bytes of probe, UPGRADE, PONG and MESSAGE, and that they are read back |
| EngineDecode.PacketDecidesDispatch | socket.io/v5/client/handlers.go:27-83 | what a frame keeps of its packet decides whether dispatch panics and which namespace it connects |
| EngineDecode.IncompleteBytes | socket.io/v5/client/handlers.go:72-82 | the frames that make dispatch dereference nil are the two bytes of a MESSAGE with a bare EVENT or CONNECT_ERROR |
| GoInt.TickerWraps | engine.io/v4/client/transport/polling/transport.go:91-95 | one millisecond above that range the product wraps and the ticker panics |
| GoInt.TickerRange | engine.io/v4/client/transport/polling/transport.go:91-95 | for intervals up to 9 223 372 036 854 ms exactly the negative ones panic |
| Frames.PayloadsOfConcat | engine.io/v4/client/client.go:311-317 | a MESSAGE gives its data, any other frame nothing, and a sequence gives that of its parts in order |
| EngineFrame.ParseAcceptsIff | engine.io/v4/parser/parser.go:49-61 | one comparison after the wrapping subtraction accepts exactly the digits 0 to 6 |
| EngineFrame.ParsedFrame | engine.io/v4/parser/parser.go:58-65 | a parsed frame is the type of the first byte and everything after it |
| EngineFrame.PrintedFrame | engine.io/v4/parser/parser.go:68-79 | a frame is refused exactly above the configured limit, or 64 MiB without one, and otherwise printed as type digit and data |
| EngineFrame.SerializeOfParse | engine.io/v4/parser/parser.go:49-79 | what was parsed prints back to the same bytes |
| EngineFrame.RoundTripIff | engine.io/v4/parser/parser.go:68-79 | a frame survives exactly when its type is at most 6 and its data within the limit |
| Bytes.AtoiOfItoa | socket.io/v5/parser/default/serializer.go:35-38 | printing a non-negative id and reading it back |
| Bytes.ItoaDigits | socket.io/v5/parser/default/serializer.go:35-38 | which digit stands where in a printed id, and that no zero leads |
| Bytes.ItoaLength | socket.io/v5/parser/default/parser.go:54-56 | an id has at most k digits exactly when it is below 10 to the k |
| PacketCodec.ScanEnd | socket.io/v5/parser/default/parser.go:35-43 | the scan stops at the first `,` `[` or `{`, or at the end |
| PacketCodec.ExtractNamespace | socket.io/v5/parser/default/parser.go:31-45 | the loop yields the namespace before a comma, or root and everything |
| PacketCodec.DigitRun | socket.io/v5/parser/default/parser.go:49-53 | the longest run of digits in front |
| PacketCodec.ExtractAckId | socket.io/v5/parser/default/parser.go:47-63 | the loop yields the id of that run and the rest, or an error |
| PacketCodec.Parse | socket.io/v5/parser/default/parser.go:65-116 | the step-by-step parser computes Parsed |
| PacketCodec.Serialize | socket.io/v5/parser/default/serializer.go:67-90 | the step-by-step printer computes Serialized |
| PacketCodec.PrintedBytes | socket.io/v5/parser/default/serializer.go:26-90 | what is printed: type digit, namespace and comma, id, then the payload's JSON unless it is null, "" or {}, or the event's array |
| PacketCodec.UnprintableIff | socket.io/v5/parser/default/serializer.go:11-65 | exactly which messages are refused, and with which error |
| PacketCodec.KindAcceptedIff | socket.io/v5/parser/default/parser.go:19-29 | exactly the empty message and the two binary types are refused by the first byte |
| PacketCodec.ParsedKind | socket.io/v5/parser/default/parser.go:23 | the type of an accepted packet is its first byte, wrap-around included |
| PacketCodec.AckScan | socket.io/v5/parser/default/parser.go:47-62 | exactly 19 or more leading digits are refused; every id yielded fits 64 bits, so the ignored Atoi error cannot occur |
| PacketCodec.ParsedShape | socket.io/v5/parser/default/parser.go:76-115 | which parts of an accepted message are present, and that its namespace, ack id and payloads can be printed |
| PacketCodec.AcceptedDecomposes | socket.io/v5/parser/default/parser.go:65-116 | the bytes of any accepted packet are type, namespace and comma, at most 18 digits, and a body: the event's, the error text, or ignored |
| PacketCodec.RefusedIff | socket.io/v5/parser/default/parser.go:65-116 | exactly which bytes are refused |
| PacketCodec.NamespaceIs | socket.io/v5/parser/default/parser.go:31-45 | a namespace ends at the first comma with no `[` or `{` before it; without such a comma there is none |
| PacketCodec.NamespaceRoundTrip | socket.io/v5/parser/default/serializer.go:82-85 | a printed namespace is scanned back |
| PacketCodec.AckIdRoundTrip | socket.io/v5/parser/default/serializer.go:35-38 | a printed ack id is scanned back |
| PacketCodec.HeaderRoundTrip | socket.io/v5/parser/default/serializer.go:79-87 | a printed header is scanned back in front of any body that does not start like a header |
| PacketCodec.EventRoundTrip | socket.io/v5/parser/default/payloadparser.go:14-47 | a printed event array is read back as name and payloads, whatever follows it |
| PacketCodec.SurvivorsRoundTrip | socket.io/v5/parser/default/parser.go:103-105 | messages that the format carries are read back, trailing bytes ignored |
| PacketCodec.RoundTripIff | socket.io/v5/parser/default/serializer.go:11-90 | an EVENT or ACK is read back exactly when the format can carry it |
| PacketCodec.TwoLayerRoundTripIff | engine.io/v4/parser/parser.go:49-79 | the same inside an Engine.IO MESSAGE frame, within its size limit |
| PacketCodec.CanonicalIff | socket.io/v5/parser/default/parser.go:65-116 | whatever bytes it came from, an accepted EVENT or ACK prints and parses to itself, except an EVENT without a name (a leading `null` or `""`) |
| PacketCodec.ConnectRoundTrip | socket.io/v5/client/client.go:69-83 | CONNECT is printed as its namespace and its payload's JSON, and read back with its namespace |
| SmallJson.LawHolds | socket.io/v5/parser/default/payloadparser.go:14-47 | the law assumed of the JSON codec can be satisfied |
| PollBody.ReadLimit | engine.io/v4/client/transport/polling/transport.go:351-354 | the clamped limit is at least the maximum and positive, wrap-around included |
| PollBody.ReadAll | engine.io/v4/client/transport/polling/transport.go:355-360 | the limited read yields the body's prefix however it arrives, and fails only on a failure it sees |
| PollBody.ReadBody | engine.io/v4/client/transport/polling/transport.go:344-370 | a body is accepted exactly when it is within the limit, and then whole |
| AckTable.TakenOnce | socket.io/v5/client/handlers.go:166-170 | an id is taken at most once, and taking it touches no other |
| AckMachine.StepKeeps | socket.io/v5/client/emitters.go:86-148 | every step of emits, timers, waiters, arrivals and deliveries keeps the invariant |
| AckMachine.IdsDistinct | socket.io/v5/client/emitters.go:106-109 | two emits have the same ack id exactly when a multiple of 2^64 emits lies between them; up to 2^64 emits ids are distinct |
| AckMachine.CallsAreOwn | socket.io/v5/client/handlers.go:166-178 | an ack callback runs only for an ACK with its own id and that ACK's payload, a timeout callback only after the timer |
| AckMachine.OneOutcome | socket.io/v5/client/emitters.go:127-144 | ack and timeout callback of one emit run at most once in total |
| AckMachine.OutcomeIsCalled | socket.io/v5/client/emitters.go:128-143 | an emit that ended by its ack or its timer has had that callback called, and no other has |
| AckMachine.DeliveryNeverBlocks | socket.io/v5/client/emitters.go:101-113 | the goroutine that delivers an ack can always take its step |
| AckMachine.LaunchesIff | socket.io/v5/client/handlers.go:166-178 | an ACK launches a delivery only for an id whose ack is still awaited, and always then up to 2^64 emits |
| AckMachine.AckEndsWait | socket.io/v5/client/handlers.go:38-53 | after an ACK, with an event or without, no callback waits for its id, and the others are as before |
| AckMachine.StrayAcksCallNothing | socket.io/v5/client/handlers.go:172-175 | up to 2^64 emits, duplicate, late and unknown ACKs are recorded and change nothing |
| NamespaceTable.OpenOnce | socket.io/v5/client/handlers.go:123-127 | however often a gate is opened, it is closed once |
| NamespaceTable.NeverReplaced | socket.io/v5/client/client.go:95-112 | get-or-create yields the entry that is in the map afterwards and replaces no other |
| NamespaceGate.StepKeeps | socket.io/v5/client/client.go:95-112 | lookups, emits and CONNECT dispatch keep the map, the gates and the log consistent |
| NamespaceGate.EmitIsGated | socket.io/v5/client/emitters.go:16-29 | every EVENT given to the engine follows a dispatched CONNECT of its namespace |
| NamespaceGate.EmitKeepsItsName | socket.io/v5/client/emitters.go:16-29 | a call of Emit waits for the gate of the namespace that it was called on, and its EVENT is for that namespace |
| NamespaceGate.ConnectOpensItsName | socket.io/v5/client/handlers.go:55-77 | the dispatch of a CONNECT opens the gate of the namespace that it names |
| NamespaceGate.LookupFinds | socket.io/v5/client/client.go:95-112 | a lookup leaves the name in the map, as the object of that name |
| NamespaceGate.GateOpensOnce | socket.io/v5/client/handlers.go:121-127 | a gate is closed exactly when its CONNECT was dispatched, at most once |
| NamespaceGate.NamesAreKept | socket.io/v5/client/client.go:95-112 | a name keeps its one object for good, and no two names share one |
| Dispatch.RoutesTo | socket.io/v5/client/handlers.go:27-83 | which message goes where, by its first byte and what was parsed, with every field of the outcome |
| Dispatch.PanicsIff | socket.io/v5/client/handlers.go:72-82 | dispatch dereferences nil exactly for a one-byte EVENT or CONNECT_ERROR with root known |
| Dispatch.AckNeedsId | socket.io/v5/client/handlers.go:38-53 | an ACK is dropped exactly when it carries no id; one with an id always has an event |
| Dispatch.OnlyCarriedNamespaces | socket.io/v5/client/handlers.go:55-70 | only a namespace that the header can carry is connected or sees an event |
| Dispatch.EmittedEventArrives | socket.io/v5/client/emitters.go:66-84 | an emitted event, printed and dispatched, arrives as itself |
| Dispatch.AckArrives | socket.io/v5/client/handlers.go:38-52 | an acknowledgement, printed and dispatched, reaches the callback of its id with its payloads |
| SocketClient.Namespace.On | socket.io/v5/client/handlers.go:13-19 | appends to the handlers of that event and changes no other |
| SocketClient.Namespace.OnAny | socket.io/v5/client/handlers.go:21-25 | appends to the any-handlers |
| SocketClient.Namespace.OpenGate | socket.io/v5/client/handlers.go:123-127 | closes the gate, never twice |
| SocketClient.Namespace.LaunchEvent | socket.io/v5/client/handlers.go:144-164 | launches every any-handler and then every handler of the name, once each, in order |
| SocketClient.Namespace.LaunchLifecycle | socket.io/v5/client/handlers.go:129-141 | launches every handler of a lifecycle event, in order |
| SocketClient.Client.GetNamespace | socket.io/v5/client/client.go:95-112 | an existing namespace is returned and never replaced; a new one starts shut and without handlers |
| SocketClient.Client.RegisterAck | socket.io/v5/client/emitters.go:106-119 | the id is the next one, wrapped, and the table gains the entry that timeout and callback call for |
| SocketClient.Client.HandleAck | socket.io/v5/client/handlers.go:166-178 | the entry of the id, if there is one, is launched with the payloads and removed; nothing else is |
| SocketClient.LaunchedIs | socket.io/v5/client/handlers.go:85-178 | which callbacks an outcome launches, call by call: handler, order, name and payloads |
| SocketClient.AcksAfterIs | socket.io/v5/client/handlers.go:43-50 | what an outcome does to the ack table |
| SocketClient.Client.OnExisting | socket.io/v5/client/handlers.go:72-82 | outcome and launched callbacks of a message that is no CONNECT, for a namespace that exists |
| SocketClient.Client.OnNamespace | socket.io/v5/client/handlers.go:55-82 | the part of dispatch that concerns one namespace: outcome, gates, launched callbacks, also those launched before a panic |
| SocketClient.Client.OnMessage | socket.io/v5/client/handlers.go:27-83 | outcome, ack table, namespaces, gates and launched callbacks of one message, also those launched before a panic, and that nothing else changes |
| EmitArgs.PayloadsOfConcat | socket.io/v5/client/emitters.go:48-64 | every payload argument is kept once, in order |
| EmitArgs.PayloadsOfOne | socket.io/v5/client/emitters.go:50-59 | one payload argument contributes itself, an option nothing |
| EmitArgs.NoPayloadsIff | socket.io/v5/client/emitters.go:53-56 | there is nothing to refuse exactly when no argument is a payload |
| EmitArgs.LastOptionWins | socket.io/v5/client/emit/options.go:26-37 | the last option of a kind decides |
| EmitArgs.NoOptionNoSetting | socket.io/v5/client/emit/options.go:15-24 | without an option of a kind its setting stays nil |
| EmitArgs.EndsIff | socket.io/v5/client/emitters.go:48-60 | with a name, a nil option panics wherever it is and nothing is refused; with the caller's event, whichever of payload and nil option comes first decides |
| EmitArgs.PlanSends | socket.io/v5/client/emitters.go:36-72 | a name is sent with the payload arguments in order, the caller's event as it is; and exactly when it is an invalid event type, both forms, or a panic |
| EmitArgs.PlanAsksForAck | socket.io/v5/client/emitters.go:66-83 | an ack is asked for exactly with a callback in the last WithAck or any WithTimeout, with the settings of the last option of each kind |
| EmitArgs.SplitArgs | socket.io/v5/client/emitters.go:48-64 | however the loop ends, the array is the payloads come to so far, in order, then its old tail |
| EmitArgs.PlanEmit | socket.io/v5/client/emitters.go:31-84 | what is to be sent, a nil event included, or refused, or panics, and what happens to the caller's arguments |

## Left out

- Update in place of the engine client, the websocket transport and both transport loops: these are step
  functions on a record of the same fields, because their property is how the steps of many goroutines
  interleave; `PollingObject` has the sequential methods of the polling transport on a mutable object.
- EngineOrdering.UpgradeOrdering: does not cover a caller outside the Socket.IO stack that did not see the upgrade gate; `EngineOvertake.UncoveredOvertakesIff` says exactly when such a caller can overtake.
- EngineOrdering.RunKeepsOrder: is about one OPEN that arrives first; later OPENs may upgrade again.
- EngineTheorems.FifoConservation: says nothing about a Close that did not take the transport or about a context that has ended; `EngineWitness.SecondCloseDoesNotWait` shows the first.
- EngineTheorems.WaitBounded: has no bound for a Close that waits for the websocket transport, because there is none: `EngineOutlast.CloseOutlasts`.
- AckMachine.LaunchesIff: its second half, and `AckMachine.StrayAcksCallNothing`, are about runs in which no ack id has been given out twice, up to 2^64 emits.
- SocketClient.Client.OnMessage: launched callbacks are listed in launch order; when they finish, and the recovery of a panic inside one, is not modelled.
- PollBody.ReadBody: a read that brings bytes and a failure at once is split into two reads.
- Data races within one access to the websocket object's connection, and what the network then does.
- Emit calls that register no ack (neither callback nor timeout), and ack callbacks that are not functions, never
  touch the ack table and are not part of `AckMachine`.
- Options of `Emit` other than the two that the package offers: any function of that type is one.
- `encoding/json` and reflection in `WrapCallback`: library behaviour, replaced by the law of the codec.
- HTTP, URL building, the websocket library, tickers beyond their panic, and clocks: environment steps.
- Packets that one polling body concatenates: the code forwards each body whole, and so does the model.
- Constructors' option plumbing, loggers, payload redaction, reconnection fields, `BinaryAttachments` and
  `Force`, which nothing reads.
- `SetHandshakeData`, which only replaces the payload of the next CONNECT.
