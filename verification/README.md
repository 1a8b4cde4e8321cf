# Verification of the session lifecycle

A Dafny model of the game server's core and proofs about it. Many goroutines feed one bounded
event queue: a reader and a writer for every TCP connection, and one UDP reader. A single tick
goroutine drains the queue and alone owns the two session tables, the outbound queues and the
authentication state. Two smaller cores plug into it: the length-prefix framing and the
subscription manager.

The model has two layers.

* **The protocol** (`Protocol.dfy`) is a transition system on values. Every atomic action of every
  goroutine is a step, and a run is any sequence of steps, so a theorem about runs is about every
  interleaving. A step that is not enabled leaves the state alone. The tick goroutine's remaining
  work is an agenda, a stack of small operations, so that readers and writers can act between any
  two of them: between setting the disconnect flag and pushing the event, or in the middle of a
  broadcast. User code is arbitrary: a callback is any finite sequence of calls, with any I/O in
  between, that returns, fails or panics. `Authenticate` may give any verdict.
* **The objects** (`Server.dfy`, `Subscriptions.dfy`, `FrameIO.dfy`) have the program's own form:
  classes whose methods update fields, maps of references and channels in place. A ghost trace in
  `Server` records the protocol steps taken, and `Valid` says that the objects are in the state
  the trace leads to. The steps that the outside world decides (verdicts, calls and outcomes) are
  also kept apart, in `told`, wherever they take effect, and every method says which of them it
  adds. So the theorems about runs hold of the objects too (`TablesAgree` and
  `ChannelsAreBounded` draw two such conclusions).

The other files each prove one theme over all runs. The history fields of a state (accepted and
handled events, callback log, frames offered and taken, counts of cleanups and lost disconnects)
exist to state those theorems; no step reads them.

| file | theme |
|---|---|
| `Frame.dfy`, `FrameIO.dfy` | the codec as functions, and the reading and writing loops |
| `Protocol.dfy`, `Moves.dfy` | the transition system, and its single steps spelled out |
| `Conservation.dfy`, `Reasons.dfy` | where a disconnect can be, and which reason wins |
| `Fifo.dfy` | the order of events and what a tick takes |
| `Tables.dfy`, `UdpIndex.dfy`, `Identity.dfy` | the two lookup tables, and player IDs over whole runs |
| `Lifecycle.dfy`, `Teardown.dfy` | what user code sees of a session, and what it no longer sees |
| `Routing.dfy` | what becomes of each event, by its kind and its session's state |
| `Outbound.dfy`, `Rpc.dfy`, `Fanout.dfy` | what is sent |
| `Inbound.dfy` | what is received |
| `Subscriptions.dfy`, `Leaks.dfy` | the subscription manager alone, and with teardown |
| `Cadence.dfy`, `Sweep.dfy`, `Traffic.dfy` | pings, the zombie sweep, and the traffic behind it |
| `Server.dfy` | the objects |
| `Witnesses.dfy` | runs that show which hypotheses are needed |

## Where the code and its comments differ

The model follows the code.

* `frame.go:38-40` promises an unexpected-end error for a truncated payload. A stream that ends
  right after a complete nonzero header gives a plain end-of-file, because no payload byte was
  read (`Frame.PromisedErrorExactlyWhen`, `Frame.HeaderAloneLooksClosed`).
* `session.go:9-10` calls a player ID unique for the lifetime of a server. The code refuses an ID
  only while it is listed (`handshake.go:45`), so IDs can be reissued
  (`Witnesses.StaleFrameServed`; `Identity.UniqueForeverExactlyWhen` says when not) and ID 0 can be granted (`Witnesses.ZeroIdLingers`).
* `session.go:76-78` and `server.go:364-365` have one disconnect event for every session. The event
  is lost exactly when the queue is full, and nothing retries it (`Lifecycle.LostExactlyWhen`).
* `server.go:404-407` says the outbound channel is not set to nil; the next statements close it
  and set it to nil.
* `session.go:63-64` says the UDP reader updates the last-seen time; the tick goroutine does, from
  the tick's time (`tick.go:67`, `ping.go:25`) and from the wall clock (`handshake.go:144`). The two
  clocks need not agree, so the sweep theorems take the last-seen time as it stands, and
  `Traffic.LastSeenIsTheLatestSign` says which sign of life it came from.
* `tcp.go:119` reports a full event queue as a full outbound queue.
* `ping.go:17-19` has a session disconnected after the timeout without UDP traffic. A Pong that
  arrives over TCP counts as well (`tick.go:106-110`, `Witnesses.KeptAliveOverTcp`), and the rule
  holds exactly unless the latest sign of life is such a Pong within the timeout
  (`Traffic.UdpSilenceCountsExactlyWhen`).

## Model

| member | source | states |
|---|---|---|
| Frame.OneFrameRoundTrip | frame.go:18-58 | an encoded payload followed by any bytes reads back as that payload and leaves those bytes, if and only if the payload is shorter than 2^32 and within the cap (or the cap is 0) |
| Frame.OneFrameCanonical | frame.go:41-58 | whatever one read returns, the stream began with exactly the encoding of it, and the payload respects the cap |
| Frame.FrameLayout | frame.go:18-31 | a frame is four bytes that spell the payload's length modulo 2^32 with the most significant byte first, and then the payload |
| Frame.ReadsByItsLength | frame.go:41-58 | on every input the outcome follows from the big-endian value n of its first four bytes: too large if and only if a nonzero cap is below n; otherwise a payload, the next n bytes, if and only if they are there; otherwise an error fixed by how the stream ends and whether it ends on a read boundary |
| Frame.OverCapStopsTheStream | frame.go:46-49 | in a stream, a frame declared over the cap ends the reading there: the payloads before it are read, its four header bytes are consumed, and everything after them is left |
| Frame.StreamRoundTrip | frame.go:18-58 | decoding the concatenated encodings of any list of framable payloads gives exactly that list and then behaves as the suffix alone would |
| Frame.StreamCanonical | frame.go:41-58 | the payloads any byte stream decodes to are all framable, and their encoding is a prefix of the stream |
| Frame.WholeFramesIsGreatest | frame.go:41-58 | the number of payloads counted as wholly contained in a truncated stream is the greatest possible |
| Frame.TruncatedStream | frame.go:41-58 | every truncation of an encoded stream decodes to the wholly contained payloads, then end-of-file on a frame boundary or right after a complete header, and unexpected-end anywhere else |
| Frame.PromisedErrorExactlyWhen | frame.go:38-57 | the documented unexpected-end error of a truncated frame is given exactly unless the cut comes right after a complete header |
| Frame.HeaderAloneLooksClosed | frame.go:53-56 | the concrete stream on which the documented error is not given: a header for one byte, then nothing |
| FrameIO.ReadFrame | frame.go:41-58 | however the connection cuts the bytes into pieces, the result and the bytes left are those of decoding the joined stream |
| FrameIO.ReadAll | tcp.go:88-125 | reading frames until the first error yields the payloads, the error and the rest of decoding the whole stream |
| FrameIO.WriteFrame | frame.go:18-31 | success means the whole encoding was sent; failure means a proper prefix of it was; a reliable connection never fails |
| FrameIO.WriteAll | tcp.go:131-151 | frames go out in order and whole up to the first failing one, of which a proper front is sent |
| FrameIO.Transfer | frame.go:18-58 | payloads written by one end and cut into arbitrary pieces on the way are read by the other end, exactly and to a clean end |
| FrameIO.Source.ReadFull | frame.go:43-56 | the standard library's full read: the buffer is filled exactly when enough bytes remain, and the error tells no byte from some bytes |
| Protocol.NewConfig | server.go:187-205 | the configuration in force keeps every setting that was given and has the default in place of every queue depth or frame cap that was not; every ping interval or timeout that is not positive counts as 5 s or 30 s |
| Conservation.DisconnectsAreConserved | server.go:367-413 | in every reachable state of every interleaving, the disconnects of a session in flight, queued, batched, carried out and lost add up to one if its flag is set and to none otherwise |
| Conservation.CleanupAtMostOnce | session.go:84-90 | a session is cleaned up or loses its disconnect at most once in all, and then no other disconnect for it exists anywhere |
| Lifecycle.DroppedIsNeverCleaned | server.go:371-382 | once a disconnect event has been lost to a full queue, no continuation ever cleans the session up or calls OnDisconnect for it |
| Lifecycle.LostExactlyWhen | server.go:371-382 | over any run, a session's disconnect has been lost if and only if some step of the run pushed it while the queue was full |
| Lifecycle.CleanedExactlyWhenNeverLost | tcp.go:98-121 | when nothing is under way any more, a marked session has been cleaned up if and only if no push of its disconnect met a full queue |
| Witnesses.DisconnectLost | tcp.go:98-105 | a concrete run in which a disconnect meets a full queue and is lost with the flag set |
| Reasons.OnDisconnectGetsTheFirstReason | server.go:367-413 | OnDisconnect is only ever called with the reason of the attempt that won the session's flag |
| Reasons.HandledIsCleanedUp | tick.go:44-58 | over every run, a session's disconnects that have been handled are exactly its cleanups |
| Reasons.AcceptedDisconnectIsCarriedOut | tick.go:19-31 | a disconnect the queue accepted before a tick began has been carried out by the end of that tick: one cleanup, and one OnDisconnect with its reason |
| Fifo.AlwaysOrdered | events.go:65-93 | handled events, then the batch, then the queue are all accepted pushes in order; the queue never exceeds its depth; and the tick's place fixes how many have been handled |
| Fifo.DrainTakesItsSnapshot | events.go:78-93 | the drain loop always finds what it counted, so its early exit is never taken, and it returns exactly its snapshot despite concurrent pushes |
| Fifo.TickHandlesItsSnapshot | tick.go:19-31 | at the end of a tick exactly what had been accepted when it began has been handled |
| Fifo.HandledWithinItsTick | tick.go:19-31 | an event accepted before a tick's drain is handled in that tick and one accepted later is not, whatever I/O happens meanwhile |
| Tables.TablesAreConsistent | server.go:389-413 | in every reachable state each live session is the one stored under its ID, each entry leads to a session with that ID or address, and only the entry of ID 0 can outlive its session |
| Tables.LivePlayersAreUnique | handshake.go:45-56 | two live sessions never share a player ID |
| Tables.DispatchEvictsNobodyElse | server.go:389-413 | no dispatched event, another session's cleanup included, takes a live session out of the session table |
| Identity.NeverZero | handshake.go:37-56 | if Authenticate never grants ID 0, no logged-in session ever has it |
| Identity.UdpEntriesAreListed | handshake.go:142-145 | in every reachable state, whatever IDs are granted, every entry of the UDP table leads to a ready session that has that address and is the one stored under its ID |
| Identity.TableIsTheLiveSessionsExactlyWhen | server.go:389-413 | the session table is exactly the live sessions under their own IDs if and only if no step of the run cleaned up a session with ID 0 |
| Identity.NonzeroIdsStrandNobody | server.go:393-395 | in particular it is if Authenticate never grants ID 0 |
| Identity.UniqueForeverExactlyWhen | session.go:9-11 | a player ID identifies one session for the lifetime of the server if and only if no login of the run was accepted under an ID that had been granted before |
| Tables.TearDownClearsTheTableExactlyWhen | server.go:393-395 | without that assumption, cleaning up a live session removes it from the session table if and only if its ID is not 0 |
| Witnesses.ZeroIdLingers | server.go:393-395 | a concrete run after which a cleaned-up session is still listed, under ID 0 |
| UdpIndex.IndexedExactlyWhen | handshake.go:142-145 | throughout a run every live ready session is found under its address, if and only if no step pairs a session from an address that another live ready session holds |
| UdpIndex.LookupAgreesExactlyWhen | tick.go:64-70 | throughout a run, looking an address up gives exactly what scanning the session table for a ready session with it gives, if and only if no step pairs a session from the address of a listed ready session or cleans up a ready session with ID 0 |
| Witnesses.AddressTakenOver | handshake.go:142-145 | a concrete run in which a second session takes the address entry of a live ready one |
| Routing.RefusedLogin | handshake.go:21-50 | in every run, a login of a session that has not logged in, with any verdict but a grant of a free ID, leaves exactly the refusal to send and then a disconnect to schedule, for misconfiguration, a malformed frame or a rejection as the verdict says; no table changes and no callback runs |
| Routing.GrantedLogin | handshake.go:52-66 | a free ID that is granted lists the session with ID and token, runs OnAuth, and leaves the response that tells both to the client to be sent next |
| Routing.RequestIsDispatchedExactlyWhen | tick.go:118-122 | an RPC request of a ready session is taken down if and only if its ID is listed; then its handler runs if one is registered, and a refusal with its correlation ID is up next if none is |
| Routing.MalformedFrameDisconnectsExactlyWhen | tick.go:74-91 | a malformed TCP frame schedules the disconnect of its session for that reason, and nothing else, unless the session has an ID that is no longer listed |
| Routing.PongOnlyShowsLife | tick.go:106-110 | a Pong on TCP sets the last-seen time of its session to the tick's, unless the session has an ID that is no longer listed, and changes no other session, table, agenda or log |
| Routing.OutOfPlaceDoesNothing | tick.go:74-135 | a frame on TCP that is out of place in its session's state, or whose session no longer counts, changes no session, table, agenda or log |
| Routing.GameDatagramIsServedExactlyWhen | tick.go:64-116 | a game datagram with a registered handler is passed to it with a session if and only if the UDP table has that session for the source address |
| Routing.OtherDatagramOnlyShowsLife | tick.go:64-122 | a Login, RpcRequest, Pong, malformed or empty datagram, and a game datagram without a handler, changes nothing but the last-seen time of the session paired with its source |
| Routing.HandshakePairsExactlyWhen | handshake.go:123-151 | a handshake that names a listed session still awaiting it, with its token, pairs it with the source address and runs OnConnect; every other handshake changes no table and runs nothing |
| Routing.DisconnectTearsDown | server.go:389-413 | a disconnect deletes exactly its session's own keys from the two tables, detaches that session alone, and runs OnDisconnect with the event's reason |
| Teardown.NoHandlerAfterTeardown | tick.go:74-122 | in every continuation that does not reissue its player ID, a session cleaned up after login is never passed to a client handler, an RPC handler, OnConnect or OnAuth, even with its frames still queued |
| Teardown.CleanedUpIsNeverServed | server.go:389-413 | so once the disconnect of a live session with a nonzero ID has been handled, no continuation that does not reissue the ID passes the session to a handler, OnConnect or OnAuth |
| Teardown.StaleFrameIsServedExactlyWhen | tick.go:74-78 | a queued game frame of a ready session, cleaned up meanwhile or not and whatever its ID, reaches a handler if and only if its ID is listed |
| Witnesses.StaleFrameServed | tick.go:74-78 | a concrete run in which a player ID is issued again and a queued frame of the session that had it, torn down since, reaches a client handler |
| Teardown.LogsInExactlyWhen | tick.go:74-78 | a login frame of a session that has not logged in, cleaned up meanwhile or not, lists it if and only if Authenticate grants a free ID |
| Witnesses.LoginAfterCleanup | tick.go:74-78 | a concrete run in which a session logs in after its cleanup and is listed with its channel closed |
| Teardown.SpentSessionStaysListed | server.go:371-395 | a live session whose one disconnect has been used up, by such an early cleanup or by a full queue, is stored under its ID in every continuation, so that the ID is never free again |
| Lifecycle.AlwaysRecorded | handshake.go:45-68 | the callbacks that have fired for a session are exactly what its state says, and every callback came after those it needs |
| Lifecycle.CallbacksFireAtMostOnce | tick.go:147-181 | OnAuth, OnConnect and OnDisconnect each fire at most once per session |
| Lifecycle.CallbacksFireInOrder | handshake.go:123-151 | OnConnect fires only after the same session's login issued the token presented, and handlers run only on sessions OnConnect has fired for |
| Lifecycle.SessionsOnlyAdvance | session.go:16-30 | over any continuation the authentication state never moves back, and ID, token, address and disconnect reason, once set, stay |
| Lifecycle.StepAdvances | session.go:16-30 | no step moves the authentication state by more than one place |
| Outbound.NothingIsLostUnmarked | server.go:348-361 | the outbox keeps to its depth; for an unmarked session what its writer took and what is queued equal everything ever given to it; and in any case nothing is reordered, repeated or invented |
| Outbound.OverflowIsOnTop | server.go:354-360 | an overflow is dealt with at once: in no reachable state does a planned disconnect for an overflow wait behind other work of the tick |
| Outbound.NothingIsSentAfterClose | server.go:402-409 | after a cleanup no continuation ever puts anything on the closed outbound channel |
| Rpc.EveryRequestIsAnsweredOnce | dispatch.go:163-231 | for every handler script and outcome, the responses given to a session are one for one and in order those of its dispatched requests, but for the one still being worked on |
| Rpc.UnmarkedResponsesMatch | dispatch.go:163-280 | between events, the correlation IDs of the responses an unmarked session's writer took or will take equal those of its requests, in order |
| Inbound.AcceptedFramesAreAPrefix | tcp.go:88-125 | the message events accepted for a connection are, in order and without a gap, a prefix of the payloads in its byte stream, and every exit of the reader leaves the session marked |
| Leaks.NeverLeaks | sub/sub.go:106-122 | the run-wide invariant: every subscription belongs to a listed player or to one whose OnDisconnect has yet to drop it |
| Leaks.NoSubscriptionLeak | sub/sub.go:106-122 | if callbacks subscribe only their own player or listed players and OnDisconnect calls UnsubscribeAll, then between events every subscriber is a key of the session table, whatever IDs are granted |
| Fanout.FanOutIsExact | tickctx.go:94-103 | when a fan-out loop is over, with overflows and any I/O in between, each targeted session has been given exactly one copy, every other session nothing, and the session, address and subscription tables are unchanged |
| Fanout.BroadcastIsExact | tickctx.go:94-103 | a broadcast gives each session listed at the call exactly one copy and every other session nothing |
| Fanout.PublishIsExact | sub/sub.go:134-143 | a publication over TCP gives the session of each listed subscriber exactly one copy and every other session nothing |
| Fanout.FanOutIsDelivered | sub/sub.go:134-149 | an unmarked session's writer has taken or will take that one copy after everything it was given before, or nothing more if it was not targeted |
| Cadence.PingCadence | ping.go:41-44 | if tick times do not decrease and are at most d apart, consecutive ping batches are at least the interval and less than the interval plus d apart |
| Cadence.BatchCount | ping.go:41-44 | the number of ping batches over a run is bounded from both sides by the time it spans |
| Sweep.TickMarksTheSilent | ping.go:48-60 | at the end of every tick every listed ready session silent for longer than the timeout is marked |
| Sweep.NobodyIsMarkedTooSoon | ping.go:46-60 | in no step of any run is a session newly marked for silence at or before its last-seen time plus the timeout |
| Sweep.ZombieIsMarkedInTime | ping.go:31-64 | with ping rounds at most d apart, a session that stays ready with one last-seen time, listed or not, is marked by a tick no later than that time plus the timeout plus d |
| Traffic.LastSeenIsTheLatestSign | handshake.go:142-145 | in every reachable state a session's last-seen time is that of its latest sign of life (pairing handshake, datagram from its address, Pong over TCP), and a ready session has been paired by one |
| Traffic.UdpSilenceCountsExactlyWhen | tick.go:64-70 | a ready session silent on UDP for longer than the timeout is taken for a zombie if and only if its latest sign of life is not a Pong over TCP within the timeout |
| Traffic.NobodyHeardOfIsMarked | ping.go:46-60 | no session is marked for silence within the timeout of its latest sign of life |
| Traffic.UdpSilenceIsMarkedInTime | ping.go:17-19 | with ping rounds at most d apart, a ready session of which nothing is heard after its latest sign over UDP is marked by a tick no later than that sign plus the timeout plus d |
| Witnesses.KeptAliveOverTcp | tick.go:106-110 | a concrete run in which a session silent on UDP for ten times the timeout is not marked, because of a Pong over TCP |
| Subscriptions.Manager.constructor | sub/sub.go:64-69 | a new manager holds no subscription |
| Subscriptions.Manager.Subscribe | sub/sub.go:73-87 | adds exactly one pair; the two maps stay exact inverses with no empty and no shared inner map |
| Subscriptions.Manager.Unsubscribe | sub/sub.go:91-104 | removes exactly one pair, and emptied inner maps with it |
| Subscriptions.Manager.UnsubscribeAll | sub/sub.go:108-122 | removes exactly the player's pairs, whatever order the topics are visited in |
| Subscriptions.Manager.RunAll | sub/sub.go:73-122 | over every operation sequence the manager is a plain set of pairs |
| Subscriptions.Manager.SizesAgree | sub/sub.go:55-61 | both maps hold as many entries as there are subscriptions |
| Subscriptions.Manager.PlayersNow | sub/sub.go:134-143 | the players a publication goes to are exactly the topic's subscribers |
| Subscriptions.Manager.Subscribers | sub/sub.go:154-164 | lists exactly the topic's subscribers, each once |
| Subscriptions.Manager.Topics | sub/sub.go:168-178 | lists exactly the player's topics, each once |
| Server.Server.PushEvent | events.go:65-72 | the event is appended if and only if the channel has room |
| Server.Server.PostDisconnect | server.go:371-382 | the disconnect event is appended, or lost if the channel is full, as one step of the protocol |
| Server.Server.ScheduleDisconnect | server.go:367-383 | afterwards the flag is set, and an event was pushed only if this call set it; the objects are in the state those protocol steps lead to |
| Server.Server.PushTCP | server.go:348-361 | the frame is appended to an attached outbox with room; on overflow it is lost and the session's flag is set; a detached session is left alone |
| Server.Server.FanOut | tickctx.go:94-103 | the loop over the players, in any order, is a run of the protocol's fan-out to its end |
| Server.Server.Call | tickctx.go:68-137 | makes exactly the call it is given, as the corresponding run of protocol steps, on the objects and on the subscription manager alike |
| Server.Server.RunCallback | tick.go:147-181 | makes exactly the script's calls in order and ends with its outcome, panics being recovered; what that end requires is left to do |
| Server.Server.RemoveSession | server.go:393-410 | the session leaves both tables under the conditions of the code and loses its channel |
| Server.Server.CleanupSession | server.go:389-413 | the same, then OnDisconnect runs its script; the event counts as handled |
| Server.Server.Refuse | handshake.go:20-49 | the refusal is queued if there is room, and the session marked |
| Server.Server.Welcome | handshake.go:51-68 | the session is listed with its ID and token, OnAuth runs its script, and unless the session has been marked the response is then the last frame queued |
| Server.Server.HandleLogin | handshake.go:20-68 | a granted free ID lists the session, runs OnAuth and answers; every other verdict, and a taken ID, leaves the table alone, appends a refusal to the outbound queue if that has room, and marks the session |
| Server.Server.HandleHandshake | handshake.go:123-157 | a listed, pending session with the right token is paired from the address, and OnConnect runs its script; any other handshake leaves the address table alone |
| Server.Server.Connect | handshake.go:142-151 | a pairing sets address, state and last-seen time, takes the address entry, and OnConnect runs its script |
| Server.Server.HandlePong | ping.go:24-26 | the session's last-seen time becomes the tick's time |
| Server.Server.DispatchUserMessage | dispatch.go:51-125 | a registered handler runs its script, and a panic marks the session |
| Server.Server.DispatchRPC | dispatch.go:163-231 | whether there is a handler or not and whatever it does, the response with the request's ID is the last frame queued unless the session has been marked; a panic does not disconnect |
| Server.Server.RouteTcp | tick.go:80-131 | what each kind of frame does to its session, state by state: an RPC request of a ready one has its response last in the outbound queue unless the session is disconnected, a refused login is answered and marked, a malformed frame marks; and user code runs exactly for a granted login and for a found handler of a ready session |
| Server.Server.HandleTcp | tick.go:73-78 | a frame of a session whose nonzero ID is no longer listed changes nothing; any other has the effects of its kind |
| Server.Server.HandleUdp | tick.go:64-131 | user code runs exactly for a fitting handshake and for a game datagram from an address in the UDP table with a handler registered; a fitting handshake enters the address, a panicking handler marks the session, and every other datagram leaves table and queue alone |
| Server.Server.HandleEvent | tick.go:44-58 | any event is the dispatch of the given choice with everything that follows from it, the script included; it leaves the batch and counts as handled |
| Server.Server.Drain | events.go:78-93 | the batch becomes exactly what was queued, in order |
| Server.Server.HandleBatch | tick.go:26-28 | the events of the batch are handled one after the other, each with its own choice and script, until none is left |
| Server.Server.RunPingTick | ping.go:31-64 | afterwards every listed, ready, paired session silent for longer than the timeout has its flag set, and the batch time has moved only if a batch was due |
| Server.Server.RunTick | tick.go:15-41 | one tick handles exactly the events queued when it began, with the given choices and scripts, keeps the ping cadence, runs OnTick and ends idle |
| Server.Server.AcceptConn | tcp.go:48-53 | every connection gets a blank session object of its own |
| Server.Server.PushFrame | tcp.go:108-112 | a decoded frame is appended to the event channel or the reader must stop |
| Server.Server.EndReader | tcp.go:98-105 | the flag ends up set, and the event is pushed only by the winner and only if there is room |
| Server.Server.ReadOnce | tcp.go:89-123 | one turn of the reader's loop: the next frame is queued, or the disconnect is posted with the read's own error, or with the full queue as its reason, if the flag was unset and there is room |
| Server.Server.RunReader | tcp.go:88-125 | the channel receives the stream's frames in order up to the first that finds it full, then the disconnect event if there is still room and the flag was unset; its reason is the error that ends the stream if all frames fitted, and the full queue otherwise |
| Server.Server.TakeOutbound | tcp.go:136-139 | the writer takes the oldest frame and only that |
| Server.Server.ReceiveDatagram | udp.go:24-52 | a datagram is queued if and only if it is not oversized and there is room |
| Server.Server.TablesAgree | server.go:165-170 | of the objects themselves: every session is stored under its own ID and every address entry leads to the ready session that has it |
| Server.Server.ChannelsAreBounded | session.go:59-61 | of the objects themselves: both channels keep to their depths, and a session without the flag still has its channel |

## Left out

- Protobuf marshalling, cloning and reflection: an inbound frame is decoded by an arbitrary function that may call it malformed, outbound frames are values, and marshalling them is taken to succeed.
- Sockets, TLS, listeners, contexts and the start and stop of goroutines in `Run`: I/O and shutdown wiring.
- Outbound datagrams (acknowledgements, pings, `SendUDP`, `BroadcastUDP`, publication over UDP): best effort, with no effect on any modelled state; the ping nonce goes with them.
- Token generation: tokens are arbitrary strings, and nothing is claimed about their secrecy.
- Handler registries, the typed `rpc.Register` wrapper and logging: whether a handler is found is a choice of each dispatch.
- A callback that is not set: it is one that makes no calls; its invocation is still in the log.
- The Go memory model of the writer re-reading `sess.sendTCP` while cleanup sets it to nil: the writer is a sequence of atomic takes from the channel it began with.
- The `eventConnect` kind (`tick.go:49-54`): nothing pushes it.
- 32-bit player IDs, 64-bit nanosecond times and durations, and channel lengths are unbounded integers; only the frame length wraps.
- The `chat`, `interest` and `snapshot` packages: they hold no code.
- Protocol.NewConfig: the tick rate and the datagram limit are not part of it; ticks come at any time, and `ReceiveDatagram` takes the limit as a parameter.
- Eventual cleanup after a lost disconnect, and a timeout for sessions still awaiting their UDP handshake: the code provides neither.
- A tick context kept and used after its callback has returned: calls are made only while a callback runs.
- Server.Server.RunTick: the methods of the object layer run without I/O between their statements; interleaving is the matter of the protocol layer, where it is unrestricted.
- Server.Server.RunReader: likewise one uninterrupted run of the loop; `ReadOnce` is the unit that other goroutines' actions may come between.
- FrameIO.WriteFrame: a write that fails is taken to have sent a proper prefix, as the `io.Writer` contract has it.
- Leaks.NoSubscriptionLeak: assumes that user code keeps its own rule, because the library does not enforce it.
- Sweep.ZombieIsMarkedInTime: assumes one last-seen time throughout, since a Pong or a datagram moves the deadline.
- Subscriptions.Manager.PlayersNow: sends nothing itself; the sends are `Server.Server.FanOut`.
