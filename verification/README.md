# WhiteNoise circuits, modelled and proved in Dafny

WhiteNoise connects two clients that know each other only by identity. The caller's request goes
to its proxy (the *entry*), a gossip message reaches the destination's proxy (the *exit*), and the
two build a circuit of relay sessions: caller, entry, joint, relay, exit, answer. A Noise XX
handshake then runs over the circuit, and the clients exchange length-prefixed payloads through it.

This project models that core and proves, for all inputs and over all runs, that

* whenever any of the four places that announce Success does so, the sessions form one simple line
  from caller to answer **if and only if** the caller did not dial itself and no peer on the route
  has dropped its session (`SetupTheorem.SuccessMeansLine`);
* what each handler answers, by the positions of the session's two streams: who is told what, in which
  order, and what is left (`Answers.MatchingProbeAnnounces`, `Answers.ClosingTells`,
  `Answers.DisconnectTells`); and for any six peers there is a set-up in which both probes arrive, the
  joint announces, and both ends' circuits become ready (`SixPeers.BothEndsReady`);
* every Success that is announced on a kept route is heard: in any run of the line from there, amid any
  traffic, it stays under way until both ends' circuits are ready (`Announced.AnnouncementIsHeard`);
* while a line of any length is up, what was written at one end equals, in order, what was read at
  the other, plus its buffer, plus what is in flight hop by hop (`Conservation.RunConserves`); each
  message arrives once, unchanged, in order, crossing each link once, amid any traffic
  (`Delivery.DeliveredEachOnce`), and a line that carries only Data and Success can always deliver
  all of it (`Delivery.LineDrains`);
* once any node closes, every schedule of Disconnect messages, lost messages, writes, failed writes,
  finishing handshakes and stream-closed notices ends within a bound with the session nowhere
  (`Teardown.FloodingClears`, `Teardown.ClosingClears`); and if no write fails, the Disconnect messages
  alone do it, without a single notice, on every line that set-up reaches
  (`Flooding.DisconnectsSuffice`, `SetupFlood.ReachedLineFloods`);
* session table and stream index agree in every state of every run of a node **if and only if**
  every operation was fair when performed (`NodeRuns.RunAgrees`);
* `SecureSession.Read`/`Write` refine a byte queue for every chunking and every buffer size
  (`SecureStream.ReadsArePrefixOfWrites`), and payload framing survives any short reads; whatever bytes
  arrive instead, only plaintexts of accepted frames are read, in order
  (`HostileReads.OnlyAcceptedIsRead`);
* the handshake never gets stuck, ends with matching ciphers made of exactly the three secrets of XX
  (`HandshakeKeys.HonestHandshakeBytes`, and for one end against any peer
  `HandshakeKeys.FinishedHasMixed`), and only verified sessions are ever
  stored, whatever is closed while handshakes run (`Handshake.HandshakeAgrees`,
  `SecureRuns.RunTrusted`);
* the generated protobuf codec has a normal form and respects concatenation
  (`ChatCodec.NormalForm`, `ChatCodec.ParseConcat`), and parses any printed list of fields, of every
  wire type and nesting, to the last PeerID and Data and the other fields in order
  (`ChatFields.ParsesFields`);
* a peer scan panics **if and only if** it meets a negative index before a peer that is not excluded,
  and otherwise offers an eligible peer **if and only if** there is one (`PeerChoice.ScanOutcome`); the
  two client maps are inverse **if and only if** no registered peer takes a second identity;
* together: from any set-up run that announces Success on a kept route, through the three handshake
  messages on that very line, to any run of writes, deliveries and reads, what a client reads is a
  prefix of what the other wrote, in both directions, and nothing is lost
  (`EndToEnd.ClientsTalkInOrder`, `EndToEnd.PayloadsArriveInOrder`); and from every such state
  without fault the clients can finish the handshake and read the rest (`CallRuns.CallCanFinish`).

`dafny verify dfyconfig.toml` checks everything.

## How it is laid out

| file | content |
|---|---|
| `Basics.dfy` | bytes, options, limits |
| `Relay.dfy`, `NodeFacts.dfy` | one relay node as a value; each handler body is one atomic function from node to effect |
| `Answers.dfy` | what a node writes and keeps in answer to each message, by the positions of its pair |
| `RelayManager.dfy` | `RelayMsgManager` as the mutable object it is; every method performs exactly the effect `Relay` assigns to it |
| `NodeRuns.dfy` | every run of one node: index agreement, frame, the entry-as-relay swap |
| `CircuitSetup.dfy`, `SetupInvariant.dfy`, `SetupProbes.dfy`, `SetupTheorem.dfy` | set-up as a labelled transition system, its invariant, and what Success means |
| `SetupRuns.dfy` | concrete runs: hanging up, dialling oneself, the joint left behind, a quiet success |
| `SetupFormer.dfy` | the joint given up in a swap never announces |
| `SixPeers.dfy` | the full set-up of six peers, from nothing to both ends ready |
| `SetupNodes.dfy`, `SetupLine.dfy` | index, circuits and silence along set-up runs; the line at a Success as a chain that conserves and falls |
| `LineModel.dfy`, `Conservation.dfy`, `Delivery.dfy`, `Teardown.dfy` | a line of any length: routing, conservation of bytes, delivery of messages, teardown |
| `Announced.dfy` | what becomes of an announced Success, on any line and after any set-up run |
| `Flooding.dfy`, `SetupFlood.dfy` | teardown by Disconnect messages alone, on any line and on every line set-up reaches |
| `SecureStream.dfy`, `HostileReads.dfy`, `Framing.dfy` | secure byte stream between two ends, the same reader with any bytes arriving, payload framing |
| `Noise.dfy`, `Handshake.dfy`, `HandshakeKeys.dfy`, `SecureConn.dfy`, `SecureRuns.dfy` | XX handshake, its two ends, which secrets its keys are made of, one end against any peer, the table of secure connections on a node that goes on working |
| `ChatCodec.dfy`, `ChatFields.dfy`, `ChatMessage.dfy`, `MachineWords.dfy` | protobuf codec as functions, against a printer of the wire format, as the code that computes them, and the 64-bit word operations under it |
| `PeerChoice.dfy`, `ClientRegistry.dfy` | selection loops and client maps at the proxies |
| `EndToEnd.dfy`, `CallRuns.dfy` | set-up, line, handshake, secure stream and framing composed; what the clients can always bring about |

## Premises

* A SetSession exchange succeeds at both ends or at neither; it is one step of `CircuitSetup`.
* A stream is FIFO, is opened once under a new id and carries one session id; both ends know it by one id.
* During one set-up the nodes also perform any operation of other sessions that is fair in the sense of
  `NodeRuns.Fair`.
* Client registrations do not change during one set-up: the destination has one proxy.
* Success is handled in the order of its stream; in the code it has a goroutine of its own
  (`protocol/relay/relay.go:82-90`) and may be overtaken by later messages of the same stream.
* Handlers are atomic. Which writes fail is chosen freely: the parameter `bad` is the set of streams
  that refuse writes during a step.
* Closing a stream is noticed at both of its ends (`protocol/relay/relay.go:38-43`,
  `network/noise/notify.go:48-51`), in any order relative to what is still on the wires.
* `CircuitConn.Read` returns only when there is data. A `Read` of `SecureSession` that would have to
  wait is enabled once the whole frame has arrived.
* Lengths of Go slices are below 2^63; a length prefix added to an index does not wrap int64.
* Ciphers, Diffie-Hellman, hashes, signatures and the payload encoding are function values with the
  laws of `Aead.Lawful`, `Suite.Lawful` and `Identities.Lawful`; nothing is assumed about secrecy.
  Lawful ones are shown to exist. One's own identity payload fits a handshake message.
* In `EndToEnd`, the ends write to the circuit only through the handshake and the secure session, as
  the clients of `protocol/relay/secure_conn.go` do.

## What turned out not to hold

Each of these has a lemma with the failing case and the exact condition under which the property holds.

* Success does not imply a line when a peer closes between the last exchange and the announcement
  (`SetupRuns.HangingUpBreaksLine`), or when the caller dials itself (`SetupRuns.SelfDialBreaksLine`).
  The condition is in `SetupTheorem.SuccessMeansLine`.
* A peer off the line can still hold the session: the joint that the entry gave up when it became
  the relay too (`SetupRuns.SwapLeavesJointBehind`). Some peer off the route holds the session if and
  only if the entry swapped and that joint still has its half: `SetupTheorem.StrayIffLeftBehind`.
* A stream that is taken into a second session leaves the first one standing when it closes:
  `NodeRuns.SharedStreamLeaks`, condition `NodeRuns.Fair`. `SetSessionId` and `handleSetSession` do
  not check this.
* `Read` with a buffer that holds the plaintext but not the sealed frame leaves an exhausted queue,
  so the next `Read` returns 0 bytes without error: `SecureStream.SnugReadLeavesEmptyQueue` says
  exactly when, `NoTwoEmptyReads` that it cannot happen twice in a row.
* A payload is read back if and only if it is shorter than 2^32 bytes (`Framing.PayloadRoundTrip`).
* A message value is read back from its encoding if and only if its unknown bytes parse by
  themselves and its fields are shorter than 2^63 bytes (`ChatCodec.RoundTripIffNormal`).
* A scan does not always offer an eligible peer: `startIndex++` wraps when the random start is within
  the list's length of 2^63, and a negative index panics. `PeerChoice.LastStartCrashes` is a case with
  nobody excluded; `EligibleIsOffered` and `ScanOutcome` give the condition for each exclusion set,
  `SafeIff` and `SafeIffNeverCrashes` the starts that are safe for all of them.
* A secure connection, a caller's or an answer's, does not always belong to a circuit. Closing a
  circuit cancels its handshakes, and a select that sees this stores nothing
  (`SecureRuns.CancelledIsDropped`); but a result that was taken from the channel is stored without
  another look, so a close in between leaves it behind (`SecureRuns.LateOutcomeStays`, with a run
  from an empty node for either role in `LateRunExists`). Every secure connection of every state has
  its circuit in the table if and only if the circuit was there at every storing
  (`SecureRuns.RunTrusted`), as it is when nothing is closed between (`UndisturbedIsAttached`).
* A registered peer that registers a second identity leaves its first one taken for ever, even after
  it leaves: `ClientRegistry.SecondIdentityLeaks`, `StaleForever`, condition in `RunInverse`.

## Model

| member | source | states |
|---|---|---|
| `SetupTheorem.SuccessMeansLine` | protocol/relay/relay.go:209-239 | in any run, where Success is originated, the sessions form one simple caller-to-answer line iff caller and answer differ and no route peer dropped its session |
| `SetupTheorem.LineIffRoute` | protocol/proxy/proxy.go:350-483 | in any reachable state, a line exists iff the route is complete and kept at both ends of every exchange |
| `SetupTheorem.KeptRouteIsLine` | network/gossip/pubsub.go:176-301 | the four shapes of a kept route (one proxy, joint at the exit, entry as relay, six peers) are lines |
| `SetupTheorem.LineIsKeptRoute` | network/gossip/pubsub.go:176-301 | any line that exists uses exactly the exchanges of a kept route |
| `SetupTheorem.OriginMakesRoute` | protocol/command/command.go:91-158 | at each of the four sites, with a kept route, every exchange of the route has happened |
| `SetupTheorem.MatchMakesRoute` | protocol/relay/relay.go:216-239 | a matching second probe at the joint means the relay has joined |
| `SetupTheorem.RunKeeps` | protocol/relay/relay.go:97-275 | the set-up invariant holds in every state of every run |
| `SetupTheorem.StrayIffLeftBehind` | protocol/relay/relay.go:123-144 | in any reachable state with a complete route, some peer off it holds the session iff the entry swapped and the old joint still has its half |
| `SetupTheorem.OnlyTheLine` | protocol/relay/relay.go:123-144 | that peer is the joint given up in the swap, with exactly its stream to the entry, and its Disconnect is under way unless that write failed |
| `SetupRuns.HangingUpBreaksLine` | protocol/proxy/proxy.go:350-387 | a run in which Success is announced although there is no line |
| `SetupRuns.SelfDialBreaksLine` | protocol/proxy/proxy.go:350-387 | a run in which a caller dials itself: Success on a kept route, and no line |
| `SetupRuns.SwapLeavesJointBehind` | network/gossip/pubsub.go:219-301 | a run in which the exit picks the entry as relay: Success on a line while the old joint holds the session |
| `SetupFormer.MatchMeansNoSwap` | protocol/relay/relay.go:216-239 | in every run, a matching probe at a joint means there has been no swap: a joint given up never sees a second probe |
| `SetupFormer.StepFormer` | protocol/relay/relay.go:123-144 | every move keeps at most one probe on its way to a joint given up or kept there |
| `Announced.AnnouncementIsHeard` | protocol/relay/relay.go:226-234 | after every set-up run that originates Success on a route kept after it, the route is an open chain, and along every run of it with any traffic in which no arrival meets a failing write, Success is under way or heard in both directions; with nothing under way towards an end, its circuit is ready |
| `Announced.AnnouncementComes` | protocol/relay/manager.go:209-232 | right after the announcement, Success is under way in both directions along the route |
| `Announced.StepComes` | protocol/relay/relay.go:277-338 | every such step, of any node and message, keeps a Success under way in a direction, or its end ready |
| `Announced.LineHears` | protocol/relay/relay.go:277-338 | from an open line with only Data and Success, one in each direction, arrivals alone make both ends ready and leave nothing under way |
| `SixPeers.BothEndsReady` | protocol/relay/relay.go:209-253 | for any six different peers, session id and probe value: a run in which both probes arrive, the second makes the joint originate Success on the six-peer line, arrivals alone carry it to both ends, and there both circuits are ready on the same line with nothing under way |
| `SixPeers.BuildSix` | network/gossip/pubsub.go:176-301 | its first seven moves complete the six-peer route with nothing lost and nothing on the wires |
| `SetupInvariant.StepKeeps` | protocol/relay/manager.go:329-369 | every move of the set-up system keeps pairs, roles, links and history in agreement |
| `SetupProbes.StepKeepsAll` | protocol/relay/relay.go:209-253 | every move keeps the account of probes sent, stored and under way |
| `SetupNodes.StepNodes` | protocol/relay/manager.go:329-369 | every move keeps index agreement at every node and a circuit at each end that requested or answered |
| `SetupNodes.StepSilent` | protocol/relay/relay.go:277-338 | until an end writes, no Data is under way and no end has buffered any |
| `SetupLine.ReachedLineIsOpen` | protocol/relay/manager.go:156-169 | every line of every reachable state is an open chain and a start of the teardown model |
| `SetupLine.SuccessOpensChain` | protocol/relay/relay.go:209-239 | so is the route at a Success, before and after the announcement, if it is kept |
| `SetupFlood.StepWhispers` | protocol/relay/manager.go:261-296 | along every set-up move, a Disconnect is under way to a peer only from one that no longer has the stream |
| `SetupFlood.ReachedLineFloods` | protocol/relay/relay.go:255-275 | on every line of every reachable state, one close at any node and then arrivals only leave the session nowhere |
| `Answers.ClosingTells` | protocol/relay/manager.go:261-296 | closing tells Disconnect exactly once to each stream of the pair that accepts it, in pair order, forgets the session in all tables and closes its streams |
| `Answers.ClosingTellsBoth` | protocol/relay/manager.go:272-279 | with two streams that accept it: the first, then the second |
| `Answers.DisconnectTells` | protocol/relay/relay.go:255-275 | a Disconnect goes on to exactly the streams whose remote is not its sender; the session is forgotten |
| `Answers.DisconnectCrosses` | protocol/relay/manager.go:234-259 | in the middle of a line, to the other side only |
| `Answers.RelaySends` | protocol/relay/manager.go:209-232 | a node's own message goes to each stream of the pair once, in order; without a stream or with one that refuses, the circuit is closed |
| `Answers.FirstProbeIsStored` | protocol/relay/relay.go:221-225 | the joint stores a first probe and says nothing |
| `Answers.MatchingProbeAnnounces` | protocol/relay/relay.go:226-234 | a second one with the same value: Success to each stream of the pair, in order, and the node is unchanged |
| `Answers.OtherProbeCloses` | protocol/relay/relay.go:235-237 | with another value: session forgotten, Disconnect to the pair |
| `Answers.ProbePassesOn` | protocol/relay/relay.go:240-251 | a ready node that is not the joint writes the same probe once, to its other stream |
| `Answers.SuccessPassesOn` | protocol/relay/relay.go:325-336 | so does a node in between with Success |
| `Answers.DataPassesOn` | protocol/relay/relay.go:190-202 | so it does with Data, or closes and tells its pair when the write fails |
| `Answers.StrayDataCloses` | protocol/relay/relay.go:190-202 | Data on a stream that is not the pair's closes the circuit |
| `Answers.EndTakesIn` | protocol/relay/relay.go:277-338 | at an end with a circuit, Success makes it ready and Data goes behind what is buffered; nothing else changes, nothing is written |
| `Answers.StreamJoins` | protocol/relay/relay.go:97-167 | an accepted SetSession adds the stream behind the pair if there is room, takes the role if the session is new, indexes the stream, and gives an answer its circuit |
| `Answers.EntrySwaps` | protocol/relay/relay.go:123-144 | an entry asked to be the relay tells its second stream Disconnect, replaces it and takes it out of the index |
| `Answers.HalfEntryCloses` | protocol/relay/relay.go:123-144 | one without a second stream closes and refuses |
| `Answers.ClientRefuses` | protocol/relay/relay.go:103-116 | a client takes no role but the answer's, and stays as it was |
| `Answers.ClosedStreamTells` | protocol/relay/actor.go:70-76 | a closed stream's session is closed, its pair told, and the stream leaves the index |
| `RelayManager.AddToSession` | network/session/session.go:55-67 | the loop keeps a full pair as it is and otherwise the last two streams |
| `RelayManager.HasStream` | network/session/session.go:69-76 | found iff some stream of the pair has the id |
| `RelayManager.PartnerOf` | network/session/session.go:78-88 | the partner in a full pair, none otherwise |
| `RelayManager.RelayMsgManager.RemoveSession` | protocol/relay/manager.go:82-102 | drops the session's entries of all four tables and closes exactly its streams |
| `RelayManager.RelayMsgManager.SendDisconnectRelay` | protocol/relay/manager.go:261-282 | Disconnect to exactly the streams of the pair that accept it, once each and in order, skipping failures |
| `RelayManager.RelayMsgManager.CloseCircuit` | protocol/relay/manager.go:284-296 | exactly the streams that accept it are told Disconnect, in pair order; the session is in no table afterwards and its streams are closed |
| `RelayManager.RelayMsgManager.WriteRound` | protocol/relay/manager.go:224-231 | writes in order up to the first failure and reports it |
| `RelayManager.RelayMsgManager.Broadcast` | protocol/relay/manager.go:209-259 | SendRelay and ForwardRelay: any error closes the circuit |
| `RelayManager.RelayMsgManager.CompleteSetSession` | protocol/relay/manager.go:329-369 | the requester's half after a positive ack, for any stream id |
| `RelayManager.RelayMsgManager.HandleSetSession` | protocol/relay/relay.go:97-167 | the whole effect, and the ack sent back |
| `RelayManager.RelayMsgManager.Swap` | protocol/relay/relay.go:123-144 | the in-place replacement of the second stream |
| `RelayManager.RelayMsgManager.HandleData` | protocol/relay/relay.go:169-207 | buffer at an end, pass on in between, close on error |
| `RelayManager.RelayMsgManager.HandleProbe` | protocol/relay/relay.go:209-253 | store, announce or close at the joint, pass on elsewhere; on a match it writes Success to every stream of the pair, in order |
| `RelayManager.RelayMsgManager.HandleDisconnect` | protocol/relay/relay.go:255-275 | told to exactly the streams that do not lead to the sender, then removed |
| `RelayManager.RelayMsgManager.HandleSuccess` | protocol/relay/relay.go:277-338 | an end's circuit becomes ready, others pass it on |
| `RelayManager.RelayMsgManager.Inbound` | protocol/relay/relay.go:27-95 | the dispatch performs exactly the handler's effect |
| `RelayManager.RelayMsgManager.HandleStreamClosed` | protocol/relay/actor.go:70-76 | closes the circuit of a bound stream and forgets the stream |
| `RelayManager.ReadConn` | protocol/relay/connection.go:37-102 | what is returned and what stays are together the old buffer, whether or not the connection is still in the table |
| `RelayManager.RelayMsgManager.ReadCircuit` | protocol/relay/connection.go:100-102 | the same on the session's own circuit, as one step of the node |
| `RelayManager.RelayMsgManager.WriteCircuit` | protocol/relay/connection.go:104-108 | one Data message; the count ignores the error |
| `RelayManager.RelayMsgManager.NewSecureConn` | protocol/relay/secure_conn.go:8-39 | an existing entry stays; otherwise it succeeds iff the handshake on the given circuit finished uncancelled, and stores exactly its outcome |
| `NodeRuns.RunAgrees` | protocol/relay/manager.go:156-169 | over every run: table and index agree in all states iff every operation was fair |
| `NodeRuns.StepAgrees` | protocol/relay/manager.go:82-102 | one operation keeps the agreement iff it is fair |
| `NodeRuns.SetSessionAgrees` | protocol/relay/relay.go:97-167 | SetSession keeps it iff the stream serves no other session and this one once |
| `NodeRuns.CompletesAgrees` | protocol/relay/manager.go:353-364 | the requester's half keeps it iff the stream is indexed and serves no other session |
| `NodeRuns.OneSession` | protocol/relay/manager.go:163-169 | no stream is in two sessions |
| `NodeRuns.ClosingRemovesOne` | protocol/relay/actor.go:70-76 | closing any stream of a live session removes exactly that session |
| `NodeRuns.SharedStreamLeaks` | protocol/relay/relay.go:152-159 | a shared stream breaks the agreement and outlives its closing |
| `NodeRuns.StepFrame` | protocol/relay/manager.go:284-296 | no operation touches entries of another session |
| `NodeRuns.SwapKeepsCaller` | protocol/relay/relay.go:123-144 | slot 0, role, two streams and agreement kept; Disconnect to the old joint only; its stream leaves the index |
| `NodeFacts.DisconnectFacts` | protocol/relay/relay.go:255-275 | whoever gets Disconnect, the old joint included, is left without session and probe, and writes only to its own pair |
| `NodeRuns.SwapLetsGo` | protocol/relay/relay.go:133-138 | after a swap the old joint stream is not indexed under the session |
| `NodeRuns.FormerStreamIsHarmless` | protocol/relay/manager.go:201-203 | along any later run that does not bind it to the session again, the closing of that stream spares the session, its circuit and its secure connection |
| `Conservation.PatternInvolution` | network/session/session.go:78-88 | GetPattern is its own inverse and never answers the stream asked about |
| `Conservation.RoutesOnward` | protocol/relay/relay.go:190-202 | a node in between passes Data on once, unchanged, in the same direction, or closes |
| `Conservation.EndReceives` | protocol/relay/relay.go:181-188 | an end buffers Data and sends nothing, ready or not |
| `Conservation.StepConserves` | protocol/relay/connection.go:104-116 | every step on an open line keeps sent = read + buffered + in flight |
| `Conservation.RunConserves` | protocol/relay/manager.go:209-232 | the same along whole runs, any number of hops, both directions |
| `Conservation.ReadIsPrefixOfWritten` | protocol/relay/connection.go:100-116 | nothing is read that was not written, or out of order |
| `Conservation.DeliveredOnce` | protocol/relay/relay.go:169-207 | a Data message alone on its direction reaches the far end, and no other node or wire changes |
| `Delivery.StepTransit` | protocol/relay/relay.go:190-202 | amid any traffic, a step adds a written message behind all others, or moves one message over one link in its place, or moves none |
| `Delivery.DeliveredEachOnce` | protocol/relay/relay.go:169-207 | along any run, messages arrive in the order written, unchanged and each once; n messages take h crossings each on h links |
| `Delivery.LineDrains` | protocol/relay/relay.go:190-202 | on an open line of any length with only Data and Success in a direction, arrivals alone bring every payload to the far buffer |
| `Teardown.HandleSettles` | protocol/relay/relay.go:169-338 | a handler keeps the session silently or passing on, or drops every trace and closes its streams |
| `Teardown.StepFalls` | protocol/relay/relay.go:255-275 | every event keeps the invariant of a falling line, decreases its measure up to a price per write and per finished handshake, and touches no other session |
| `Teardown.FloodingClears` | protocol/relay/manager.go:234-296 | with live ends writing and handshakes finishing, any run is bounded by the measure of its start plus the price of these; settled with one node down, all are cleared |
| `Teardown.ClosingClears` | protocol/relay/manager.go:284-296 | a settled run in which any node closed has the session, circuit, secure and probe entries nowhere |
| `Teardown.ClosedStaysDown` | protocol/relay/manager.go:82-102 | a node that closed never regains the session |
| `Teardown.UnsettledGoesOn` | protocol/relay/actor.go:70-76 | while messages or notices remain, some event is enabled |
| `Flooding.StepFloods` | protocol/relay/relay.go:255-275 | without failed writes and losses, every event keeps a Disconnect under way from each node that went to each neighbour that has not |
| `Flooding.DisconnectsSuffice` | protocol/relay/manager.go:261-296 | on an open line of any length, with any closes, writes and arrivals and no notice handled, runs are bounded, and once nothing is under way every node has cleared the session |
| `Flooding.CloseAndArrive` | protocol/relay/manager.go:261-296 | from any such line and any node: one close, then arrivals only, to a state with the session nowhere |
| `Teardown.OpenFalls` | protocol/relay/manager.go:156-169 | an open line with indexed streams is a start of these runs |
| `SecureStream.ReadsArePrefixOfWrites` | secure/rw.go:15-99 | for all writes, deliveries and buffer sizes, reads succeed and are a prefix of writes |
| `SecureStream.StepKeeps` | secure/rw.go:15-99 | each step keeps the two ends joined by one byte queue |
| `SecureStream.FirstFrame` | secure/rw.go:101-113 | the first complete frame in the buffer is the first chunk not yet read |
| `SecureStream.ReadKeeps` | secure/rw.go:19-58 | a ready Read takes from the front of the queue, at most the buffer's size |
| `SecureStream.WriteKeeps` | secure/rw.go:79-97 | writing appends its chunks to the queue |
| `SecureStream.InStepAtBoundary` | secure/crypto.go:7-19 | with nothing under way the counters are equal and all is read or queued |
| `SecureStream.NeverAhead` | secure/crypto.go:7-19 | the receiver's counter never passes the sender's |
| `SecureStream.UnreadMeansReady` | secure/rw.go:19-58 | once all has arrived, unread data never makes Read wait |
| `SecureStream.EmptyReadIff` | secure/rw.go:19-28 | a Read with room returns nothing iff an exhausted queue was left |
| `SecureStream.NoTwoEmptyReads` | secure/rw.go:19-58 | two such Reads in a row do not both return nothing |
| `SecureStream.SnugReadLeavesEmptyQueue` | secure/rw.go:45-58 | when an exhausted queue arises, exactly |
| `SecureStream.Chunks` | secure/rw.go:79-83 | the cut loses nothing and no chunk is empty or too long |
| `SecureStream.SecureSession.Read` | secure/rw.go:15-59 | with nothing queued it succeeds iff a cipher is there and a whole frame that it accepts; what is returned and what stays queued are then its plaintext; otherwise no byte is returned or queued |
| `SecureStream.ReadAuthenticates` | secure/rw.go:30-58 | for any receiver and any bytes: success iff the front frame opens under the current key and counter; exactly that frame is used up and the counter goes up by one |
| `SecureStream.QueueServesFirst` | secure/rw.go:19-28 | with a queue, Read takes from its front and touches neither cipher nor bytes |
| `SecureStream.FrameStands` | secure/rw.go:79-97 | frame i is the two-byte length, high byte first, and chunk i sealed under the i-th next counter |
| `SecureStream.ChunksAreFull` | secure/rw.go:79-83 | every chunk but the last is as long as a frame can carry |
| `HostileReads.StepWatches` | secure/rw.go:15-59 | an arrival of any bytes or a Read of any size keeps the account of accepted frames |
| `HostileReads.OnlyAcceptedIsRead` | secure/crypto.go:14-18 | over runs with arbitrary bytes arriving, what was read is a prefix of the plaintexts of the accepted frames in arrival order, each standing in what arrived behind its length, disjoint, opened under the session key and a counter of its own |
| `SecureStream.SecureSession.Write` | secure/rw.go:61-99 | frames of the chunks under successive counters, up to a failed write; the count returned |
| `SecureStream.SecureSession.Seal` | secure/rw.go:71-90 | the frame fits the pooled buffer and carries its length |
| `Framing.PayloadLayout` | secure/message.go:13-31 | four bytes of length, the highest first, then the payload |
| `Framing.PayloadRoundTrip` | secure/message.go:13-47 | read back, with the rest untouched, iff shorter than 2^32 |
| `Framing.PrefixParsesToPrefix` | secure/message.go:33-47 | any prefix of an encoded list parses to a prefix of the list |
| `Framing.ReadFull` | secure/message.go:33-46 | over any splitting of the bytes the buffer is filled iff there are enough |
| `Framing.ReadPayload` | secure/message.go:33-47 | returns the payload the bytes start with, or fails |
| `Framing.ReadPayloads` | secure/message.go:13-47 | a list of payloads comes back over any splitting |
| `Framing.ReadFullSecure` | secure/rw.go:19-58 | ReadFull over SecureSession ends and returns the next bytes written, with deliveries in between in any portions |
| `Framing.ReadPayloadSecure` | secure/message.go:33-47 | ReadPayload over SecureSession returns the payload the unread bytes start with, wherever they are |
| `Noise.TokensKeepStep` | secure/handshake.go:107-145 | whatever tokens a peer in step writes, reading them succeeds and keeps both in step |
| `Noise.MessageKeepsStep` | secure/handshake.go:107-145 | a written message is read back with its payload; states and keys stay matched |
| `Handshake.SendKeeps` | secure/handshake.go:107-124 | in its turn a party can send, and the other will read it in step |
| `Handshake.ReadKeeps` | secure/handshake.go:126-145 | reading brings the parties level, or the caller finds a wrong identity |
| `Handshake.StepKeeps` | secure/handshake.go:48-92 | every move of either party keeps the invariant |
| `Handshake.NeverStuck` | secure/handshake.go:48-92 | some move is enabled unless both are done or one has failed |
| `Handshake.OneAtATime` | secure/handshake.go:48-92 | turns are strict and at most one message is under way |
| `Handshake.MovesAdvance` | secure/handshake.go:48-92 | every move uses up one of at most six |
| `Handshake.StageTurns` | secure/handshake.go:48-92 | with the right peer dialled and no write failing, all six moves succeed, in one order |
| `Handshake.HandshakeAgrees` | secure/handshake.go:23-145 | no cipher before the third message, failed or not; both done means matching ciphers, equal counters, verified identities, the dialled peer |
| `Handshake.DoneFacts` | secure/handshake.go:48-92 | the answer is done only after the caller; while only the caller is, exactly the third message is under way |
| `Handshake.MessageFits` | secure/handshake.go:107-124 | every message written fits the two-byte length in front of it |
| `SecureConn.FinishedIsVerified` | secure/handshake.go:168-200 | whatever arrives, a finished handshake has verified the remote identity for this static key |
| `SecureConn.Session.SetCipherStates` | secure/handshake.go:97-105 | which cipher goes which way |
| `SecureConn.Session.SendHandshakeMessage` | secure/handshake.go:107-124 | state after a send, on every outcome |
| `SecureConn.Session.ReadHandshakeMessage` | secure/handshake.go:126-145 | ciphers are set before the third payload is checked |
| `SecureConn.Session.HandleRemoteHandshakePayload` | secure/handshake.go:168-200 | the checks in order, and what is kept |
| `SecureConn.Session.RunHandshake` | secure/handshake.go:23-95 | both branches, with early returns, reach the end of `RunAlone`, whose keys `HandshakeKeys.FinishedHasMixed` gives |
| `HandshakeKeys.FinishedHasMixed` | secure/handshake.go:23-105 | against any peer: a finished end's chaining key is the three mixes, in the order of XX, of its own two secrets with the peer's ephemeral and static keys it holds, and its ciphers are the two halves of it |
| `HandshakeKeys.HonestHandshakeBytes` | secure/handshake.go:23-145 | between honest ends every message under way is, byte by byte, the one the script gives; when both are done, hash and chaining key agree, the key is dh(caller eph, answer eph), dh(caller eph, answer static), dh(caller static, answer eph) mixed in turn, and each direction has its half |
| `SecureConn.NewSecureSession` | secure/session.go:53-81 | an entry iff the handshake finished and the select did not see the context cancelled |
| `SecureConn.OutcomeIsAuthentic` | protocol/relay/secure_conn.go:8-39 | what is stored has a verified signature and, for a caller, the dialled peer id |
| `SecureRuns.StepEntries` | protocol/relay/secure_conn.go:8-39 | a move of the node or of a handshake drops entries or stores one taken result |
| `SecureRuns.StepAttached` | protocol/relay/manager.go:82-102 | a move keeps every entry on a circuit iff it does not store after the circuit went |
| `SecureRuns.RunTrusted` | protocol/relay/secure_conn.go:8-39 | in every state of every run all entries are authentic and a caller's are for an identity it dialled in that session; all, answers' too, have their circuit iff it was there at every storing |
| `SecureRuns.UndisturbedIsAttached` | secure/session.go:69-80 | if no circuit is cancelled between a result and its storing, every entry always has its circuit |
| `SecureRuns.CancelledIsDropped` | secure/session.go:76-79 | a handshake whose select sees the closed circuit stores nothing |
| `SecureRuns.LateOutcomeStays` | protocol/relay/secure_conn.go:19-36 | at any node, for any result of a handshake there: taken, then closed, then stored, it stays without session and circuit |
| `SecureRuns.HonestOutcomes` | secure/handshake.go:23-95 | honest ends both have such a result |
| `SecureRuns.LateRunExists` | protocol/relay/secure_conn.go:19-36 | the whole run from an empty node, as caller and as answer |
| `ChatCodec.NormalForm` | cmd/pb/chat.pb.go:153-263 | whatever bytes parse to m, marshalling m and parsing again gives m, unknown fields included |
| `ChatCodec.RoundTripIffNormal` | cmd/pb/chat.pb.go:91-112 | a message value is read back iff its unknown bytes parse alone and its lengths fit |
| `ChatCodec.ParseConcat` | cmd/pb/chat.pb.go:153-263 | parsing a + b is parsing b from the result of a |
| `ChatCodec.ParseFieldLocal` | cmd/pb/chat.pb.go:153-263 | a field's parse depends only on the bytes it consumes |
| `ChatCodec.SkipLocal` | cmd/pb/chat.pb.go:264-362 | so does skipping, nested groups included |
| `ChatCodec.SkippedIsUnknown` | cmd/pb/chat.pb.go:241-255 | a retained unknown field parses as itself |
| `ChatCodec.FieldRoundTrip` | cmd/pb/chat.pb.go:96-107 | a printed field is parsed as that field |
| `ChatCodec.VarintRoundTrip` | cmd/pb/chat.pb.go:114-122 | a 64-bit value is decoded from its encoding, what follows unread |
| `ChatCodec.VarintSizeLeast` | cmd/pb/chat.pb.go:140-149 | the size is the least n with v < 128^n |
| `ChatCodec.SkipField` | cmd/pb/chat.pb.go:264-362 | ends on every input and consumes at least one byte; `ChatFields.SkipsPrinted` says how many |
| `ChatFields.SkipsPrinted` | cmd/pb/chat.pb.go:264-362 | for every field of every wire type, groups nested to any depth, and whatever follows: exactly its printed length is skipped |
| `ChatFields.SkipsNoCut` | cmd/pb/chat.pb.go:264-362 | a field whose end is missing is never skipped |
| `ChatFields.ParsesFields` | cmd/pb/chat.pb.go:153-263 | a list of printed fields sets PeerID and Data to the last of their values and keeps exactly the others, in order |
| `ChatFields.AcceptsFieldsIff` | cmd/pb/chat.pb.go:174-213 | it is accepted iff its fields 1 and 2 are length-delimited; otherwise the error is the wrong wire type |
| `ChatFields.TruncatedIsRejected` | cmd/pb/chat.pb.go:153-263 | cut within its last field it is rejected as unexpected end, with the whole fields before it taken |
| `ChatFields.StrayTags` | cmd/pb/chat.pb.go:167-180 | an end-group tag, an illegal wire type and field number 0, each with its error |
| `ChatFields.MarshalPrints` | cmd/pb/chat.pb.go:91-112 | Marshal prints PeerID as field 1, Data as field 2, empty ones left out, then the retained bytes |
| `ChatFields.VarintDigits` | cmd/pb/chat.pb.go:114-122 | byte i of a varint is digit i to the base 128, marked on all but the last |
| `ChatCodec.SkipNeverPanics` | cmd/pb/chat.pb.go:264-362 | the final panic is reached only on empty input, never from recursion |
| `ChatCodec.ParseNeverPanics` | cmd/pb/chat.pb.go:153-263 | Unmarshal never reaches that panic |
| `ChatMessage.EncodeVarintChat` | cmd/pb/chat.pb.go:114-122 | writes exactly the varint at the offset and nothing else |
| `ChatMessage.SovChat` | cmd/pb/chat.pb.go:140-149 | least n, between 1 and 10, equal to what is written |
| `ChatMessage.ReadVarint` | cmd/pb/chat.pb.go:187-200 | the or and shift loop on a 64-bit word computes the decoded varint or its error |
| `MachineWords.LoopTurn` | cmd/pb/chat.pb.go:194-196 | one turn: the word is the sum modulo 2^64, and no bit of it is in the way of the next |
| `MachineWords.OrStep` | cmd/pb/chat.pb.go:194-196 | or-ing in seven shifted bits that meet no set bit adds them modulo 2^64 |
| `MachineWords.ShiftAndMask` | cmd/pb/chat.pb.go:114-122 | the encoder's shift and mask are quotient and remainder by 128 |
| `MachineWords.ContinuationByte` | cmd/pb/chat.pb.go:114-122 | or-ing in the continuation bit adds 128 |
| `ChatMessage.SkipChat` | cmd/pb/chat.pb.go:264-362 | the recursive skipper computes `SkipField`, so on every printed field its length |
| `ChatMessage.SkipChatGroup` | cmd/pb/chat.pb.go:323-351 | the loop over a group's fields |
| `ChatMessage.Message.Size` | cmd/pb/chat.pb.go:123-138 | the length of the encoding |
| `ChatMessage.Message.MarshalTo` | cmd/pb/chat.pb.go:91-112 | exactly Size() bytes, inside the buffer, nothing behind them touched |
| `ChatMessage.Message.MarshalBytes` | cmd/pb/chat.pb.go:81-89 | the encoding |
| `ChatMessage.Message.UnmarshalField` | cmd/pb/chat.pb.go:156-256 | one turn of the loop, every error included |
| `ChatMessage.Message.Unmarshal` | cmd/pb/chat.pb.go:153-263 | the parse outcome; on error the fields set so far |
| `PeerChoice.ScanPeers` | protocol/proxy/proxy.go:401-413 | the first peer around the circle that is not excluded, wrap-around included |
| `PeerChoice.SafeIff` | protocol/proxy/proxy.go:401-405 | which starting points never meet a negative index |
| `PeerChoice.PanicsIff` | network/gossip/pubsub.go:225-229 | for every exclusion set, a scan panics iff some turn has a negative index and every earlier peer is excluded |
| `PeerChoice.ScanOutcome` | network/gossip/pubsub.go:225-234 | so it panics iff that, and otherwise offers an eligible peer iff there is one |
| `PeerChoice.EligibleIsOffered` | network/gossip/pubsub.go:225-234 | while a peer is eligible, one is offered iff the scan does not meet a negative index first |
| `PeerChoice.LastStartCrashes` | protocol/proxy/proxy.go:401-405 | a start with which a list of three panics although nobody is excluded |
| `PeerChoice.SafeIffNeverCrashes` | protocol/proxy/proxy.go:401-405 | the safe starts are those that panic for no exclusion set |
| `PeerChoice.ScanIsComplete` | network/gossip/pubsub.go:225-234 | a safe scan offers an eligible peer iff there is one |
| `PeerChoice.ChoosePeer` | protocol/proxy/proxy.go:389-431 | for all starts: every offer is new and eligible while one is left, else the previous again; ends at the first peer that accepts, or at the first attempt that panics |
| `PeerChoice.OffersAreDistinct` | network/gossip/pubsub.go:219-255 | offers are pairwise distinct while eligible peers remain |
| `ClientRegistry.RunInverse` | protocol/proxy/proxy.go:94-116 | over every run identities look up their own peer, and the maps are inverse iff no registered peer took a second identity |
| `ClientRegistry.StepInverse` | protocol/proxy/proxy.go:191-228 | the same for one step |
| `ClientRegistry.NoSharedHash` | protocol/proxy/proxy.go:94-97 | two peers never share an identity hash |
| `ClientRegistry.LeavingSparesOthers` | protocol/proxy/proxy.go:99-108 | removing a peer removes no other peer's lookup |
| `ClientRegistry.LeavingFrees` | protocol/proxy/proxy.go:99-108 | a peer that leaves, the last one too, is not recorded any more, and exactly its own identity becomes free in addition: anyone can register it |
| `ClientRegistry.StaleForever` | protocol/proxy/proxy.go:99-108 | a stale lookup is never repaired |
| `ClientRegistry.SecondIdentityLeaks` | protocol/proxy/proxy.go:191-228 | the case in which the maps come apart |
| `ClientRegistry.ProxyManager.RemoveClient` | protocol/proxy/proxy.go:99-108 | both maps after a removal, invariant kept |
| `ClientRegistry.ProxyManager.NewProxy` | protocol/proxy/proxy.go:191-228 | refused iff the identity is taken, invariant kept |
| `EndToEnd.CallHasChain` | protocol/relay/relay.go:209-239 | after a Success on a kept route, and no write before, the route is an open chain with nothing buffered or under way |
| `EndToEnd.StepKeepsInv` | secure/handshake.go:107-145 | handshake messages and frames share the line's byte stream; each step keeps both directions in order, the caller's early frames behind its third message included |
| `EndToEnd.CallKeeps` | secure/session.go:53-81 | that holds in the last state of every call |
| `EndToEnd.ClientsTalkInOrder` | secure/rw.go:15-99 | from set-up run, Success and kept route through handshake and any client run: both plaintexts read are prefixes of those written, equal when nothing is left between; with all arrived, a reader that lacks something need not wait; both done means the caller talks to the identity it dialled |
| `EndToEnd.PayloadsArriveInOrder` | secure/message.go:13-47 | and the payloads read are a prefix of the list sent, all of it once all bytes are read |
| `CallRuns.CanFinish` | secure/session.go:53-81 | from every faultless state on a line with only Data and Success, the clients can finish the handshake and read all that was written, both ways |
| `CallRuns.CallCanFinish` | secure/rw.go:15-99 | so every such call can be continued to its end |
| `CallRuns.CallExists` | protocol/relay/relay.go:277-338 | for all lawful functions and every plaintext: a call with set-up, three handshake messages, and the plaintext written and read |

## Left out

- libp2p hosts, DHT, pubsub, msgio and the actor runtime: FIFO streams, free choice of peers and atomic steps stand for them.
- Keys, ECIES, SHA-256, base58 and identity strings (`crypto/`): function values with stated laws.
- The generated messages of `internal/pb`: datatypes.
- Timeouts and event-bus wake-ups (`protocol/relay/connection.go:40-52`), and races of acks (`protocol/ack/ack.go:72-82`).
- The error text after a failed joint selection (`protocol/proxy/proxy.go:436`): the model stops at the close request before it.
- `ReqAddSessionID` and the second `handleProbe` (`protocol/relay/manager.go:136-154`): nothing calls them.
- Negotiation encryption and decryption, account storage, configuration, command line, SDK, peer-list conversion and truncation: no deep property.
- RelayManager.RelayMsgManager.HandleSuccess: marks the circuit ready; the handshake it starts in a goroutine is `Begins` and the moves after it in SecureRuns.
- SecureStream.ReadsArePrefixOfWrites: counters are unbounded, so exhaustion of the 2^64 nonces is not modelled, and a Read that times out in the middle of a frame is outside the runs it speaks about.
- ChatCodec.SkipField: index plus length is unbounded; an int64 wrap would turn UnexpectedEof into InvalidLength or an index panic, never into a success.
- ChatCodec.NormalForm: compares fields as byte sequences, so nil and empty slices are one value.
- PeerChoice.ChoosePeer: peers whose hash is the destination, the caller, the joint and the node itself are the set `excluded`; how it is computed is not modelled.
- RelayManager.RelayMsgManager.ReadCircuit: connections and sessions are held in the maps by value; `ReadConn` covers a `*CircuitConn` that outlives its entry, but two goroutines sharing one is not captured.
- Handshake.HandshakeAgrees: both parties are honest; `SecureConn.FinishedIsVerified` is the statement against any peer. The handshake timeout is not modelled.
- EndToEnd.ClientsTalkInOrder: while the line stays open; what a closing line still delivers is not stated. Both ends are honest.
- ChatMessage.EncodeVarintChat: is written with quotient and remainder; `MachineWords.ShiftAndMask` and `ContinuationByte` are the word operations it stands for.
- Flooding.DisconnectsSuffice: the line starts without a Disconnect under way, which `SetupFlood.ReachedLineFloods` proves of every line that set-up reaches; with failed writes the notices are needed, see `Teardown.FloodingClears`.
- SixPeers.BothEndsReady: is one run for each choice of peers, session id and probe; streams get fixed ids.
- HandshakeKeys.HonestHandshakeBytes: the chaining key starts from the empty string in place of the protocol name.
- Teardown.FloodingClears: handshakes finish at nodes that still have the session; one stored in the race after it was dropped is the subject of `SecureRuns.LateOutcomeStays`.
- SecureRuns.RunTrusted: which branch a select takes when both are ready is free, so a cancelled result may be taken; two circuits dialled one after the other for one session and identity are not told apart.
- Conservation.DeliveredOnce: is about a message alone on its direction; `Delivery.DeliveredEachOnce` is the statement amid other traffic.
