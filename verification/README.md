# WhiteNoise circuits, verified

A WhiteNoise circuit is a chain of per-node sessions: the calling client, an entry node, a sink, a
relay, an access node and the answering client, each holding up to two streams. The chain is built
hop by hop by four tasks at four places, two probes meet at the sink, a Success travels both ways,
and the two clients run a Noise XX handshake through the chain. Roles may coincide, and each overlap
has its own path through the code; when the entry node is also chosen as relay, a live session is
rewired. This project models that protocol and the node-local machinery it rests on, and proves what
the design relies on.

## How the model is built

* `Protocol`, `RelayLogic`: the entries a node keeps for one session id (a slot: session, circuit,
  probe) and what each relay handler does to a slot.
* `RelayNode`: the node as a class whose fields are the source's maps. Its methods are the handlers,
  in the source's form; each states its result outright and in terms of the slot-level functions, on
  which the rest of the project builds; the read loop is proved against the
  specification of a whole series of reads.
* `Network`: all nodes, streams and tasks as one step relation. A stream has two ends, each with an
  inbox, an error flag and a reader task. The unread messages of an end are a multiset, because every
  read is handed over by its own spawned task. Ids, nodes and sessions are unbounded; a node may
  close and a stream may fail at any moment. `NodeRefinement` shows that the class's turns are this
  relation's deliveries and read errors.
* `CircuitTasks`: the four tasks that build a circuit as methods on the node; `TaskRefinement`: every
  step of these tasks in the network is the task's own work between two waits.
* `Isolation`, `Establishment`, `EstablishmentRelay`, `SuccessOnce`, `CircuitPath`: the invariants of
  every run, up to the moment of the Success.
* `Chain`, `Conservation`, `EndToEnd`: traffic on a circuit of any length, and on the circuits that
  runs from the empty network reach; `Witness` gives such a run, step by step, for each overlap of roles.
* `Teardown`: how damage anywhere brings the whole circuit down; `ReadErrors`: exactly which nodes a
  closing takes down, also while the circuit is still being built.
* `Handshake`: the handshake over a circuit of any length with in-order hand-off; `HandshakeOnCircuit`:
  its steps are deliveries and sends on the circuits of the network.
* `Registrar`, `EventBus`, `StreamQueue`, `PeerSelection`, `StreamPump`, `Framing`, `RelaySize`, with
  `Peers`: the node-local machinery and the wire arithmetic.

Assumptions: one handler's work on one session is one atomic step (the source takes separate locks
for reading and writing); stream ids are unique, here the index of the stream; the hash of a session
id and of a key is injective; nodes follow the code; the registration of the answering client does
not change while its circuit is built; a node does not open a stream to itself. `broken` in the
network's state marks the session ids for which some node gave up, a client closed, or a stream
failed; the construction results speak of the others, the teardown results of all.

`dafny verify dfyconfig.toml` checks the whole project.

## Model

| member | source | states |
|---|---|---|
| RelayNode.Node.HandleCloseSession | src/network/node.rs:209-222 | closing removes the session, circuit and probe entries of exactly one session id and closes the streams the session held, early one first |
| RelayNode.Node.AttachStream | src/network/node.rs:310-325 | an acknowledged stream becomes the first stream of a new session or replaces the later stream of the existing one; no other entry changes |
| RelayNode.Node.HandleRelayProbe | src/network/relay_event_handler.rs:82-117 | a sink stores the first probe, answers an equal one with a Success both ways and closes on a different one; any other ready node passes it on |
| RelayNode.Node.HandleSuccess | src/network/relay_event_handler.rs:119-158 | a Success starts the handshake at a client with a circuit entry and is passed on by a ready node, changing no table |
| RelayNode.Node.HandleRelayMsg | src/network/relay_event_handler.rs:262-290 | data reaches the channel of a client's circuit, or leaves unchanged on the other stream of a ready session |
| RelayNode.Node.HandleSetSession | src/network/relay_event_handler.rs:292-339 | the session takes the stream and the request is acknowledged; an entry node asked to relay replaces and closes its later stream if ready, and closes the session if not |
| RelayNode.Node.AddCircuitConn | src/network/relay_event_handler.rs:341-352 | an answering client gets a circuit entry for the stream unless it has one |
| RelayNode.Node.FinishHandshake | src/network/relay_event_handler.rs:198-202 | a finished handshake leaves a circuit entry for the session id, also when there was none any more |
| RelayNode.Node.HandleReadError | src/network/relay_event_handler.rs:20-47 | a read error closes the session if and only if the session still holds that stream |
| RelayNode.Node.ForwardRelay | src/network/utils.rs:342-348 | a message leaves on the other stream than the one it came on, and on none if the session does not hold that one |
| RelayNode.Node.SendRelayTwoway | src/network/utils.rs:350-357 | the message is queued on each stream the session has |
| RelayNode.Node.RelayEventHandler | src/network/relay_event_handler.rs:18-80 | the read loop over any series of reads leaves the tables and queues that the specification of the series says, and stops where it says |
| RelayNode.LoopOne | src/network/relay_event_handler.rs:48-80 | the series of one read is one turn, and nothing once the loop has stopped |
| RelayNode.LoopThen | src/network/relay_event_handler.rs:18-80 | reading two series in a row is reading the first and then the second |
| CircuitTasks.Dial | src/network/node.rs:257-282 | with an acknowledged stream the caller gets a session and a circuit entry for it, and asks for the circuit next; without one nothing changes and it asks for nothing |
| CircuitTasks.HandleNewCircuit | src/network/proxy_event_handler.rs:182-322 | the request is granted if and only if the caller is known, its session is half-open, and the answering client's stream (if it is registered here) or some attempt opened; then the session keeps its early stream, takes as its later one that stream or the first that opened, and the Success or the probe goes to both sides; the session is given up, its streams closed, exactly when all attempts of a known caller with a half-open session fail, and every other refusal changes nothing |
| CircuitTasks.ProcessPublishRequest | src/network/publish_event_handler.rs:53-159 | without a stream to the client everything is closed; as the sink the node tells both sides Success; otherwise the first stream that opened joins the client's, and the probe goes both ways if the relay answered yes; when all attempts fail, or it answered no, all entries go and both streams are closed |
| CircuitTasks.ProcessCmdRequest | src/network/cmd_event_handler.rs:16-67 | the answer is yes if and only if there is a session and it is ready or the stream to the sink opened; a ready session sends one Success on each stream and stays as it was, a half-open one takes the stream and sends nothing; answered no, nothing is left of the session |
| TaskRefinement.StepRefines | src/network/proxy_event_handler.rs:182-322 | every step of the four tasks, whatever the state of the network, is the task's own work on its node's slot and streams; beside it the step only records how far the task is, opens a stream or starts to read an acknowledged one, and notes a give-up |
| TaskRefinement.EntryTaskRefines | src/network/proxy_event_handler.rs:262-322 | after any number of attempts that timed out, from the acknowledgement of the sink's stream on, the network's steps at the entry node add up to the request of `HandleNewCircuit` |
| TaskRefinement.AccessTaskRefines | src/network/publish_event_handler.rs:139-159 | after any number of attempts that timed out, the relay's answer completes the gossip task at the access node as `ProcessPublishRequest` does, granted or refused |
| TaskRefinement.HereRefines | src/network/proxy_event_handler.rs:206-232 | an answering client registered at the entry node itself: taking the stream to it is the granted request |
| TaskRefinement.GiveUpsRefine | src/network/proxy_event_handler.rs:237-276 | when every attempt has timed out, giving up is what the tasks at the entry and at the access node make of it |
| TaskRefinement.RepliesRefine | src/network/cmd_event_handler.rs:16-67 | the relay node's work on the command, taking the stream to the sink included, and the answer the access node gets are those of `ProcessCmdRequest`: yes exactly with a session that is ready or has got the stream |
| NodeRefinement.TurnRefinesDeliver | src/network/relay_event_handler.rs:48-80 | one turn of a node's read loop on that node's tables, its effects performed one by one, is the delivery step of the network |
| NodeRefinement.TurnRefinesFault | src/network/relay_event_handler.rs:20-47 | likewise for a read error |
| Isolation.StepIsolated | src/network/relay_event_handler.rs:18-80 | every step, breakdowns included, keeps all table entries referring to streams of their own session id and node, and changes nothing of any other session id |
| Isolation.RunIsolated | src/network/node.rs:209-222 | a run that never works for a session id leaves its sessions, circuits, probes, streams, tasks and history as they were |
| Isolation.StreamServesOneSession | src/network/protocols/relay_behaviour.rs:123-139 | a stream end sits in the session of one session id at one node only |
| Isolation.NoUnwrapFails | src/network/relay_event_handler.rs:54-54 | in every well-formed network a probe finds a remembered session id and a Success at a client finds a circuit entry, so neither unwrap fails |
| EstablishmentRelay.SetSessionIsFirst | src/network/relay_event_handler.rs:63-72 | while a circuit is built, a set-session message meets only an acceptor that has no session id yet, and asks for the role its opener meant |
| EstablishmentRelay.StaleErrorIsHarmless | src/network/relay_event_handler.rs:24-44 | after a rerouting the replaced stream's read error changes nothing at the entry node, whose session stays ready |
| EndToEnd.ReroutingKeepsReady | src/network/relay_event_handler.rs:298-320 | an entry node that is also chosen as relay keeps its session ready and its early stream, takes the new later stream, and acknowledges |
| EndToEnd.AbandonedSinkCloses | src/network/relay_event_handler.rs:307-309 | the abandoned sink, as long as it holds its session, has a read error before it, and drops the session when it reads it, disturbing no other node |
| SuccessOnce.SecondProbe | src/network/relay_event_handler.rs:90-101 | when the sink holds one probe and another reaches it, no Success has been originated, and the circuit is complete with four different server nodes |
| SuccessOnce.ProbeEmits | src/network/relay_event_handler.rs:86-108 | a sink that originates a Success is the sink of a complete circuit for which none was originated before |
| SuccessOnce.ReachableSound | src/network/proxy_event_handler.rs:182-322 | in every run, in all overlaps of roles, the sessions of a session id nobody has given up on are exactly those its streams call for, each side contributes at most one probe, and Success is originated at most once and only on a complete circuit |
| CircuitPath.FinishedIsChain | src/network/publish_event_handler.rs:53-159 | the streams of a complete circuit form one simple path from the calling to the answering client: the ends have one stream and a circuit entry for it, every node between has exactly the two beside it and is ready |
| CircuitPath.NobodyElse | src/network/relay_event_handler.rs:298-320 | no other node keeps an entry for the session id, except an abandoned sink whose stream's error is pending |
| Chain.RightwardRoute | src/network/utils.rs:342-348 | a success or data message read at any node of a circuit of any length leaves unchanged on the next stream in the same direction, and at the far client arrives |
| Chain.FlippedChain | src/network/utils.rs:342-348 | a circuit is one in either direction, so that all results hold both ways |
| Chain.CargoFlows | src/network/relay_event_handler.rs:262-290 | reading one success or data message anywhere keeps: sent by one client = received by the other + in flight towards it |
| Conservation.EmitFlows | src/network/utils.rs:350-357 | a node of the path that originates a Success puts exactly one on its way to each end |
| Conservation.CircuitConserves | src/network/relay_event_handler.rs:262-290 | on an established circuit of any length, in every run of sends and deliveries interleaved with any other sessions, the multiset of data sent by each end equals that received by the other plus that in flight |
| EndToEnd.ReachableCircuit | src/network/relay_event_handler.rs:82-158 | in every run from the empty network, once a Success was originated and while nobody has given up: one simple path, nobody else attached, exactly one Success, each end starts at most one handshake, and data conserved in both directions; before it nothing is sent and no handshake starts |
| Witness.EveryOverlapIsReached | src/network/proxy_event_handler.rs:182-322 | in each of the four overlaps of roles, four different servers and rerouting included, some run from the empty network connects the two clients |
| ReadErrors.ExactlyTheConnectedFall | src/network/relay_event_handler.rs:20-47 | for the sessions of a session id in any well-formed network, a whole circuit or any part of one: when its read errors have run out, in any order, exactly the nodes connected through held streams to a pending error have dropped everything, and all others have what they had |
| ReadErrors.NothingStaysExactlyIf | src/network/node.rs:209-222 | so no session stays behind if and only if an error spreads to every node that has one |
| ReadErrors.ErrorsRunOut | src/network/relay_event_handler.rs:20-47 | the read errors do run out, after at most as many as there are readers |
| ReadErrors.GivingUpTakes | src/network/publish_event_handler.rs:117-147 | a node whose attempts all failed or whose command was refused keeps no session, circuit or probe entry; and of the other nodes of the half-built circuit exactly those drop out to which its closing, or an error that was pending, spreads |
| ReadErrors.CloseTakes | src/network/node.rs:209-222 | likewise when a node closes the session at any moment |
| Teardown.StepRemaining | src/network/relay_event_handler.rs:20-62 | no step of any kind adds to the number of sessions and running readers of a circuit, and every closing step reduces it |
| Teardown.DamageSpreads | src/network/relay_event_handler.rs:20-47 | on a circuit of any length, damaged anywhere, with no read error pending, no node holds the session |
| Teardown.ComesDown | src/network/node.rs:209-222 | from any damaged state the pending read errors alone bring the whole circuit down, in no more steps than the measure |
| Teardown.CloseDamages | src/network/node.rs:209-222 | closing the session at any node of the circuit is such damage |
| Teardown.FailureDamages | src/network/protocols/relay_behaviour.rs:85-95 | so is the failure of any of its streams |
| Teardown.RunErodes | src/network/relay_event_handler.rs:55-62 | over any run the closing steps plus what remains never exceed the measure at the start; damage lasts and what is gone stays gone |
| Teardown.CircuitEnds | src/network/relay_event_handler.rs:20-62 | any circuit that a run from the empty network establishes, and any further run: closing steps bounded by three per stream plus one, and damage with no read error pending means no node holds the session |
| Teardown.EntryReturnsExactlyIf | src/network/relay_event_handler.rs:247-251 | a node that has dropped everything of a session id gets an entry again if and only if a handshake task puts its copy of the circuit entry back; no session comes with it |
| Handshake.ReadsInTurn | src/network/relay_event_handler.rs:255-260 | whatever a client is about to read is the message its phase of the XX pattern waits for |
| Handshake.HandshakeSafe | src/network/relay_event_handler.rs:160-253 | for every circuit length, originating node and interleaving, no client reads out of turn or starts twice, and each reads what the other wrote, in order |
| Handshake.CannotBlock | src/network/relay_event_handler.rs:160-253 | until both clients hold a transport state some step other than an application's send can happen |
| Handshake.HandshakeCompletes | src/network/relay_event_handler.rs:160-253 | from any state of any run, a continuation without application sends is bounded, and where it can go no further both clients hold a transport state |
| Handshake.FirstMessageMayOvertake | src/network/relay_event_handler.rs:277-283 | the first handshake message can reach the answering client's channel before its Success |
| HandshakeOnCircuit.DeliveryMatches | src/network/utils.rs:342-348 | with in-order hand-off the next message of any stream of a circuit is there to be delivered, and its delivery is the handshake model's step, in both directions and for any length |
| HandshakeOnCircuit.WritingMatches | src/network/connection.rs:31-38 | what a handshake task or an application writes is a send of the network |
| HandshakeOnCircuit.EmissionMatches | src/network/utils.rs:350-357 | a node of an unused circuit that originates the Success brings the network to the beginning of the handshake model |
| HandshakeOnCircuit.RunMatches | src/network/relay_event_handler.rs:160-260 | every run of the handshake model is a run of the network along the circuit |
| HandshakeOnCircuit.HandshakeOnTheCircuit | src/network/relay_event_handler.rs:160-260 | on every complete circuit of the network, once a node between the clients has originated the Success, a run of in-order deliveries and sends leads both clients to a transport state |
| Registrar.Proxy.NewProxy | src/network/proxy_event_handler.rs:117-153 | accepted exactly when the hash is free, and then the peer is filed under the hash and the client under it, nothing else; refused, nothing changes |
| Registrar.Proxy.Remove | src/network/proxy_event_handler.rs:154-164 | a peer that leaves is gone from the one map and the hash it was filed under from the other; all other entries stay |
| Registrar.Proxy.ProcessProxyRequests | src/network/proxy_event_handler.rs:21-180 | the event loop's effect on both maps is that of the events in order |
| Registrar.RegisteringFiles | src/network/proxy_event_handler.rs:117-153 | after any run: what an accepted and a refused registration make of both maps |
| Registrar.LeavingFrees | src/network/proxy_event_handler.rs:29-43 | after any run a peer that unregisters or disconnects is gone with its hash, all else stays, and that hash can be registered again by anybody |
| Registrar.PeersNeverShare | src/network/proxy_event_handler.rs:134-146 | in every run the peers are filed under different hashes, and each hash is filed for its peer |
| Registrar.InverseExactlyIf | src/network/proxy_event_handler.rs:117-164 | a run keeps the two maps inverse to each other if and only if no peer that is filed already gets a second registration accepted |
| Registrar.StaleForever | src/network/proxy_event_handler.rs:29-43 | the entry such a peer leaves behind is never removed and blocks its hash for good |
| Registrar.OwnIdsKeepInverse | src/network/node.rs:119-133 | when each peer registers only the id of its own key the maps are exact inverses in every run |
| EventBus.Bus.InjectAck | src/network/whitenoise_behaviour.rs:176-192 | an acknowledgement takes its sender off the bus and wakes that waiter; without one nothing changes |
| EventBus.NoAckIsLost | src/network/node.rs:52-60 | in every run with different keys outstanding, an acknowledgement of an outstanding request reaches its waiter, and one nobody waits for changes nothing |
| EventBus.OneAckEach | src/network/node.rs:52-60 | each waiter gets at most one acknowledgement, with its own key, for good |
| EventBus.SendingFirstMayLoseAck | src/network/node.rs:296-307 | a request written before it is registered is answered if and only if an acknowledgement of its key arrives after the registration, in every run, however many arrive and when; otherwise its waiter waits on |
| StreamQueue.Queue.Search | src/network/node.rs:162-178 | a round that misses restores the queue, one that hits takes the first match and leaves what was behind it followed by what was before it |
| StreamQueue.Queue.WaitForStream | src/network/node.rs:156-182 | each of at most a hundred rounds searches what was there first and what has arrived since; the first round that has a stream to the peer takes the first such one and keeps all others in the queue; the wait gives up only when all rounds have missed, with the queue in its order |
| StreamQueue.AloneItSearches | src/network/node.rs:162-178 | a waiter that nobody interrupts finds, operation by operation, what one round of the search finds, and leaves the queue as that round does |
| StreamQueue.StreamsAreHandedOutOnce | src/network/node.rs:168-176 | with several waiters and arrivals interleaved at every operation no stream is lost, duplicated or given to two waiters, and each waiter gets one to its own peer |
| PeerSelection.VisitsDiffer | src/network/proxy_event_handler.rs:245-247 | different turns of one scan visit different positions, for every random start, the machine maximum included |
| PeerSelection.VisitsAll | src/network/proxy_event_handler.rs:245-247 | every position is visited |
| PeerSelection.Scan | src/network/proxy_event_handler.rs:243-258 | the scan takes the first peer in turn that is not this node, not the excluded peer, not the bootstrap node, not tried before and not blocked by its hash; it finds none only if every listed peer fails one of these tests |
| PeerSelection.FindAndExtend | src/network/proxy_event_handler.rs:237-276 | up to three attempts, ending with the first that opened; each that found a peer tried a listed one, different from those before, from this node, from the bootstrap node, from the excluded peer and not blocked; where none was found every listed peer fails one of these tests; the session ends with the first stream that opened as its later stream, or is closed |
| PeerSelection.FailedAttemptsDoNotDisturb | src/network/publish_event_handler.rs:87-121 | after any number of timed-out attempts and a success the session has its original early stream and exactly the new later one; when all fail all entries are gone |
| PeerSelection.DestinationIsTakenExactlyIf | src/network/proxy_event_handler.rs:251-258 | the test against the destination hashes a hash again: whatever the list, some random start makes the scan take the destination's own client first, if and only if that second hash differs from the first |
| StreamPump.Wrapped.Poll | src/network/protocols/relay_behaviour.rs:62-101 | one turn of the select loop: queued data is written, a message read is given to a task of its own, a close, lost senders, a failed or an empty read signal one error and end the loop, a failing write ends it without one; nothing else changes |
| StreamPump.Wrapped.StartPoll | src/network/protocols/relay_behaviour.rs:59-103 | the whole loop, with the users' sends and the tasks it has spawned interleaved |
| StreamPump.WritesInOrder | src/network/protocols/relay_behaviour.rs:59-103 | for every interleaving what is written is, in order, a beginning of the data queued before the first close, all of it when the close ends the pump; one error is signalled exactly when the pump ends other than by a failing write |
| StreamPump.ReadsAreDelivered | src/network/protocols/relay_behaviour.rs:84-100 | for every interleaving there is the moment at which the pump ended, or the end of the events: what the reader was given or is on its way are the nonempty messages read until then, each once, and nothing else, in order if the spawned tasks run in turn |
| StreamPump.OrderKeptExactlyIf | src/network/protocols/relay_behaviour.rs:96-99 | different messages reach the reader in the order in which they were read if and only if no spawned task overtakes an earlier one |
| StreamPump.ErrorMayOvertake | src/network/protocols/relay_behaviour.rs:85-99 | the error that ends the pump can reach the reader before a message that was read before it |
| StreamPump.EndedStays | src/network/protocols/relay_behaviour.rs:72-77 | after the end nothing is written, read or signalled any more; only messages read before are still handed over |
| StreamPump.DisconnectGoesFirst | src/network/relay_event_handler.rs:307-309 | a disconnect message queued before the close is on the wire when the close ends the pump |
| Framing.UnframedExactlyIf | src/network/utils.rs:55-61 | a frame is two bytes of length, the higher first, and the contents, which it gives back if and only if the length survives the 16-bit truncation |
| Framing.UnprefixedPrefixed | whitenoise-client/src/main.rs:104-109 | the prefix is four bytes of length, the highest first; it is undone whatever the buffer held behind the message |
| Framing.CircuitConn.Write | src/network/connection.rs:31-38 | with a transport state and a payload within the Noise limit exactly one ciphertext is queued, behind the two bytes of its length; otherwise nothing |
| Framing.CircuitConn.Read | src/network/connection.rs:17-30 | a read takes one message from the channel, opens what its two length bytes cut out and returns what the four length bytes inside cut out of the buffer; it fails exactly where one of these lengths does not fit or the message does not open |
| Framing.MessageRoundTrip | src/network/connection.rs:17-38 | reading undoes sending exactly, for every message within the limit and every buffer |
| Framing.ConversationRoundTrip | src/network/connection.rs:17-38 | every series of messages read in order comes out as it went in |
| RelaySize.PaddingNeverAccumulates | src/network/utils.rs:359-370 | through any number of hops the data is unchanged and the size stays within that of the largest padding for this data |
| RelaySize.AlwaysFitsExactlyIf | src/network/protocols/relay_behaviour.rs:85-85 | with session ids of 44 characters a data message fits the 4096-byte limit at every hop, whatever is drawn, if and only if the plaintext, the application's four-byte length prefix included, has at most 3600 bytes |
| RelaySize.MessageFitsExactlyIf | whitenoise-client/src/main.rs:104-110 | for the application's message itself: if and only if it has at most 3596 bytes |
| RelaySize.ShorterFits | src/relay.proto:4-9 | with shorter session ids it fits too |
| RelaySize.ControlFits | src/network/utils.rs:315-340 | probes, successes and the other messages always fit |
| RelaySize.PaddingMayExceedTenth | src/network/utils.rs:382-400 | for every length of data a draw is allowed that exceeds a tenth of it, so the bound that test asserts does not hold of all draws |

## Left out

- libp2p, gossip, Kademlia and stream opening inside the library: gossip reaches the home node at any time or never, and opening a stream succeeds or times out at will.
- The cryptography: hashes and ciphers are abstract injective or invertible functions. The result of verifying the peer's identity is only logged by the source, so nothing is claimed about authentication.
- Interleavings inside one handler: the source reads a map under one lock and writes it under another; a handler's work on one session is one step here.
- Read order on a stream in the network model: inboxes are multisets, so that a message may also be handed over before an older one. `StreamPump` says exactly when the order is kept; only `Handshake` and `HandshakeOnCircuit` assume it, and say so.
- A set-session message and the acknowledgement to it that are lost or never answered: such runs are those in which the waiting task takes no further step.
- Reads that the select loop of the pump cancels halfway: a read either happens or does not.
- Teardown.CircuitEnds: speaks of sessions, not of circuit entries, because a handshake task works on a copy of the circuit entry and inserts it again when it is done, also when the session has been closed meanwhile; `Teardown.EntryReturnsExactlyIf` says exactly when that happens.
- EndToEnd.ReachableCircuit: does not speak of session ids for which some node gave up, a client closed or a stream failed; `Teardown` does.
- Several home nodes: a client registered at two access nodes that both answer the gossip is not modelled; the home node of a circuit is one node.
- The proxy requests around the construction (decrypting, encrypting, asking for peers) and their payloads: they only gate the steps, which may always be delayed.
- Wall-clock time and jitter: any delay is possible; only the round counter of the stream wait is kept.
- HandleNewCircuit, ProcessPublishRequest, ProcessCmdRequest: each is one piece in `CircuitTasks`, with what it waits for given by its result; the network splits them into steps at every wait, and `TaskRefinement` relates the two.
- Command line, chat client, key storage, logging, start-up: plumbing.
