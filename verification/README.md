# Chat cluster: model and proofs

A cluster of chat nodes keeps a bounded gossip log, a presence table, a room-membership index and binary and
text codecs; clients keep a failover ring. This project models that behaviour in Dafny 4.11 and proves what it
keeps over every input and every run. `dafny verify dfyconfig.toml` checks all of it.

Each operation that the system performs by changing state is a method of a class (`GossipStore.EventLog`,
`ChatServer.Server`, `EndpointRing.Ring`, `Streams.SocketBuffer`, `PeerRegistry.Peers`) or a method with a loop,
proved to take its state where a function on values says; the run-level theorems are about those functions.

| modules | what they hold |
|---|---|
| `Seqs`, `Bytes`, `Powers`, `Decimal`, `TextLists` | splitting and joining, big-endian fields, decimal numbers, lists read piece by piece |
| `PacketCodec`, `GossipPayload`, `WebPacket` | the packet format, the gossip payload, the browser's twin of the packet codec |
| `WebFrame`, `HttpHead`, `Streams` | RFC 6455 frames, the end of an HTTP head, and reading packets, heads and frames from a stream cut into arbitrary pieces |
| `GossipLog`, `GossipStore`, `GossipCluster`, `GossipConvergence`, `GossipFairness`, `GossipRuns` | one node's event log, the same log as a class, N nodes with packets in flight, anti-entropy, anti-entropy under every fair schedule, and two runs worth seeing |
| `EventIds`, `EventText`, `NodeEvents` | how event ids are made and when they collide, events as packets, and the events each action rumors |
| `ChatNode`, `RoomIndex`, `NodeShapes`, `NodePackets`, `NodeRuns`, `NodeOutcomes`, `PeerOutcomes` | one chat node: sessions, rooms, tables, packets, events, what every run keeps, and what each packet and each event leaves behind, told from the tables before and after |
| `NodePresence`, `NodeMembership`, `NodeRoster`, `NodeMirror`, `NodeMessages`, `NodeAccess`, `NodeLists`, `NodeTables`, `FailingRuns` | presence, membership rows, who has rows, tables against sessions, message delivery, private rooms, allow-lists, foreign keys, and the runs that break a law |
| `NodeReplication`, `DividingRuns`, `Takeover` | two nodes that hear what the other rumors: which tables agree, the runs after which rows do not, and a RECONNECT after the owner has died |
| `ChatServer` | the node as a class whose steps are those of `NodeRuns` |
| `ChatCluster`, `ClusterMessages`, `ClusterIds`, `ClusterSteps`, `ClusterRuns` | the cluster of chat nodes over gossip: what a node's state is, which nodes end up with a message, when ids drawn from the counters are new, and two runs from a start built step by step |
| `EndpointRing`, `Supervisor`, `PeerRegistry` | failover ring and backoff, dial budget, liveness of peers |
| `ChatHistory`, `RoomDirectory`, `ServerDirectory`, `Vectors` | the three text formats, and the formats and limits in plain characters and numbers |

## Findings

Some promises hold only under a condition. Each such condition is proved exact, and a lemma exhibits a run or an input
that fails.

- An event id containing `|` is never delivered by anti-entropy: `GossipLog.ExchangeHealsIff`,
  `GossipCluster.BarIdStaysHome`; the run is `GossipRuns.BarUserRun`. Ids contain the user name
  (`src/server/packet_processor.cpp:35-39`), which is not checked for `|`.
- REGISTER of a name whose presence row was placed by a peer's earlier LOGIN leaves the presence with the peer:
  `NodePresence.RegisterPresence`; the run is `FailingRuns.RegisterAfterForeignLogin`.
- LOGIN and REGISTER do not ask whether the session is logged in already. Logging in over a session strands the
  first user's rows (`NodeMirror.LoginStaleIff`), and that user's RECONNECT can then end with two membership rows:
  `NodeMembership.ReconnectRowIff`; the run is `FailingRuns.SwitchThenReconnect`.
- A peer's ROOM_JOIN is applied whether or not its user is online. A row left for an offline user makes two after
  the next login: `NodeMembership.LoginRowIff`, `NodeRoster.StepRoster`; the run is `FailingRuns.JoinBeforeLogin`.
- A ROOM_JOIN is applied without a look at where its user is now. A node's own event, pulled back after its id has
  left the window of 256, moves the row away from the session: `NodeMembership.JoinEventRowIff`; the run, of a whole
  cluster from a start, is `ClusterRuns.OwnJoinMovesRow`. ROOM_LEAVE and LOGOUT events of users logged in here break
  the law likewise (`NodeMembership.LeaveEventRowIff`, `NodeMembership.LogoutEventRowIff`).
- A MESSAGE that reaches a node before its room or its sender is recorded there as seen and dropped. It is stored only
  if its id leaves the window and comes back after both are known: `ClusterMessages.MessageReplicated`,
  `ClusterMessages.SeenIsFinal`; the run is `ClusterRuns.EarlyMessageIsLost`.
- A join whose row insertion fails is taken back in memory only, and the row of the old room is lost:
  `NodeMembership.JoinRowIff`; the run is `FailingRuns.InsertFails`.
- `deleteRoom` forgets the room before its database delete; when that fails the room index is sound only if nobody
  was in the room: `RoomIndex.DeleteFaultIff`; the run is `FailingRuns.DeleteRefused`.
- `readHeaders` compares the buffer, not the head, with its limit, so whether a head near the limit is read depends
  on how the bytes arrive: `HttpHead.ReadsUnderEveryCut`, `HttpHead.ReadsUnderSomeCut`; the input is
  `HttpHead.SameBytesReadAndRefused`.
- Ids join their parts with dashes, so two nodes can make the same id exactly when one's name goes on after the other's
  with a dash and a kind of event: `EventIds.NodesCollideIff`; the input is `EventIds.DashedNodesCollide`. On one node
  the counters of packets and of disconnects can make one id for two LOGOUTs: `EventIds.CountersCollideIff`,
  `ClusterIds.IdsAreNewIff`.
- ROOM_DELETE moves the users who sat in the room to the Lobby, and writes the Lobby rows of those connected to the
  node at hand; no ROOM_JOIN is rumored for them (`src/server/room_manager.cpp:256-294`). So the nodes keep the same
  users, presence, rooms, lists and messages, but their membership rows agree afterwards exactly when those rows were
  there before: `NodeReplication.StepAgrees`; the run is `DividingRuns.DeleteDivides`.
- ROOM_KICK, where the user kicked sits at another node, has that node move the user to the Lobby without telling anyone
  (`src/server/gossip_manager.cpp:721-756`). Rows agree afterwards exactly when the user sat nowhere there, or that
  changed nothing: `NodeReplication.StepAgrees`; the run of two nodes is `DividingRuns.KickDivides`.
- A negative message time comes back from the console client's history parser modulo 2^64:
  `ChatHistory.ClientRoundTripIff`; the input is `ChatHistory.NegativeTimeWraps`.

## Model

| member | source | states |
|---|---|---|
| PacketCodec.ParseIffWire | src/utils/serializer.cpp:108-203 | A byte string is accepted as p exactly when p has a known type, its body fits 1 MiB and the string is its encoding: a bijection |
| PacketCodec.ParseWire | src/utils/serializer.cpp:141-203 | Every encodable packet survives encoding and decoding |
| PacketCodec.WireParse | src/utils/serializer.cpp:141-203 | Every accepted string re-encodes to itself |
| PacketCodec.WireLayout | src/utils/serializer.cpp:108-138 | Byte for byte: the size, the type, eight bytes of time, four of code, then sender, receiver, room and message, each behind its length in four bytes, most significant first |
| Vectors.PacketLimit | src/utils/serializer.cpp:108-138 | A packet is encodable exactly when its type is at most 20 and its texts leave room for 29 bytes more within 1048576 |
| PacketCodec.Serialize | src/utils/serializer.cpp:108-138 | The appending code writes the encoding, or nothing for a packet that is too large or of unknown type; what it writes parses to the packet |
| PacketCodec.Deserialize | src/utils/serializer.cpp:141-203 | The offset-moving code accepts exactly the encodings and returns what they encode |
| PacketCodec.ReadU32BE | src/utils/serializer.cpp:60-73 | Succeeds exactly when four bytes remain, and moves past them |
| PacketCodec.ReadLenPrefixed | src/utils/serializer.cpp:87-104 | Succeeds exactly when length and text remain, and moves past them |
| GossipPayload.DecodeIffEncode | src/utils/gossip_payload.cpp:68-101 | A payload decodes to five fields exactly when it is their encoding |
| GossipPayload.PayloadLayout | src/utils/gossip_payload.cpp:68-82 | Byte for byte: kind, event id, user name, content and fifth field, each behind its length in four bytes |
| GossipPayload.EventIdAgrees | src/utils/gossip_payload.cpp:104-112 | The id peeked at is the id the decoder finds |
| GossipPayload.EventIdPeeks | src/utils/gossip_payload.cpp:104-112 | For any bytes: the id peeked at is the second field, whatever follows, and empty exactly when two fields cannot be read or the second is empty |
| GossipPayload.EncodeFields | src/utils/gossip_payload.cpp:68-82 | The written payload decodes to the five fields and its peeked id is the event id |
| WebPacket.DecodersAgree | web/src/service/packet.js:102-141 | The server accepts exactly the frames the browser accepts with a known type and within 1 MiB, and both read the same fields, the time up to rounding and the code up to its sign |
| WebPacket.JsReads | web/src/service/packet.js:102-141 | The browser takes every frame of the layout, of any type and size, for the fields in it |
| WebPacket.SameFields | web/src/service/packet.js:55-65 | Times below 2^53 and nonnegative codes come through unchanged; a larger time exactly when it is a double |
| WebPacket.RoundExact | web/src/service/packet.js:55-65 | Rounding to a double changes nothing exactly on multiples of the spacing |
| WebPacket.RoundNearest | web/src/service/packet.js:55-65 | A time is read as a multiple of the spacing of doubles around it than which none is nearer, the even one between two |
| WebPacket.UnitLeast | web/src/service/packet.js:55-65 | That spacing is the least power of two of which 2^53 exceed the number |
| WebPacket.DecodePacket | web/src/service/packet.js:102-141 | The browser's offset-moving decoder accepts and returns what the parse of the whole frame says |
| WebPacket.EncodePacket | web/src/service/packet.js:77-91 | What the browser writes is the server's encoding; the server accepts it, with the same fields, exactly when type and size are valid |
| WebFrame.DecodeFrameOf | src/server/web_connection.cpp:265-401 | A frame followed by any bytes decodes to its opcode and payload and consumes exactly the frame, or is refused when its opcode and size are not acceptable |
| WebFrame.DecodeCanonical | src/server/web_connection.cpp:305-401 | Every accepted frame is byte for byte the encoding of its contents and key, in the shortest length form |
| WebFrame.DecodeStable | src/server/web_connection.cpp:305-401 | Ok and Error do not change when bytes are appended |
| WebFrame.DecodePrefix | src/server/web_connection.cpp:305-401 | Every proper prefix of an accepted frame is incomplete |
| WebFrame.FrameLayout | src/server/web_connection.cpp:265-302 | What is written, byte for byte: the final bit with the opcode, the mask bit with the length, the length in two or eight bytes where it needs them, the key, and each payload byte as the exclusive or, bit for bit, with the key byte whose turn it is |
| WebFrame.DecodeLayout | src/server/web_connection.cpp:305-401 | What is accepted has that layout: bit for bit, payload byte i is the exclusive or of byte h + i and of byte h - 4 + i % 4 behind a header of h bytes |
| Vectors.FrameBytes | src/server/web_connection.cpp:265-401 | The text "hi" under the key 1, 2, 3, 4 is 129, 130, 1, 2, 3, 4, 105, 107, and is read back |
| WebFrame.MaskTwice | src/server/web_connection.cpp:293-300 | Masking twice under one key restores the payload (which bits that takes is in FrameLayout) |
| WebFrame.EncodeFrame | src/server/web_connection.cpp:265-302 | The buffer-building encoder writes the frame, with the layout of FrameLayout down to the bits under the mask |
| WebFrame.DecodeFrame | src/server/web_connection.cpp:305-401 | The branching decoder with its loops computes the frame decoding, and an accepted frame has that layout with the payload returned |
| HttpHead.ReadsUnderEveryCut | src/server/web_connection.cpp:162-182 | The head is read under every cut of the stream exactly when it is there and the limit leaves room for what one recv may bring along |
| HttpHead.HeadIs | src/server/web_connection.cpp:162-182 | The head ends right behind the first CR LF CR LF |
| Vectors.HeadRoom | src/server/web_connection.cpp:162-182 | The server reads a head under every cut exactly when 8192 bytes hold it and 1023 more, or everything there is |
| HttpHead.Arrives | src/server/web_connection.cpp:162-182 | Enough room suffices for every cut |
| HttpHead.WorstCut | src/server/web_connection.cpp:162-182 | Otherwise some cut of the same bytes is refused |
| HttpHead.ReadsUnderSomeCut | src/server/web_connection.cpp:162-182 | Some cut is read exactly when the head is there and fits the limit |
| HttpHead.SameBytesReadAndRefused | src/server/web_connection.cpp:162-182 | The same 8193 bytes are read in one cut and refused in another, under the limit of 8192 |
| Streams.RecvExact | src/utils/socket_io.cpp:84-96 | Delivers n bytes exactly when the stream has them, for every chunking, and consumes exactly those |
| Streams.ReadPacket | src/utils/socket_io.cpp:114-148 | The packet read is a function of the bytes alone, and exactly its frame is consumed |
| Streams.ReadAll | src/utils/socket_io.cpp:114-148 | The packet sequence does not depend on the chunking |
| Streams.PacketsOfWire | src/utils/socket_io.cpp:114-148 | Concatenated encodings are read back as exactly those packets, in order |
| Streams.SocketBuffer.ReadHeaders | src/server/web_connection.cpp:162-182 | On success the head ends at the first terminator and the rest stays unread; on failure nothing is lost |
| Streams.SocketBuffer.Ensure | src/server/web_connection.cpp:236-248 | True exactly when the stream holds that many bytes; no byte is lost or reordered |
| Streams.SocketBuffer.BufferFrame | src/server/web_connection.cpp:184-224 | The length pre-parse buffers the whole declared frame, or gives up only where no acceptable frame is |
| Streams.SocketBuffer.ReadFrame | src/server/web_connection.cpp:184-232 | The answer is what the decoder finds on the unsplit stream, unmasked frames refused, and exactly an accepted frame is consumed |
| Streams.TakenIffMasked | src/server/web_connection.cpp:184-232 | Of the frames an encoder could write, exactly those are taken that are masked, have opcode 1, 2, 8, 9 or 10, and carry at most 1048580 bytes, or 125 in a control frame |
| Streams.FrontDecides | src/server/web_connection.cpp:184-232 | On a buffered frame the decoder never answers Incomplete, and later bytes do not matter |
| Streams.ReadFrames | src/server/web_connection.cpp:184-232 | The frame sequence does not depend on the chunking |
| Streams.FramesOfSent | src/server/web_connection.cpp:184-232 | Packets sent in masked frames are read back as exactly those packets, in order |
| GossipLog.OfferValid | src/server/gossip_manager.cpp:368-386 | Recording keeps seen set, FIFO and event map in agreement, without duplicates and within 256 |
| GossipLog.OfferGrows | src/server/gossip_manager.cpp:492-504 | Below the cap nothing is evicted |
| GossipLog.OfferHistory | src/server/gossip_manager.cpp:492-504 | The FIFO is the last 256 applied ids, and an id recurs only after 256 other applications |
| Vectors.WindowOf256 | src/server/gossip_manager.cpp:492-504 | A new id goes to the end of the FIFO, and exactly a FIFO of 256 loses its first |
| GossipLog.SpacedMeansDistinct | src/server/gossip_manager.cpp:492-504 | Those 256 applications are of pairwise different other ids |
| GossipLog.DigestOffers | src/server/gossip_manager.cpp:507-515 | A digest offers a recorded id exactly when it has no bar |
| GossipLog.LookupAnswers | src/server/gossip_manager.cpp:423-452 | A pull is answered with exactly the stored events it names |
| GossipLog.ExchangeResult | src/server/gossip_manager.cpp:389-452 | Digest, pull and events give the receiver exactly the sender's bar-free ids, with the sender's events, and lose nothing |
| GossipLog.ExchangeHealsIff | src/server/gossip_manager.cpp:389-452 | An exchange heals everything exactly when every lacking id has no bar |
| GossipLog.BarIdNeverHeals | src/server/gossip_manager.cpp:389-452 | An id with a bar is never delivered by an exchange, however often it is repeated and however full the logs |
| GossipStore.EventLog.RememberEventLocked | src/server/gossip_manager.cpp:492-504 | The eviction loop leaves exactly the last 256 ids and their events |
| GossipStore.EventLog.Accept | src/server/gossip_manager.cpp:368-386 | An event is applied exactly when its id is nonempty and unseen, and the log invariant and history are kept |
| GossipStore.EventLog.Rumor | src/server/gossip_manager.cpp:884-923 | Exactly an event with a new, nonempty id is recorded and handed out for sending: of the gossip kind, from this node and to everyone unless it names sender or receiver, otherwise as it was |
| GossipStore.EventLog.BuildDigestLocked | src/server/gossip_manager.cpp:507-515 | The digest is the recorded ids, oldest first, with bars between them |
| Vectors.DigestBytes | src/server/gossip_manager.cpp:507-515 | Two ids, the older first, with the byte 124 between them |
| GossipStore.EventLog.MissingIds | src/server/gossip_manager.cpp:389-420 | The split loop collects exactly the unseen nonempty pieces, in order |
| GossipStore.EventLog.AnswerPull | src/server/gossip_manager.cpp:423-452 | The split loop answers exactly the stored ids asked for, in order |
| GossipStore.EventLog.HandlePeerPacket | src/server/gossip_manager.cpp:325-457 | EVENT, DIGEST and PULL change the log and answer as the protocol says; the invariant is kept |
| GossipCluster.StepKeepsInv | src/server/gossip_manager.cpp:325-457 | Every rumor, digest, delivery, duplicate or loss keeps the cluster invariant |
| GossipCluster.RunKeepsInv | src/server/gossip_manager.cpp:325-457 | In every run each node's structures agree and every stored or travelling event is the packet its originator rumored |
| GossipCluster.DedupWindow | src/server/gossip_manager.cpp:492-504 | In every run from a start, two applications of one id at one node have 256 distinct other applications between them |
| GossipCluster.BarIdStaysHome | src/server/gossip_manager.cpp:389-452 | Over every run, an id with a bar that has not left its node never does, unless rumored again |
| GossipRuns.BarUserRun | src/server/gossip_manager.cpp:389-452 | The run: a node rumors the first message of a user whose name has a bar in it, under the id the source makes, while no peer is connected, and no other node ever holds it |
| GossipRuns.OwnEventComesBack | src/server/gossip_manager.cpp:368-504 | The run: a node rumors an event that reaches a peer and 256 more that reach nobody; its event has left its window, comes back by digest, pull and event, and is applied there again |
| EventIds.NumbersDiffer | src/server/packet_processor.cpp:35-39 | Ids with different running numbers differ, whatever else they are made of |
| Vectors.EventIdText | src/server/packet_processor.cpp:35-39 | An id is node, kind, user, second and number with dashes between them |
| EventIds.SameNodeIff | src/server/packet_processor.cpp:35-39 | On one node two ids coincide exactly when kind, user, second and number do, although user names may hold dashes |
| EventIds.CountersCollideIff | src/server/connection_manager.cpp:315-318 | The counters of packets and of disconnects collide exactly in a LOGOUT of the same user, second and number |
| EventIds.NodesCollideIff | src/server/packet_processor.cpp:35-39 | Two nodes can make the same id, with the kinds there are, exactly when one's name is the other's with a dash and a kind behind it, or goes on after those with a dash |
| EventIds.NodesDiffer | src/server/packet_processor.cpp:35-39 | So ids of nodes with names apart in that sense differ |
| EventIds.PlainNodesApart | src/server/packet_processor.cpp:35-39 | Names without dashes are apart |
| EventIds.DashedNodesCollide | src/server/packet_processor.cpp:35-39 | With a dash in a node name two nodes can make one id |
| EventIds.IssuedDistinct | src/server/packet_processor.cpp:30-39 | The ids one counter gives out are pairwise different |
| EventIds.IdSource.MakeEventId | src/server/packet_processor.cpp:35-39 | The next id of the counter, which it has not given out before |
| EventIds.IdSource.MakeDropId | src/server/connection_manager.cpp:315-318 | The same for the counter of disconnects |
| GossipConvergence.StepGrows | src/server/gossip_manager.cpp:368-386 | With at most 256 ids rumored no step makes a node forget an id |
| GossipConvergence.RunGrows | src/server/gossip_manager.cpp:368-386 | The same over every run |
| GossipConvergence.DeliveryHeals | src/server/gossip_manager.cpp:368-386 | Delivering a new event heals exactly that (node, id) pair |
| GossipConvergence.RumorArrives | src/server/gossip_manager.cpp:884-923 | A rumored event travels to each peer it reaches and is applied there when it is delivered, once |
| GossipConvergence.HealingIsConserved | src/server/gossip_manager.cpp:368-452 | Over every schedule without new rumors, missing pairs before equal missing pairs after plus events applied |
| GossipConvergence.ExchangeRun | src/server/gossip_manager.cpp:389-452 | A digest, the pull it draws and the events it brings are a legal run that changes only the puller, to the exchanged log |
| GossipConvergence.ExchangeProgress | src/server/gossip_manager.cpp:389-452 | An exchange that pulls anything strictly shrinks the missing pairs and loses no id |
| GossipConvergence.QuietIff | src/server/gossip_manager.cpp:389-420 | A link has nothing to pull exactly when the sender's ids are all known to the receiver |
| GossipConvergence.QuietClusterAgrees | src/server/gossip_manager.cpp:294-321 | When no link of a strongly connected peer graph has anything to pull, all nodes hold the same ids |
| GossipConvergence.Converges | src/server/gossip_manager.cpp:294-452 | From every reachable state with at most 256 bar-free ids, exchanges over the links bring every node to all ids any node knew |
| GossipFairness.ExchangeCarries | src/server/gossip_manager.cpp:389-452 | Wherever in a run a digest, its pull and the answers arrive, with any other steps in between, the receiver ends with every bar-free id the sender had at the start |
| GossipFairness.FairRoundsConverge | src/server/gossip_manager.cpp:294-452 | Under every schedule in which each link completes an exchange per round, as many rounds as the peer graph is wide bring every id known at the start to every node |
| GossipFairness.StartConverges | src/server/gossip_manager.cpp:294-452 | From a start, after any run with at most 256 bar-free ids and enough such rounds without new rumors, every node holds exactly the ids rumored |
| GossipFairness.ExchangeCompletes | src/server/gossip_manager.cpp:389-452 | Sending a digest and delivering what it draws completes an exchange, from every state |
| GossipFairness.FairRoundsExist | src/server/gossip_manager.cpp:294-452 | From every state there are fair rounds without new rumors, as many as one likes |
| EventText.RumorMeans | src/server/packet_processor.cpp:42-108 | What a node writes of an event it rumors, any node takes for that event; its id is the one it was given |
| EventText.PacketMeans | src/server/gossip_manager.cpp:518-533 | A packet is taken for the fields that were written into it |
| Vectors.EventPacket | src/server/gossip_manager.cpp:884-923 | An event travels in a packet of type 9 from this node to everyone, under the room it is about |
| Vectors.UserRumors | src/server/packet_processor.cpp:42-108 | The kind, user, content and fifth field that stand for LOGIN, RECONNECT, LOGOUT and USER_CREATED |
| Vectors.RoomRumors | src/server/packet_processor.cpp:551-827 | The same for the events about rooms and for MESSAGE |
| Vectors.PeerTexts | src/server/gossip_manager.cpp:518-872 | What is made of fields no handler writes: no password hash, another privacy or flag, a ROOM_LEAVE without room, an unknown kind |
| Vectors.MessageTexts | src/server/gossip_manager.cpp:828-871 | A MESSAGE has an effect exactly when its time is a number of 64 bits |
| NodeEvents.EmittedAbsorbed | src/server/packet_processor.cpp:211-827 | Every event a client's action rumors is already part of the action's effect: applied again at once it changes nothing |
| ChatCluster.NodeIsFold | src/server/gossip_manager.cpp:368-386 | In every run of the whole cluster a node's state is the fold of its clients' actions and of the peer events it applied, each emitted by a client's action somewhere; that an id stands for one event follows from ids being new |
| ChatCluster.NodeLaws | src/server/gossip_manager.cpp:518-872 | So at every node of the cluster, in every run, the room index, one session per user, closed private rooms and the push count of messages hold |
| ClusterMessages.MessageReplicated | src/server/gossip_manager.cpp:828-871 | In every run of the cluster, a message some client sent has been pushed at a node exactly when the node sent it or knew its room and sender at one of the times it applied the id; where no room is deleted it is then in the table and pushed exactly once, and otherwise not in the table |
| ClusterMessages.SeenIsFinal | src/server/gossip_manager.cpp:377-385 | While an id stays in a node's window nothing stores or pushes that message there, whatever the node learns meanwhile |
| ClusterIds.NewIff | src/server/packet_processor.cpp:35-39 | In a cluster whose rumored ids are those its counters gave out, an action's ids are new exactly when the node's other counter has not been asked for the same LOGOUT under the same number |
| ClusterIds.IdsAreNewIff | src/server/connection_manager.cpp:315-318 | From a start, with names apart and every id drawn from the two counters, every client's action goes through under new ids exactly when no node's counters were ever asked for the same LOGOUT under the same number |
| ClusterRuns.OwnJoinMovesRow | src/server/gossip_manager.cpp:759-803 | The run of a cluster from a start, all ids drawn from the counters, in which a node's own ROOM_JOIN is pushed out of its window by 256 further events, comes back by digest, pull and event, and puts the row where the session is not |
| ClusterRuns.EarlyMessageIsLost | src/server/gossip_manager.cpp:828-851 | The run from a start in which a peer takes in a user's message before her USER_CREATED: it is recorded as seen and, as long as its id stays in the window, never stored there |
| RoomIndex.JoinIndex | src/server/room_manager.cpp:65-128 | Unknown room, success and rollback after either failing write all keep the room index |
| RoomIndex.LeaveIndex | src/server/room_manager.cpp:131-154 | Leaving keeps the index; only the leaving socket loses its seat |
| RoomIndex.CreateIndex | src/server/room_manager.cpp:188-211 | Creating keeps the index |
| RoomIndex.DeleteIndex | src/server/room_manager.cpp:214-294 | A deletion whose database delete succeeds keeps the index and moves every member to the Lobby |
| RoomIndex.DeleteFaultIff | src/server/room_manager.cpp:214-294 | After a failing database delete the index holds exactly when nobody was in the room |
| RoomIndex.RunsKeepIndex | src/server/room_manager.cpp:50-294 | After every interleaving of open, join, leave, create, delete and remove, each socket sits only in its session's room and every member set is nonempty and of a known room |
| ChatServer.Server.RemoveSocketLocked | src/server/room_manager.cpp:50-62 | The socket leaves the set and an emptied set leaves the map |
| ChatServer.Server.PersistJoin | src/server/room_manager.cpp:95-126 | Which membership writes take effect, for every point of failure |
| ChatServer.Server.JoinRoom | src/server/room_manager.cpp:65-128 | In-memory move, row writes and rollback reach the state of the value-level join, in every outcome |
| ChatServer.Server.LeaveAll | src/server/room_manager.cpp:131-154 | Seat and session room go back to the Lobby; the rows go unless the database call fails, which is caught |
| ChatServer.Server.CreateRoom | src/server/room_manager.cpp:188-211 | Refused for a known or stored name; otherwise room, row and creator entry |
| ChatServer.Server.DeleteRoom | src/server/room_manager.cpp:214-294 | The two session loops reach the state in which all members moved at once; a failing delete stops after the in-memory half |
| ChatServer.Server.MoveToLobby | src/server/room_manager.cpp:256-294 | The socket-by-socket loop equals moving all of them, sessions and rows, at once |
| ChatServer.Server.Broadcast | src/server/room_manager.cpp:157-185 | Exactly one send to every member of the room but the skipped socket |
| ChatServer.Server.BroadcastAll | src/server/room_manager.cpp:297-323 | Exactly one send to every member socket of any room but the skipped one, hence to every session |
| ChatServer.Server.OpenSession | src/server/connection_manager.cpp:162-196 | The invariant is kept; a guest session that sits in the Lobby, with the tables as before |
| ChatServer.Server.RemoveSession | src/server/connection_manager.cpp:283-336 | The invariant is kept; the session is gone and sits nowhere, and a logged-in user is offline without rows |
| ChatServer.Server.HasSession | src/server/connection_manager.cpp:339-348 | True exactly when some logged-in session has the user's email |
| ChatServer.Server.FindSession | src/server/packet_processor.cpp:146-154 | Finds a logged-in session of the name exactly when there is one |
| ChatServer.Server.EvictUser | src/server/gossip_manager.cpp:565-580 | The session loop makes every session of the user a guest in the Lobby |
| ChatServer.Server.ApplyReconnectEvent | src/server/gossip_manager.cpp:557-582 | Presence and rows move to the named node; sessions of the user here become guests |
| ChatServer.Server.ApplyRoomCreatedEvent | src/server/gossip_manager.cpp:622-659 | The room is created if unknown, as private as the event says; otherwise the creator's entry is added |
| ChatServer.Server.ApplyRoomDeletedEvent | src/server/gossip_manager.cpp:695-718 | Seed rooms are refused, a known room is deleted |
| ChatServer.Server.ApplyKickEvent | src/server/gossip_manager.cpp:721-756 | The allow-list entry goes and the session loop moves exactly the user's session in that room to the Lobby |
| ChatServer.Server.HandleLogin | src/server/packet_processor.cpp:211-261 | Granted exactly for a right password without session or presence row; then the session is the user's, in the Lobby, online here with the row moved; otherwise nothing changes; the invariant is kept |
| ChatServer.Server.HandleRegister | src/server/packet_processor.cpp:341-400 | Granted exactly for nonempty fields with free name and email; then as a login of the new user; otherwise nothing changes; the invariant is kept |
| ChatServer.Server.HandleLogout | src/server/packet_processor.cpp:403-425 | A guest in the Lobby; the user is offline without rows; everybody else is untouched; the invariant is kept |
| ChatServer.Server.MayReconnect | src/server/packet_processor.cpp:264-296 | Granted exactly when the user is stored and online, no session here has the email, and the presence row names this node or one that is not live |
| ChatServer.Server.HandleReconnect | src/server/packet_processor.cpp:264-338 | Granted exactly then; the session sits in the requested room where it may enter it, an administrator any room, and in the Lobby otherwise, with presence and rows here; the invariant is kept |
| ChatServer.Server.HandleMessage | src/server/packet_processor.cpp:428-459 | A logged-in user's message under a new id is stored once under the number of the room the session sits in and nothing else changes; a guest's changes nothing and goes once to every socket of the room; the invariant is kept |
| ChatServer.Server.HandleRoomJoin | src/server/packet_processor.cpp:462-517 | Granted exactly for a known room open to the session; then the session sits in it with the row moved, once, and in a public room its user is listed; the invariant is kept |
| ChatServer.Server.HandleRoomLeave | src/server/packet_processor.cpp:520-548 | The session sits in the Lobby with the row moved; the invariant is kept |
| ChatServer.Server.HandleRoomCreate | src/server/packet_processor.cpp:551-607 | Granted exactly for a logged-in user and a free name; then one room under the next id and one creator entry, although the event is applied here too; the invariant is kept |
| ChatServer.Server.HandleInvite | src/server/packet_processor.cpp:610-681 | Granted exactly to creator or admin, for others than admins only in private rooms; then one entry; the invariant is kept |
| ChatServer.Server.HandleRoomDelete | src/server/packet_processor.cpp:684-730 | Granted exactly to admins and for other than seed rooms; then the room is gone with exactly its rows, entries and messages and its sessions sit in the Lobby; the invariant is kept |
| ChatServer.Server.HandleKick | src/server/packet_processor.cpp:733-827 | Only by creator or admin; then the target is off the list and sits in the room no more; otherwise nothing changes; the invariant is kept |
| ChatServer.Server.ApplyPeerEvent | src/server/gossip_manager.cpp:518-872 | Every event of a peer keeps the invariant and leaves behind exactly what PeerOutcomes.PeerOutcome says of its kind, the session loops of RECONNECT and ROOM_KICK included |
| ChatServer.Server.Process | src/server/connection_manager.cpp:199-218 | Any connection, disconnection, packet or event is exactly one step of the node; a packet without a session is dropped; the invariant is kept |
| ChatServer.Server.Serve | src/server/connection_manager.cpp:199-218 | Any sequence of them is the run of the node, and nobody sits in a private room who is not admitted |
| NodeOutcomes.OpenOutcome | src/server/connection_manager.cpp:162-196 | Connecting makes one guest in the Lobby and nothing else |
| NodeOutcomes.RemoveOutcome | src/server/connection_manager.cpp:283-336 | Disconnecting removes session, seat, presence and rows together and nothing else |
| NodeOutcomes.LoginOutcome | src/server/packet_processor.cpp:211-261 | A LOGIN logs in with one Lobby seat, presence and row, or changes nothing, exactly as granted |
| NodeOutcomes.RegisterOutcome | src/server/packet_processor.cpp:341-400 | A REGISTER stores one user and logs in, or changes nothing |
| NodeOutcomes.LogoutOutcome | src/server/packet_processor.cpp:403-425 | A LOGOUT makes a guest and clears exactly the user's presence and rows |
| NodeOutcomes.ReconnectOutcome | src/server/packet_processor.cpp:264-338 | A RECONNECT resumes the user in one room exactly when the user is stored and online, no session here has the email, and the presence row names this node or one that is not live; the room is the one requested if it is known and open to the user (private: an administrator or a listed email), else the Lobby; otherwise nothing changes |
| NodeOutcomes.JoinOutcome | src/server/packet_processor.cpp:462-517 | A ROOM_JOIN moves one session and its row and lists its user in a public room, exactly when the room is known and public, or private with an administrator or a listed user asking; otherwise nothing changes |
| NodeOutcomes.CreateOutcome | src/server/packet_processor.cpp:551-607 | A ROOM_CREATE makes one room and one creator entry, or changes nothing |
| NodeOutcomes.InviteOutcome | src/server/packet_processor.cpp:610-681 | A ROOM_INVITE adds one entry without creator's rights, exactly for an administrator, or in a private room its creator; otherwise nothing changes |
| NodeOutcomes.DeleteOutcome | src/server/packet_processor.cpp:684-730 | A ROOM_DELETE removes the room with exactly its entries, rows and messages; its sessions move, and exactly its logged-in users gain a Lobby row; or it changes nothing |
| NodeOutcomes.KickOutcome | src/server/packet_processor.cpp:733-827 | A ROOM_KICK by an administrator or the room's creator, outside the Lobby and not of oneself, removes one entry and moves at most one session, the one found there, to the Lobby; otherwise nothing changes |
| NodeOutcomes.FaultOutcome | src/server/room_manager.cpp:131-294 | What failing writes leave: a failed creation nothing, a failed clearing the rows, a failed deletion sessions and tables, with the room forgotten and its sockets in the Lobby |
| PeerOutcomes.PeerOutcome | src/server/gossip_manager.cpp:518-872 | What each of the eleven events of a peer leaves behind, told from the tables before and after: the room of ROOM_CREATED with the privacy its creator chose and the creator listed, the row moved by ROOM_JOIN, the session moved by ROOM_KICK, the deletion of all that refers to a room, and nothing else |
| PeerOutcomes.MessageOutcome | src/server/packet_processor.cpp:428-459 | A client's MESSAGE stores exactly the row (id, number of the room its session sits in), if the id is new, and is pushed once; everything else stays |
| PeerOutcomes.RunMessageRooms | src/server/gossip_manager.cpp:828-871 | Over every run, a stored message was there before or is of the room its sender sat in, or its event named, when it was stored; no message changes rooms |
| NodePackets.JoinThenEvent | src/server/gossip_manager.cpp:759-803 | The ROOM_JOIN event a node applies to itself after a join changes nothing |
| NodePackets.AuthenticateIs | src/server/packet_processor.cpp:226-247 | Logging in is the Lobby join of the new user plus its presence row |
| NodePackets.ReconnectIs | src/server/packet_processor.cpp:298-333 | Both events a node applies to itself after a RECONNECT change nothing more |
| NodePackets.LogoutIs | src/server/packet_processor.cpp:403-425 | Logging out is demotion to a guest plus the cleared rows, although presence and rows are cleared twice |
| NodePackets.PacketJoinIs | src/server/packet_processor.cpp:462-517 | The whole packet, event included, is one join and one allow-list entry |
| NodePackets.PacketCreateIs | src/server/packet_processor.cpp:551-607 | The whole packet, event included, is one creation |
| NodePackets.PacketDeleteIs | src/server/packet_processor.cpp:684-730 | The whole packet, event included, is one deletion |
| NodePackets.PacketKickIs | src/server/packet_processor.cpp:733-827 | The event the node applies to itself after a kick finds nothing left to do |
| NodePackets.KickEventIs | src/server/gossip_manager.cpp:721-756 | A kick event is the Lobby join of at most one session |
| NodePackets.ReconnectEventIs | src/server/gossip_manager.cpp:557-582 | A RECONNECT to another node demotes at most one session here |
| NodeRuns.StepCore | src/server/packet_processor.cpp:211-827 | Every packet, disconnect and peer event keeps the room index, known rooms and users, and one session per user |
| NodeRuns.RunCore | src/server/packet_processor.cpp:211-827 | The same over every run, without conditions |
| NodePresence.LoginPresence | src/server/packet_processor.cpp:226-247 | A login keeps presence exactly when the name's row is free or here |
| NodePresence.RegisterPresence | src/server/packet_processor.cpp:341-400 | A REGISTER keeps presence exactly when it is refused or the name's row is free or here |
| NodePresence.PeerLogoutIff | src/server/gossip_manager.cpp:585-597 | A peer's LOGOUT keeps presence exactly when it names nobody logged in here |
| NodePresence.StepPresence | src/server/packet_processor.cpp:211-425 | A step keeps presence exactly when it is not a granted REGISTER of a name placed elsewhere and not a LOGOUT event of a user logged in here |
| NodePresence.RunPresenceIff | src/server/packet_processor.cpp:211-425 | A run is made of such steps exactly when presence holds at every point of it |
| NodePresence.BootPresence | src/server/packet_processor.cpp:211-425 | From boot, at the end of every such run, no two logged-in sessions share a user and each user's presence row names this node |
| NodeMembership.ReconnectRowIff | src/server/packet_processor.cpp:264-338 | RECONNECT leaves exactly one row exactly when the rows found were of the old and the joined room |
| NodeMembership.LoginRowIff | src/server/packet_processor.cpp:226-247 | A login ends with exactly the Lobby row exactly when the rows found were of the room the connection was in and the Lobby |
| NodeMembership.JoinRowIff | src/server/room_manager.cpp:65-128 | A join keeps the one-row law in every outcome but one: a failing insertion after the old row was removed, which is taken back in memory only |
| NodeMembership.JoinFrame | src/server/room_manager.cpp:65-128 | Where session and rows are after a join, in every outcome: a failing removal changes nothing, a failing insertion leaves the session where it was and removes the old row |
| NodeMembership.JoinEventRowIff | src/server/gossip_manager.cpp:759-803 | A ROOM_JOIN event keeps the law exactly when it takes no effect, or its user is not logged in here, or it repeats where that user sits |
| NodeMembership.LeaveEventRowIff | src/server/gossip_manager.cpp:806-825 | A ROOM_LEAVE event keeps the law exactly when its user does not sit in that room here |
| NodeMembership.LogoutEventRowIff | src/server/gossip_manager.cpp:585-597 | A LOGOUT event keeps the law exactly when its user is not logged in here |
| NodeMembership.DeleteRows | src/server/room_manager.cpp:256-294 | Which rows a room deletion removes, keeps and adds |
| NodeMembership.StepRows | src/server/packet_processor.cpp:211-827 | Every step keeps the one-row law exactly when it meets the condition of its kind; all other steps keep it always |
| NodeMembership.RunRowsIff | src/server/packet_processor.cpp:211-827 | A run meets the conditions exactly when the law holds at every point of it |
| NodeMembership.BootRows | src/server/packet_processor.cpp:211-827 | From boot, at the end of every such run, a logged-in user's rows are exactly the session's room on this node |
| NodeRoster.StepRoster | src/server/packet_processor.cpp:211-827 | A step keeps rows to registered users online exactly when it is not a ROOM_JOIN event of an offline user or a LOGOUT event of one logged in here |
| NodeRoster.BootRowsLocal | src/server/packet_processor.cpp:211-827 | The one-row law for all runs from boot without peer events and RECONNECT, with no further condition |
| NodeMirror.LoginStaleIff | src/server/packet_processor.cpp:226-247 | Logging in leaves nobody online without a session exactly when the session was not logged in |
| NodeMirror.BootMirror | src/server/packet_processor.cpp:211-827 | Without peers and without logging in over a session, presence and membership tables are exactly the logged-in sessions and their rooms |
| FailingRuns.RegisterAfterForeignLogin | src/server/packet_processor.cpp:341-400 | The run in which REGISTER leaves presence with another node |
| FailingRuns.SwitchThenReconnect | src/server/packet_processor.cpp:211-338 | The run, without peers, in which RECONNECT ends with two rows |
| FailingRuns.JoinBeforeLogin | src/server/gossip_manager.cpp:759-803 | The run in which a ROOM_JOIN event of an offline user leaves two rows after the login |
| FailingRuns.InsertFails | src/server/room_manager.cpp:95-126 | The run in which a failing insertion leaves a logged-in user without a row |
| FailingRuns.DeleteRefused | src/server/room_manager.cpp:214-294 | The run in which a refused database delete leaves the room index unsound |
| NodeMessages.StepLedger | src/server/gossip_manager.cpp:828-871 | Every step keeps pushes equal to stored rows plus rows that went with their room |
| NodeMessages.RunLedger | src/server/gossip_manager.cpp:828-871 | In every run, redeliveries included, an id's pushes are its rows lost with rooms, plus one if its row is there |
| NodeMessages.PushedAtMostOnce | src/server/gossip_manager.cpp:828-871 | Where no room is deleted an id is pushed at most once, and exactly when stored |
| NodeAccess.StepAccess | src/server/packet_processor.cpp:462-517 | Every packet, disconnect and peer event keeps private rooms closed to those not admitted |
| NodeAccess.BootAccess | src/server/packet_processor.cpp:211-827 | From boot, in every run, a session in a private room is an admin's or a listed user's |
| NodeLists.RunLists | src/database/init.sql:49-56 | In every run every allow-list entry is of a room that exists and of a registered user's email |
| NodeLists.BootCreatorManages | src/server/packet_processor.cpp:551-607 | After every run from boot, who creates a room holds the creator's entry and may enter the room, public or private |
| NodeLists.InviteAdmits | src/server/packet_processor.cpp:610-681 | After a granted invitation the invited user may enter the room and has no creator's entry that was not there before |
| NodeLists.KickShutsOut | src/server/packet_processor.cpp:733-827 | After a granted kick no session of the user sits in the room, the entry is gone, and a user who is no administrator may not enter it if it is private |
| NodeTables.BootTidy | src/database/init.sql:9-56 | After every run from boot the rooms of the table are those known, and every membership row, entry and message is of one of them |
| Vectors.SeedRooms | src/database/init.sql:63-66 | Every node boots with room 1, Lobby, and room 2, General, both public |
| NodeReplication.StepAgrees | src/server/packet_processor.cpp:211-827 | Two nodes agree on users, presence, rooms with their privacy, lists and creators, and on messages by room. After any action of a client at one, and the events it rumors at the other, they still do: what the action did here its events have done there. Membership rows agree as well, except after a ROOM_DELETE or ROOM_KICK, and then exactly when the moves to the Lobby that are not rumored change no row |
| NodeReplication.RunAgrees | src/server/packet_processor.cpp:211-827 | The same over every run of clients at one node |
| NodeReplication.BootTwins | src/database/init.sql:1-66 | Two nodes that boot with the same users and entries are a start for that |
| DividingRuns.DeleteDivides | src/server/room_manager.cpp:256-294 | The run of one node, heard by another: its administrator deletes the room he sits in and has a Lobby row here and none there |
| DividingRuns.KickDivides | src/server/gossip_manager.cpp:721-756 | The run of two nodes that hear each other: a user who sits in General at one is kicked by an administrator at the other, and her row is of the Lobby there and still of General here |
| Takeover.TakeoverIff | src/server/packet_processor.cpp:264-338 | At a node without a session of the user, RECONNECT takes the user over exactly when the presence row names this node or one for which no running connection holds an accepted HELLO |
| Takeover.OwnerDies | src/server/gossip_manager.cpp:460-489 | The run: a user is online at a peer; RECONNECT here changes nothing while the peer's connection is up, and after the connection has ended it makes the user's session, presence and rows this node's |
| EndpointRing.MergeFailoverList | src/client/endpoint_ring.cpp:14-44 | Exactly current, live directory entries and seeds that are usable, each at its first occurrence |
| EndpointRing.FirstUsableMembers | src/client/endpoint_ring.cpp:14-44 | That list is free of duplicates and holds exactly the candidates with a host and a port |
| EndpointRing.Ring.Replace | src/client/endpoint_ring.cpp:47-67 | The cursor stays on its endpoint if the new list has it, otherwise goes to the front |
| EndpointRing.Ring.RebuildEndpoints | src/client/client.cpp:204-212 | A usable current endpoint stays current, for any directory and seed |
| EndpointRing.NextIsDirectory | src/client/client.cpp:204-212 | After a rebuild the next endpoint is the first live directory entry other than the current one |
| EndpointRing.BackoffCeilingMs | src/client/endpoint_ring.cpp:94-107 | The doubling loop returns min(8000, 200 * 2^max(n, 0)) and never exceeds 8000 on the way |
| EndpointRing.CeilingMonotone | src/client/endpoint_ring.cpp:94-107 | The ceiling never falls and stays between 200 and 8000 |
| EndpointRing.CeilingSteps | src/client/endpoint_ring.cpp:94-107 | It is 200 up to attempt 0 and doubles with each attempt until it would pass 8000 |
| Supervisor.FailAndWait | src/client/client.cpp:221-235 | Steps the ring, counts the attempt, and goes on exactly below laps times ring size |
| Supervisor.SupervisorLoop | src/client/client.cpp:255-313 | The loop makes the dials of the value-level supervisor for every sequence of outcomes and pushes |
| Supervisor.RefusedRun | src/client/client.cpp:221-313 | Refusals use up exactly the rest of the budget, around the ring |
| Supervisor.BudgetFromStart | src/client/client.cpp:221-313 | Refused from the start: exactly n * L dials, L to each endpoint, then stop |
| Supervisor.BudgetAfterDrop | src/client/client.cpp:221-313 | After a live link drops: n * L - 1 further dials, L to every other endpoint and L - 1 to the dropped one |
| PeerRegistry.StepInv | src/server/gossip_manager.cpp:325-489 | Every accept, dial, HELLO, hangup, removal and close keeps the registry invariant |
| PeerRegistry.LiveIff | src/server/gossip_manager.cpp:874-881 | In every run from start a node is live exactly when a running handler holds its accepted HELLO; each id has one socket; the own entry persists without one |
| PeerRegistry.DuplicateIsHarmless | src/server/gossip_manager.cpp:460-489 | A duplicate connection is rejected and its teardown leaves the first connection's entry |
| PeerRegistry.Peers.AcceptPeer | src/server/gossip_manager.cpp:196-216 | The connection is open and read from, and nothing else changes; the invariant is kept |
| PeerRegistry.Peers.DialPeer | src/server/gossip_manager.cpp:263-283 | The connection is open, read from and filed under the address dialled, and nothing else changes; the invariant is kept |
| PeerRegistry.Peers.HandleHello | src/server/gossip_manager.cpp:339-365 | Accepted exactly for a foreign, unregistered id, whose entry then has the host and port it announced, on this connection; otherwise the entries stay and the connection ends |
| PeerRegistry.Peers.EndHandler | src/server/gossip_manager.cpp:460-470 | Exactly the nodes this connection brought are live no more; the socket is given up once |
| PeerRegistry.Peers.NodeLive | src/server/gossip_manager.cpp:874-881 | True exactly when some connection that has not ended holds an accepted HELLO of the node |
| PeerRegistry.Peers.RemovePeerSocket | src/server/gossip_manager.cpp:932-948 | The erase loop removes exactly the socket's entries |
| Decimal.ScanText | src/client/client.cpp:1075-1080 | A printed number is read back whatever follows it short of a digit |
| Decimal.StoiText | src/utils/models/room.cpp:96-139 | A printed number is read back by stoi exactly when it has 32 bits, and refused otherwise |
| Decimal.ScanSpace | src/utils/models/room.cpp:128-135 | White space in front of a number makes no difference |
| Decimal.ScanPlus | src/utils/models/room.cpp:128-135 | Nor does a plus sign |
| Decimal.ScanNone | src/utils/models/room.cpp:96-139 | No number is read where neither digit, sign nor white space is first, or no digit follows the sign |
| ChatHistory.EncodeHistory | src/server/packet_processor.cpp:125-132 | The reverse loop writes the lines last message first |
| Vectors.HistoryLines | src/server/packet_processor.cpp:125-132 | A line is author and time in brackets, a blank and the text; the last message of the list comes first |
| ChatHistory.PlainLine | src/client/client.cpp:1057-1096 | A line without a bracket in front, or without a closing one, is the system's with its whole text |
| ChatHistory.AuthoredLine | src/client/client.cpp:1057-1096 | An author in brackets and a text without a time behind it, less one blank |
| ChatHistory.TimedLine | src/client/client.cpp:1057-1096 | Author, time and text; a time that is no number is zero |
| ChatHistory.HistoryRoundTripIff | src/server/packet_processor.cpp:125-132 | Authors, times and texts come back, oldest first, exactly when no author has a bracket or newline and no text a newline |
| ChatHistory.ClientRoundTripIff | src/client/client.cpp:1057-1096 | The same for the console client, times modulo 2^64 |
| ChatHistory.NegativeTimeWraps | src/client/client.cpp:1057-1096 | A message of the second before 1970 is read with the time 2^64 - 1 |
| ChatHistory.BrowserRoundTripIff | web/src/service/packet.js:204-234 | The same for the browser and 64-bit times, which are exact below 2^53 |
| ChatHistory.ReadIsPlain | src/client/client.cpp:1057-1096 | No text whatever makes a reader produce a row with such characters |
| ChatHistory.ParseHistoryPayload | src/client/client.cpp:1057-1096 | The index-moving parser reads exactly the nonempty lines, in order |
| ChatHistory.ParseHistory | web/src/service/packet.js:204-234 | The browser's parser reads exactly the nonempty lines, in order |
| TextLists.ReadConcat | src/utils/models/room.cpp:154-183 | A list is read as its two halves are |
| TextLists.BadPieceRemovesItself | src/utils/models/room.cpp:154-183 | A malformed piece removes only itself |
| RoomDirectory.RoomRoundTripIff | src/utils/models/room.cpp:96-139 | A room survives exactly when its name has no bar |
| RoomDirectory.ReadRoomIff | src/utils/models/room.cpp:103-139 | A text is read as this room exactly when it is the prefix, a number, the name, a type and a privacy between the first three bars, and a closing bracket; unknown types are Other, unknown privacies public |
| Vectors.RoomTexts | src/utils/models/room.cpp:96-139 | A room in plain characters: number, name, type and privacy between bars |
| Vectors.TypeTexts | src/utils/models/room.cpp:21-36 | The names of the room types |
| RoomDirectory.ListRoundTripIff | src/utils/models/room.cpp:142-183 | A list survives exactly when no name has a bar or semicolon |
| RoomDirectory.SerializeList | src/utils/models/room.cpp:142-151 | The written list reads back under exactly that condition |
| RoomDirectory.DeserializeList | src/utils/models/room.cpp:154-183 | Exactly the rooms of the acceptable pieces, in order |
| RoomDirectory.BrowserReadsList | web/src/service/packet.js:162-201 | The browser reads the server's list under the same condition |
| RoomDirectory.ParseRoomList | web/src/service/packet.js:186-201 | Exactly the rooms of the acceptable pieces, in order |
| ServerDirectory.EndpointRoundTripIff | src/utils/models/client_endpoint.cpp:32-78 | An endpoint survives exactly when node id, host and port are not empty or zero and the two texts have no bar |
| ServerDirectory.ReadEndpointIff | src/utils/models/client_endpoint.cpp:37-78 | A text is read as this endpoint exactly when it is the prefix, two texts that are not empty and a port from 1 to 65535 around exactly two bars, and a closing bracket |
| Vectors.EndpointText | src/utils/models/client_endpoint.cpp:32-78 | An endpoint in plain characters: node, host and port between bars |
| ServerDirectory.DirectoryRoundTripIff | src/server/gossip_manager.cpp:61-71 | A client reads back exactly the advertised entries exactly when their texts have no bar or semicolon |
| ServerDirectory.ReadIsClean | src/utils/models/client_endpoint.cpp:37-78 | Every entry read from any text is live and clean |
| ServerDirectory.BuildServerDirectoryLocked | src/server/gossip_manager.cpp:61-71 | The loop writes exactly the live entries |
| ServerDirectory.ApplyServerDirectoryPush | src/client/client.cpp:174-198 | The directory becomes exactly the acceptable pieces, in order, and the ring is rebuilt around the endpoint in use |

## Left out

- Sockets, threads, locks, condition variables, clocks and random numbers: recv is an arbitrary nonempty piece; times, jitter, guest names and dial outcomes are inputs; each handled packet or event is one atomic step.
- SQLite and its SQL: the tables are maps with foreign keys, unique names and emails and cascading deletes; writes fail only where `joinRoom`, `createRoom` and `deleteRoom` model it.
- Password hashing: the outcome of a login check is an input.
- UPDATE_USER renames, and packets that change no table: HEARTBEAT, ROOM_LIST, LOAD_MESSAGE_HISTORY's query.
- Response packets and directory pushes to clients: only the state changes, the broadcast targets and the texts are modelled.
- SHA-1, the HTTP upgrade text and WebSocket fragmentation, which the decoder refuses.
- dialLoop, stop() and the restart of a node: a cluster run has a fixed set of nodes with logs that start empty.
- The 1 MiB packet limit on digests and pulls: packets in the gossip model have any length.
- GossipCluster.RunKeepsInv: takes it as given that an id rumored again carries the same packet; in `ChatCluster` this follows from ids being new, and `ClusterIds.IdsAreNewIff` says when the ids drawn from the counters are.
- ClusterIds.IdsAreNewIff: counters do not wrap around, the clock is not before 1970, and names, texts and ids fit a packet's fields.
- NodeRuns.RunCore: event ids are taken as fresh when a node rumors, so its own events are applied at once; a peer's events may come in any order and any number of times.
- ChatCluster.NodeIsFold: an action whose rumors would not be under new ids, which is the LOGOUT clash of `ClusterIds.IdsAreNewIff`, does not happen in the model, where the source drops the rumor while the id is in its window; the text of a message is not part of the tables.
- NodePresence.BootPresence: is about one node.
- NodeReplication.RunAgrees: one node's clients act and the other node applies their events at once and in order; what reordering and late events do is in the findings about single nodes.
- ChatServer.Server.OpenSession: a failing welcome message, after which the source drops the session, is the composition with RemoveSession.
- ChatServer.Server.ApplyPeerEvent: takes an event as decoded; the refusal of a USER_CREATED event without a password hash is in `EventText.Meaning`, and the hash itself is not stored.
- ChatHistory.BrowserRoundTripIff: Number() on texts other than decimal 64-bit integers is a parameter.
- WebPacket.EncodePacket: strings are their UTF-8 bytes; times are below 2^53 as Date.now() gives them.
- ServerDirectory.EndpointRoundTripIff: the width of unsigned long is a parameter, since it differs between platforms.
