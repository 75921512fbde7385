/** Two runs of the cluster of chat nodes, with all ids drawn from the counters: one in which a node's own ROOM_JOIN
    comes back and moves its user's row, and one in which a message that comes too early is never stored. */
module ClusterRuns {
  import opened ChatCluster
  import opened ClusterIds
  import opened ClusterMessages
  import opened ClusterSteps
  import PacketCodec
  import L = GossipLog
  import G = GossipCluster
  import V = GossipConvergence
  import R = GossipRuns
  import X = RoomIndex
  import Q = Seqs
  import C = ChatNode
  import N = NodeRuns
  import S = NodeShapes
  import P = NodePackets
  import M = NodeMessages
  import O = NodeOutcomes
  import F = FailingRuns
  import T = EventText
  import E = NodeEvents
  import I = EventIds
  import Bytes

  // ---------------------------------------------------------------- what the client's actions rumor

  lemma EmitsConnect(n: C.Node, j: C.Socket, guest: C.User)
    ensures E.Emitted(n, N.DoConnect(j, guest)) == []
  {}

  lemma EmitsLogin(n: C.Node, boot: C.Node, j: C.Socket, guest: C.User, ann: string)
    requires F.Alone(n, boot, j, C.Session(guest, C.LOBBY, false)) && n.db.online == map[] && ann in n.db.users
    ensures E.Emitted(n, N.DoLogin(j, ann, true))
         == [C.LoginEvent(ann, n.self), C.RoomJoinEvent(ann, n.self, C.LOBBY.name, C.LOBBY.name)]
  {
    hide S.Core;
  }

  lemma EmitsJoin(n: C.Node, boot: C.Node, j: C.Socket, u: C.User)
    requires F.Alone(n, boot, j, C.Session(u, C.LOBBY, true))
    ensures E.Emitted(n, N.DoRoomJoin(j, C.GENERAL.name))
         == [C.RoomJoinEvent(u.name, n.self, C.LOBBY.name, C.GENERAL.name)]
  {
    S.CoreKnown(n);
    hide S.Core;
  }

  lemma EmitsLeave(n: C.Node, boot: C.Node, j: C.Socket, u: C.User)
    requires F.Alone(n, boot, j, C.Session(u, C.GENERAL, true))
    ensures E.Emitted(n, N.DoRoomLeave(j)) == [C.RoomJoinEvent(u.name, n.self, C.GENERAL.name, C.LOBBY.name)]
  {
    hide S.Core;
  }

  lemma EmitsMessage(n: C.Node, boot: C.Node, j: C.Socket, u: C.User, id: string, text: string)
    requires F.Alone(n, boot, j, C.Session(u, C.LOBBY, true)) && text != ""
    ensures E.Emitted(n, N.DoMessage(j, id, text)) == [C.MessageEvent(id, u.name, C.LOBBY.name)]
  {
    hide S.Core;
  }

  lemma Said(n: C.Node, boot: C.Node, j: C.Socket, s: C.Session, id: string, text: string)
    requires F.Alone(n, boot, j, s)
    ensures F.Alone(N.Step(n, N.DoMessage(j, id, text)), boot, j, s)
  {
    hide S.Core;
    N.StepCore(n, N.DoMessage(j, id, text));
    hide N.Step;
    N.StepIs(n, N.DoMessage(j, id, text));
  }

  lemma AloneSelf(n: C.Node, boot: C.Node, j: C.Socket, s: C.Session)
    requires F.Alone(n, boot, j, s)
    ensures n.self == boot.self && n.db.users == boot.db.users && j in n.sessions && n.sessions[j] == s
  {}

  // ---------------------------------------------------------------- the stages of the runs

  lemma StageConnect(s0: System, home: NodeId, j: C.Socket, guest: C.User) returns (xs: seq<Ask>, r: System, book: Book)
    requires Start(s0) && NamesApart(s0) && home in s0.chats
    ensures At(s0, xs, r, book, home) && home in book && |book[home].asked| == 0
    ensures Others(s0, r, home) && home in r.chats && home in r.cluster.nodes && r.cluster.nodes[home].applied == []
    ensures F.Alone(r.chats[home], s0.chats[home], j, C.Session(guest, C.LOBBY, false))
    ensures r.chats[home].db == s0.chats[home].db
  {
    Booted(s0, home);
    hide *;
    AtStart(s0, home);
    EmitsConnect(s0.chats[home], j, guest);
    NothingToWrite(s0.chats[home].self, "hello");
    var stamps;
    xs, r, book, stamps := Go(s0, [], s0, NoBook(s0), home, N.DoConnect(j, guest), [], "hello", {});
    AfterGo(s0, r, home, N.Step(s0.chats[home], N.DoConnect(j, guest)), [], stamps, {});
    F.Connected(s0.chats[home], j, guest);
    AtParts(s0, xs, r, book, home);
  }

  lemma Booted(s0: System, home: NodeId)
    requires Start(s0) && home in s0.chats
    ensures N.Boot(s0.chats[home]) && home in s0.cluster.nodes && s0.cluster.nodes[home] == G.Node(L.EMPTY, [])
    ensures s0.emitted == map[]
  {
    hide N.Boot;
  }

  lemma NothingToWrite(self: string, text: string)
    ensures CanWrite(self, [], 0, text)
  {}

  lemma StageLogin(s0: System, home: NodeId, j: C.Socket, ann: string, guest: C.User)
    returns (xs: seq<Ask>, r: System, book: Book)
    requires Start(s0) && NamesApart(s0) && home in s0.chats && ann in s0.chats[home].db.users
    requires Short(ann) && Short(s0.chats[home].self)
    ensures At(s0, xs, r, book, home) && home in book && |book[home].asked| == 2
    ensures Others(s0, r, home) && home in r.chats && home in r.cluster.nodes && |r.cluster.nodes[home].applied| == 2
    ensures F.Alone(r.chats[home], s0.chats[home], j, C.Session(s0.chats[home].db.users[ann], C.LOBBY, true))
    ensures s0.chats[home].db.users[ann].name == ann
  {
    NobodyOnline(s0, home);
    hide *;
    var ys, s, early := StageConnect(s0, home, j, guest);
    AloneSelf(s.chats[home], s0.chats[home], j, C.Session(guest, C.LOBBY, false));
    var n, self := s.chats[home], s.chats[home].self;
    EmitsLogin(n, s0.chats[home], j, guest, ann);
    var events := [C.LoginEvent(ann, self), C.RoomJoinEvent(ann, self, C.LOBBY.name, C.LOBBY.name)];
    Fixed();
    LoginWritable(self, ann);
    WriteAll(self, events, 0, "hello");
    var stamps;
    xs, r, book, stamps := Go(s0, ys, s, early, home, N.DoLogin(j, ann, true), events, "hello", {});
    AfterGo(s, r, home, N.Step(n, N.DoLogin(j, ann, true)), events, stamps, {});
    OthersTrans(s0, s, r, home);
    F.LoggedIn(n, s0.chats[home], j, guest, ann);
  }

  lemma NobodyOnline(s0: System, home: NodeId)
    requires Start(s0) && home in s0.chats
    ensures s0.chats[home].db.online == map[]
  {}

  lemma LoginWritable(self: string, ann: string)
    requires Short(ann)
    ensures forall e: C.Event ::
            e in [C.LoginEvent(ann, self), C.RoomJoinEvent(ann, self, C.LOBBY.name, C.LOBBY.name)] ==>
              Writable(self, e) && !e.MessageEvent?
  {
    Fixed();
    hide Short;
  }

  lemma JoinWritable(self: string, ann: string, prev: C.Room, room: C.Room)
    requires Short(ann) && (prev == C.LOBBY || prev == C.GENERAL) && (room == C.LOBBY || room == C.GENERAL)
    ensures Writable(self, C.RoomJoinEvent(ann, self, prev.name, room.name))
  {
    Fixed();
    hide Short;
  }

  /** The event p is ann's move to General, and its id can go into a digest. */
  ghost predicate JoinPacket(p: PacketCodec.Packet, self: string, ann: string)
  {
    && p.kind == PacketCodec.GOSSIP_EVENT && L.IdOf(p) != [] && L.BAR !in L.IdOf(p)
    && T.Meaning(p) == Bytes.Some(C.RoomJoinEvent(ann, self, C.LOBBY.name, C.GENERAL.name))
  }

  lemma StageGeneral(s0: System, home: NodeId, peer: NodeId, j: C.Socket, ann: string, guest: C.User)
    returns (xs: seq<Ask>, r: System, book: Book, p: PacketCodec.Packet)
    requires Start(s0) && NamesApart(s0) && home in s0.chats && peer in s0.chats && home != peer
    requires ann in s0.chats[home].db.users
    requires Short(ann) && Short(s0.chats[home].self) && '|' !in ann && '|' !in s0.chats[home].self
    ensures At(s0, xs, r, book, home) && home in book && |book[home].asked| == 3
    ensures Others(s0, r, home) && home in r.chats && home in r.cluster.nodes
    ensures |r.cluster.nodes[home].applied| == 3 && r.cluster.nodes[home].applied[2] == L.IdOf(p)
    ensures F.Alone(r.chats[home], s0.chats[home], j, C.Session(s0.chats[home].db.users[ann], C.GENERAL, true))
    ensures JoinPacket(p, s0.chats[home].self, ann) && G.Envelope(home, peer, p) in r.cluster.wire
    ensures s0.chats[home].db.users[ann].name == ann
  {
    hide *;
    var ys, s, early := StageLogin(s0, home, j, ann, guest);
    var n, u, a := s.chats[home], s0.chats[home].db.users[ann], N.DoRoomJoin(j, C.GENERAL.name);
    AloneSelf(n, s0.chats[home], j, C.Session(u, C.LOBBY, true));
    var self := n.self;
    EmitsJoin(n, s0.chats[home], j, u);
    var e := C.RoomJoinEvent(ann, self, C.LOBBY.name, C.GENERAL.name);
    JoinWritable(self, ann, C.LOBBY, C.GENERAL);
    var st;
    SayableIf(self, e, |early[home].asked|);
    SayableProper(self, e, |early[home].asked|);
    xs, r, book, st := GoOne(s0, ys, s, early, home, a, e, {peer});
    DoneParts(s, r, home, N.Step(n, a), self, e, st, {peer});
    OthersTrans(s0, s, r, home);
    F.Moved(n, s0.chats[home], j, ann);
    p := L.Outgoing(home, RumorFor(self, e, st));
    JoinSent(home, self, ann, e, st, |early[home].asked| + 1);
  }

  lemma JoinSent(home: NodeId, self: string, ann: string, e: C.Event, st: Stamp, number: nat)
    requires '|' !in self && '|' !in ann && e == C.RoomJoinEvent(ann, self, C.LOBBY.name, C.GENERAL.name)
    requires st == StampFor(self, e, number, "hello") && Proper(self, e, st)
    ensures JoinPacket(L.Outgoing(home, RumorFor(self, e, st)), self, ann)
    ensures L.IdOf(L.Outgoing(home, RumorFor(self, e, st))) == T.AsBytes(st.id)
  {
    hide *;
    JoinId(self, ann, number);
    ProperNarrow(self, e, st);
    ProperMeans(self, e, st);
    SenderDoesNotMatter(home, RumorFor(self, e, st));
    OutgoingKind(home, RumorFor(self, e, st));
    assert '|' !in "ROOM_JOIN";
    NoBar(self, "ROOM_JOIN", ann, number);
    JoinPacketIf(L.Outgoing(home, RumorFor(self, e, st)), self, ann);
  }

  lemma JoinId(self: string, ann: string, number: nat)
    ensures StampFor(self, C.RoomJoinEvent(ann, self, C.LOBBY.name, C.GENERAL.name), number, "hello").id
         == I.MakeId(self, "ROOM_JOIN", ann, 0, number)
  {
    hide I.MakeId;
  }

  lemma JoinPacketIf(p: PacketCodec.Packet, self: string, ann: string)
    requires p.kind == PacketCodec.GOSSIP_EVENT && L.IdOf(p) != [] && L.BAR !in L.IdOf(p)
    requires T.Meaning(p) == Bytes.Some(C.RoomJoinEvent(ann, self, C.LOBBY.name, C.GENERAL.name))
    ensures JoinPacket(p, self, ann)
  {
    hide L.IdOf, T.Meaning;
  }

  lemma ProperNarrow(self: string, e: C.Event, st: Stamp)
    requires Proper(self, e, st)
    ensures T.Narrow(st.id)
  {
    StampNarrow(self, e, st);
  }

  lemma NoBar(self: string, kind: string, user: string, number: nat)
    requires '|' !in self && '|' !in kind && '|' !in user && T.Narrow(I.MakeId(self, kind, user, 0, number))
    ensures L.BAR !in T.AsBytes(I.MakeId(self, kind, user, 0, number))
  {
    hide I.MakeId;
    var id := I.MakeId(self, kind, user, 0, number);
    forall i | 0 <= i < |id| ensures T.AsBytes(id)[i] != L.BAR {
      assert id[i] in id;
      I.IdChars(self, kind, user, 0, number, id[i]);
    }
  }

  /** An event delivered to a node with an empty log is all that its log then holds. */
  lemma FirstDelivery(c: G.Cluster, step: G.Action)
    requires step.Deliver? && step.again && step.envelope in c.wire
    requires step.envelope.dst in c.nodes && c.nodes[step.envelope.dst] == G.Node(L.EMPTY, [])
    requires step.envelope.packet.kind == PacketCodec.GOSSIP_EVENT && L.IdOf(step.envelope.packet) != []
    ensures Applies(c, step) && Delivered(c, G.Step(c, step), step)
  {
    hide L.IdOf;
    assert Q.Last([] + [L.IdOf(step.envelope.packet)], L.MAX_EVENT_LOG) == [L.IdOf(step.envelope.packet)];
  }

  ghost predicate Delivered(c: G.Cluster, d: G.Cluster, step: G.Action)
    requires step.Deliver?
  {
    var n := step.envelope.dst;
    && n in c.nodes && d.nodes.Keys == c.nodes.Keys && (forall m :: m in c.nodes && m != n ==> d.nodes[m] == c.nodes[m])
    && L.IdOf(step.envelope.packet) in d.nodes[n].log.seen && HoldsOne(d.nodes[n].log, step.envelope.packet)
  }

  lemma DeliveredParts(c: G.Cluster, d: G.Cluster, step: G.Action, home: NodeId)
    requires step.Deliver? && Delivered(c, d, step) && home in c.nodes && home != step.envelope.dst
    ensures step.envelope.dst in d.nodes && home in d.nodes && d.nodes[home] == c.nodes[home]
    ensures L.IdOf(step.envelope.packet) in d.nodes[step.envelope.dst].log.seen
    ensures HoldsOne(d.nodes[step.envelope.dst].log, step.envelope.packet)
  {
    hide L.IdOf, HoldsOne;
  }

  ghost predicate HoldsOne(l: L.Log, p: PacketCodec.Packet)
  {
    l.recent == [L.IdOf(p)] && L.IdOf(p) in l.events && l.events[L.IdOf(p)] == p
  }

  /** A peer that has applied nothing yet hears of an event of the home node. */
  lemma PeerHears(s0: System, ys: seq<Ask>, s: System, book: Book, home: NodeId, peer: NodeId, p: PacketCodec.Packet,
                  e: C.Event, guest: C.User)
    returns (xs: seq<Ask>, r: System)
    requires At(s0, ys, s, book, home) && home != peer && home in s.chats && home in s.cluster.nodes && peer in s.chats
    requires peer in s.cluster.nodes && s.cluster.nodes[peer] == G.Node(L.EMPTY, [])
    requires G.Envelope(home, peer, p) in s.cluster.wire
    requires p.kind == PacketCodec.GOSSIP_EVENT && L.IdOf(p) != [] && T.Meaning(p) == Bytes.Some(e)
    ensures At(s0, xs, r, book, home) && home in r.chats && peer in r.chats && home in r.cluster.nodes
    ensures peer in r.cluster.nodes
    ensures r.chats[home] == s.chats[home] && r.cluster.nodes[home] == s.cluster.nodes[home] && r.emitted == s.emitted
    ensures r.chats[peer] == N.Step(s.chats[peer], N.DoPeer(e, guest))
    ensures L.IdOf(p) in r.cluster.nodes[peer].log.seen && HoldsOne(r.cluster.nodes[peer].log, p)
  {
    hide *;
    var step := G.Deliver(G.Envelope(home, peer, p), 0, true);
    FirstDelivery(s.cluster, step);
    xs, r := Hear(s0, ys, s, book, home, step, guest);
    DeliveredParts(s.cluster, r.cluster, step, home);
    HeardEvent(s, home, peer, p, guest, e, r);
  }

  /** The move to General reaches the peer, which holds it from now on. */
  lemma StageHeard(s0: System, home: NodeId, peer: NodeId, j: C.Socket, ann: string, guest: C.User)
    returns (xs: seq<Ask>, r: System, book: Book, p: PacketCodec.Packet)
    requires Start(s0) && NamesApart(s0) && home in s0.chats && peer in s0.chats && home != peer
    requires ann in s0.chats[home].db.users
    requires Short(ann) && Short(s0.chats[home].self) && '|' !in ann && '|' !in s0.chats[home].self
    ensures At(s0, xs, r, book, home) && home in book && |book[home].asked| == 3 && home in r.chats
    ensures home in r.cluster.nodes && |r.cluster.nodes[home].applied| == 3
    ensures r.cluster.nodes[home].applied[2] == L.IdOf(p)
    ensures peer in r.cluster.nodes && HoldsOne(r.cluster.nodes[peer].log, p)
    ensures F.Alone(r.chats[home], s0.chats[home], j, C.Session(s0.chats[home].db.users[ann], C.GENERAL, true))
    ensures JoinPacket(p, s0.chats[home].self, ann) && s0.chats[home].db.users[ann].name == ann
  {
    Booted(s0, peer);
    hide *;
    var ys, s, early;
    ys, s, early, p := StageGeneral(s0, home, peer, j, ann, guest);
    PacketParts(p, s0.chats[home].self, ann);
    OthersAt(s0, s, home, peer);
    book := early;
    var e := C.RoomJoinEvent(ann, s0.chats[home].self, C.LOBBY.name, C.GENERAL.name);
    xs, r := PeerHears(s0, ys, s, early, home, peer, p, e, guest);
  }

  lemma PacketParts(p: PacketCodec.Packet, self: string, ann: string)
    requires JoinPacket(p, self, ann)
    ensures p.kind == PacketCodec.GOSSIP_EVENT && L.IdOf(p) != [] && L.BAR !in L.IdOf(p)
    ensures T.Meaning(p) == Bytes.Some(C.RoomJoinEvent(ann, self, C.LOBBY.name, C.GENERAL.name))
  {
    hide T.Meaning, L.IdOf;
  }

  lemma OthersAt(s: System, r: System, home: NodeId, m: NodeId)
    requires Others(s, r, home) && m != home && m in s.cluster.nodes && m in s.chats
    ensures m in r.cluster.nodes && r.cluster.nodes[m] == s.cluster.nodes[m] && m in r.chats && r.chats[m] == s.chats[m]
  {}

  /** ann says hello, count times. */
  lemma {:induction false} Chatter(s0: System, xs: seq<Ask>, s: System, book: Book, home: NodeId, j: C.Socket,
                                   u: C.User, count: nat)
    returns (ys: seq<Ask>, r: System, after: Book)
    requires home in s.chats && home in book && home in s0.chats && At(s0, xs, s, book, home)
    requires |book[home].asked| + count < 900 && Short(u.name) && Short(s0.chats[home].self)
    requires F.Alone(s.chats[home], s0.chats[home], j, C.Session(u, C.LOBBY, true)) && home in s.cluster.nodes
    ensures At(s0, ys, r, after, home) && Others(s, r, home) && home in r.chats && home in r.cluster.nodes
    ensures F.Alone(r.chats[home], s0.chats[home], j, C.Session(u, C.LOBBY, true))
    ensures s.cluster.nodes[home].applied <= r.cluster.nodes[home].applied
    ensures |r.cluster.nodes[home].applied| == |s.cluster.nodes[home].applied| + count
    decreases count
  {
    hide *;
    if count == 0 {
      ys, r, after := xs, s, book;
      OthersSame(s, home);
    } else {
      var n := s.chats[home];
      var self := n.self;
      AloneSelf(n, s0.chats[home], j, C.Session(u, C.LOBBY, true));
      var id := StampFor(self, C.MessageEvent("", u.name, C.LOBBY.name), |book[home].asked| + 1, "hello").id;
      var a, e := N.DoMessage(j, id, "hello"), C.MessageEvent(id, u.name, C.LOBBY.name);
      assert "hello" != "";
      EmitsMessage(n, s0.chats[home], j, u, id, "hello");
      MessageWritable(self, e, id, |book[home].asked| + 1);
      SayableIf(self, e, |book[home].asked|);
      var zs, m, early, st := GoOne(s0, xs, s, book, home, a, e, {});
      DoneParts(s, m, home, N.Step(n, a), self, e, st, {});
      Said(n, s0.chats[home], j, C.Session(u, C.LOBBY, true), id, "hello");
      ys, r, after := Chatter(s0, zs, m, early, home, j, u, count - 1);
      OthersTrans(s, m, r, home);
    }
  }

  lemma OthersSame(s: System, home: NodeId)
    ensures Others(s, s, home)
  {}

  /** The id of a message's event does not depend on the message's own id. */
  lemma MessageWritable(self: string, e: C.Event, id: string, number: nat)
    requires e.MessageEvent? && e == C.MessageEvent(id, e.user, C.LOBBY.name) && Short(e.user)
    requires id == StampFor(self, C.MessageEvent("", e.user, C.LOBBY.name), number, "hello").id
    ensures Writable(self, e) && e.id == StampFor(self, e, number, "hello").id
  {
    Fixed();
    hide Short, IdAt;
  }

  // ---------------------------------------------------------------- a node's own event comes back

  /** After exactly 256 further applications an id has left the window. */
  lemma OutOfWindow(c: G.Cluster, n: NodeId, i: nat)
    requires G.Inv(c) && n in c.nodes && |c.nodes[n].applied| == i + 1 + L.MAX_EVENT_LOG
    ensures c.nodes[n].applied[i] !in c.nodes[n].log.seen
  {
    assert G.NodeOk(c.nodes[n], c.rumored);
    hide L.IdOf;
    var applied, recent := c.nodes[n].applied, c.nodes[n].log.recent;
    forall k | 0 <= k < |recent| ensures recent[k] != applied[i] { assert recent[k] == applied[i + 1 + k]; }
  }

  /** What the packets of an exchange with the peer do before the event itself: nothing to the chat nodes. */
  lemma Offered(s0: System, xs: seq<Ask>, s: System, book: Book, home: NodeId, peer: NodeId, p: PacketCodec.Packet,
                guest: C.User)
    returns (ys: seq<Ask>, r: System)
    requires At(s0, xs, s, book, home) && home in s.cluster.nodes && peer in s.cluster.nodes
    requires HoldsOne(s.cluster.nodes[peer].log, p) && p.kind == PacketCodec.GOSSIP_EVENT && L.IdOf(p) != []
    requires L.BAR !in L.IdOf(p)
    requires L.IdOf(p) !in s.cluster.nodes[home].log.seen
    ensures At(s0, ys, r, book, home) && r.chats == s.chats && r.cluster.nodes == s.cluster.nodes
    ensures G.Envelope(peer, home, p) in r.cluster.wire
  {
    hide *;
    var a, b, x := s.cluster.nodes[peer].log, s.cluster.nodes[home].log, L.IdOf(p);
    OneOffer(a, b, p);
    Kinds(peer, a);
    var step1 := G.SendDigest(peer, 0, {home});
    var d1 := V.DigestSent(s.cluster, peer, home, 0);
    NoEvent(s.cluster, step1);
    var zs, r1 := Hear(s0, xs, s, book, home, step1, guest);
    HeardNothing(s, step1, guest, r1);
    var digest := G.DigestPacket(peer, 0, a);
    var step2 := G.Deliver(G.Envelope(peer, home, digest), 0, true);
    var d2 := V.DigestDelivered(d1, peer, home, digest, 0);
    NoEvent(d1, step2);
    var r2;
    zs, r2 := Hear(s0, zs, r1, book, home, step2, guest);
    HeardNothing(r1, step2, guest, r2);
    var pull := PacketCodec.Packet(PacketCodec.GOSSIP_PULL, home, peer, [], Q.Join([x], L.BAR), 0, 0);
    var step3 := G.Deliver(G.Envelope(home, peer, pull), 0, true);
    var d3 := V.PullDelivered(d2, home, peer, pull, 0);
    NoEvent(d2, step3);
    ys, r := Hear(s0, zs, r2, book, home, step3, guest);
    HeardNothing(r2, step3, guest, r);
    assert p in [p];
  }

  lemma Kinds(n: NodeId, l: L.Log)
    ensures PacketCodec.GOSSIP_PULL != PacketCodec.GOSSIP_EVENT
    ensures G.DigestPacket(n, 0, l).kind != PacketCodec.GOSSIP_EVENT
  {}

  lemma NoEvent(c: G.Cluster, step: G.Action)
    requires step.SendDigest? || (step.Deliver? && step.envelope.packet.kind != PacketCodec.GOSSIP_EVENT)
    ensures !Applies(c, step) && !step.Rumor?
  {}

  lemma OneOffer(a: L.Log, b: L.Log, p: PacketCodec.Packet)
    requires HoldsOne(a, p) && p.kind == PacketCodec.GOSSIP_EVENT && L.IdOf(p) != [] && L.BAR !in L.IdOf(p)
    requires L.IdOf(p) !in b.seen
    ensures L.Unseen(b, Q.Pieces(L.DigestText(a), L.BAR)) == [L.IdOf(p)]
    ensures Q.Pieces(Q.Join([L.IdOf(p)], L.BAR), L.BAR) == [L.IdOf(p)]
    ensures L.Lookup(a, [L.IdOf(p)]) == [p]
  {
    hide *;
    HoldsOneIf(a, p);
    R.OneOffered(a, b, p);
  }

  lemma HoldsOneIf(l: L.Log, p: PacketCodec.Packet)
    ensures HoldsOne(l, p) <==> l.recent == [L.IdOf(p)] && L.IdOf(p) in l.events && l.events[L.IdOf(p)] == p
  {
    hide L.IdOf;
  }

  /** It takes effect a second time. */
  lemma ComesBack(s0: System, xs: seq<Ask>, s: System, book: Book, home: NodeId, peer: NodeId, p: PacketCodec.Packet,
                  e: C.Event, guest: C.User)
    returns (ys: seq<Ask>, r: System)
    requires At(s0, xs, s, book, home) && home in s.cluster.nodes && peer in s.cluster.nodes && home in s.chats
    requires HoldsOne(s.cluster.nodes[peer].log, p) && p.kind == PacketCodec.GOSSIP_EVENT && L.IdOf(p) != []
    requires L.BAR !in L.IdOf(p)
    requires L.IdOf(p) !in s.cluster.nodes[home].log.seen && T.Meaning(p) == Bytes.Some(e)
    ensures At(s0, ys, r, book, home) && home in r.chats && r.chats[home] == N.Step(s.chats[home], N.DoPeer(e, guest))
  {
    hide *;
    var zs, m := Offered(s0, xs, s, book, home, peer, p, guest);
    var step := G.Deliver(G.Envelope(peer, home, p), 0, true);
    FreshApplies(m.cluster, step);
    ys, r := Hear(s0, zs, m, book, home, step, guest);
    HeardEvent(m, peer, home, p, guest, e, r);
  }

  lemma FreshApplies(c: G.Cluster, step: G.Action)
    requires step.Deliver? && step.envelope in c.wire && step.envelope.dst in c.nodes
    requires step.envelope.packet.kind == PacketCodec.GOSSIP_EVENT && L.IdOf(step.envelope.packet) != []
    requires L.IdOf(step.envelope.packet) !in c.nodes[step.envelope.dst].log.seen
    ensures Applies(c, step)
  {
    hide L.IdOf;
  }

  /** ann has left General again and said so much that her move there has left the window. */
  lemma StageForgotten(s0: System, home: NodeId, peer: NodeId, j: C.Socket, ann: string, guest: C.User)
    returns (xs: seq<Ask>, r: System, book: Book, p: PacketCodec.Packet)
    requires Start(s0) && NamesApart(s0) && home in s0.chats && peer in s0.chats && home != peer
    requires ann in s0.chats[home].db.users
    requires Short(ann) && Short(s0.chats[home].self) && '|' !in ann && '|' !in s0.chats[home].self
    ensures At(s0, xs, r, book, home) && home in r.chats && home in r.cluster.nodes && peer in r.cluster.nodes
    ensures L.IdOf(p) !in r.cluster.nodes[home].log.seen && HoldsOne(r.cluster.nodes[peer].log, p)
    ensures F.Alone(r.chats[home], s0.chats[home], j, C.Session(s0.chats[home].db.users[ann], C.LOBBY, true))
    ensures JoinPacket(p, s0.chats[home].self, ann) && s0.chats[home].db.users[ann].name == ann
  {
    hide *;
    var boot, u := s0.chats[home], s0.chats[home].db.users[ann];
    var zs, s, early;
    zs, s, early, p := StageHeard(s0, home, peer, j, ann, guest);
    var n := s.chats[home];
    AloneSelf(n, boot, j, C.Session(u, C.GENERAL, true));
    EmitsLeave(n, boot, j, u);
    JoinWritable(n.self, ann, C.GENERAL, C.LOBBY);
    var e := C.RoomJoinEvent(ann, n.self, C.GENERAL.name, C.LOBBY.name);
    SayableIf(n.self, e, |early[home].asked|);
    var ys, m, book1, st := GoOne(s0, zs, s, early, home, N.DoRoomLeave(j), e, {});
    DoneParts(s, m, home, N.Step(n, N.DoRoomLeave(j)), n.self, e, st, {});
    F.LeftGeneral(n, boot, j, ann);
    xs, r, book := Chatter(s0, ys, m, book1, home, j, u, 255);
    OthersTrans(s, m, r, home);
    PeerSame(s, r, home, peer);
    AtParts(s0, xs, r, book, home);
    InvParts(r, s0.chats);
    MaxIs();
    OutOfWindow(r.cluster, home, 2);
  }

  lemma MaxIs()
    ensures L.MAX_EVENT_LOG == 256
  {}

  lemma PeerSame(s: System, r: System, home: NodeId, m: NodeId)
    requires Others(s, r, home) && m != home && m in s.cluster.nodes
    ensures m in r.cluster.nodes && r.cluster.nodes[m] == s.cluster.nodes[m]
  {}

  /** One run of the cluster, from a start, in which a node's own event breaks the membership law. ann logs in at
      home, goes to General, which a peer hears of, comes back to the Lobby and says hello 255 times; then home
      exchanges with the peer, takes the move to General for new and applies it again: her session is in the Lobby and
      her row in General. All ids are drawn from the counters, and every action goes through. */
  lemma OwnJoinMovesRow(s0: System, home: NodeId, peer: NodeId, j: C.Socket, ann: string, guest: C.User)
    returns (xs: seq<Ask>)
    requires Start(s0) && NamesApart(s0) && home in s0.chats && peer in s0.chats && home != peer
    requires ann in s0.chats[home].db.users
    requires Short(ann) && Short(s0.chats[home].self) && '|' !in ann && '|' !in s0.chats[home].self
    ensures DrawnRun(s0, NoBook(s0), xs) && AllHappen(s0, xs)
    ensures home in RunAll(s0, ActionsIn(xs)).chats
    ensures var r := RunAll(s0, ActionsIn(xs)).chats[home];
            && j in r.sessions && r.sessions[j] == C.Session(s0.chats[home].db.users[ann], C.LOBBY, true)
            && (ann, C.LOBBY.id) !in r.db.membership && (ann, C.GENERAL.id) in r.db.membership
  {
    hide *;
    var boot := s0.chats[home];
    var ys, s, book, p := StageForgotten(s0, home, peer, j, ann, guest);
    PacketParts(p, boot.self, ann);
    NamesNotEmpty(s0, home, ann);
    var e := C.RoomJoinEvent(ann, boot.self, C.LOBBY.name, C.GENERAL.name);
    var r;
    xs, r := ComesBack(s0, ys, s, book, home, peer, p, e, guest);
    AtParts(s0, xs, r, book, home);
    LeadsParts(s0, NoBook(s0), xs, r, book);
    F.Replayed(s.chats[home], boot, j, ann, guest);
  }

  lemma NamesNotEmpty(s0: System, home: NodeId, ann: string)
    requires Start(s0) && home in s0.chats && ann in s0.chats[home].db.users
    ensures ann != "" && s0.chats[home].self != ""
  {
    Booted(s0, home);
  }

  lemma LeadsParts(s: System, book: Book, xs: seq<Ask>, r: System, after: Book)
    requires Ready(s) && Leads(s, book, xs, r, after)
    ensures DrawnRun(s, book, xs) && AllHappen(s, xs) && RunAll(s, ActionsIn(xs)) == r
  {
    hide DrawnRun, AllHappen, RunAll, BookAfter, ActionsIn;
  }

  // ---------------------------------------------------------------- a message that comes too early

  lemma Registers(n: C.Node, boot: C.Node, j: C.Socket, guest: C.User, u: C.User)
    requires F.Alone(n, boot, j, C.Session(guest, C.LOBBY, false)) && P.RegisterOk(n.db, u.name, "secret", u.email)
    requires u.kind == C.USER
    ensures var r := N.Step(n, N.DoRegister(j, u.name, "secret", u.email));
            F.Alone(r, r, j, C.Session(u, C.LOBBY, true)) && r.self == n.self
  {
    assert u == C.User(u.name, u.email, C.USER);
    var a := N.DoRegister(j, u.name, "secret", u.email);
    assert N.Possible(n, a) && S.Core(n) && n.sessions == map[j := C.Session(guest, C.LOBBY, false)];
    hide *;
    N.StepIs(n, a);
    O.RegisterOutcome(n, j, u.name, "secret", u.email);
    LoggedAlone(n, N.Step(n, a), j, C.Session(guest, C.LOBBY, false), u);
  }

  lemma LoggedAlone(n: C.Node, r: C.Node, j: C.Socket, s: C.Session, u: C.User)
    requires n.sessions == map[j := s] && O.LogsIn(n, r, j, u) && S.Core(r)
    ensures F.Alone(r, r, j, C.Session(u, C.LOBBY, true)) && r.self == n.self
  {
    hide S.Core, S.Rejoin, P.LoginRow, X.Sits;
  }

  lemma EmitsRegister(n: C.Node, boot: C.Node, j: C.Socket, guest: C.User, u: C.User)
    requires F.Alone(n, boot, j, C.Session(guest, C.LOBBY, false)) && P.RegisterOk(n.db, u.name, "secret", u.email)
    requires u.kind == C.USER
    ensures E.Emitted(n, N.DoRegister(j, u.name, "secret", u.email))
         == [C.UserCreatedEvent(u), C.LoginEvent(u.name, n.self),
             C.RoomJoinEvent(u.name, n.self, C.LOBBY.name, C.LOBBY.name)]
  {
    hide S.Core, P.RegisterOk;
  }

  lemma RegisterWritable(self: string, u: C.User)
    requires Short(u.name) && Short(u.email) && u.kind == C.USER
    ensures forall e: C.Event :: e in [C.UserCreatedEvent(u), C.LoginEvent(u.name, self),
                                       C.RoomJoinEvent(u.name, self, C.LOBBY.name, C.LOBBY.name)] ==>
              Writable(self, e) && !e.MessageEvent?
  {
    Fixed();
    hide Short;
  }

  /** A new user has registered at home, and the peer has not heard of her. */
  lemma StageRegister(s0: System, home: NodeId, j: C.Socket, u: C.User, reached: set<NodeId>, guest: C.User)
    returns (xs: seq<Ask>, r: System, book: Book)
    requires Start(s0) && NamesApart(s0) && home in s0.chats && u.kind == C.USER
    requires P.RegisterOk(s0.chats[home].db, u.name, "secret", u.email) && Short(u.name) && Short(u.email)
    requires Short(s0.chats[home].self)
    ensures At(s0, xs, r, book, home) && home in book && |book[home].asked| == 3
    ensures Others(s0, r, home) && home in r.chats && home in r.cluster.nodes
    ensures F.Alone(r.chats[home], r.chats[home], j, C.Session(u, C.LOBBY, true))
    ensures r.chats[home].self == s0.chats[home].self
  {
    hide *;
    var ys, s, early := StageConnect(s0, home, j, guest);
    AloneSelf(s.chats[home], s0.chats[home], j, C.Session(guest, C.LOBBY, false));
    var n, self, a := s.chats[home], s.chats[home].self, N.DoRegister(j, u.name, "secret", u.email);
    Registers(n, s0.chats[home], j, guest, u);
    EmitsRegister(n, s0.chats[home], j, guest, u);
    var events := [C.UserCreatedEvent(u), C.LoginEvent(u.name, self),
                   C.RoomJoinEvent(u.name, self, C.LOBBY.name, C.LOBBY.name)];
    Fixed();
    RegisterWritable(self, u);
    WriteAll(self, events, 0, "hello");
    var stamps;
    xs, r, book, stamps := Go(s0, ys, s, early, home, a, events, "hello", reached);
    AfterGo(s, r, home, N.Step(n, a), events, stamps, reached);
    OthersTrans(s0, s, r, home);
  }

  lemma Unknown(n: C.Node, e: C.Event, guest: C.User)
    requires e.MessageEvent? && e.user !in n.db.users && M.Ledger(n) && n.pushed == multiset{}
    ensures N.Step(n, N.DoPeer(e, guest)).pushed[e.id] == 0
  {
    hide N.Step, M.Ledger;
    M.StepPushes(n, N.DoPeer(e, guest), e.id);
  }

  /** And has said hello. */
  lemma StageHello(s0: System, home: NodeId, peer: NodeId, j: C.Socket, u: C.User, guest: C.User)
    returns (xs: seq<Ask>, r: System, book: Book, e: C.Event, p: PacketCodec.Packet)
    requires Start(s0) && NamesApart(s0) && home in s0.chats && peer in s0.chats && home != peer && u.kind == C.USER
    requires P.RegisterOk(s0.chats[home].db, u.name, "secret", u.email) && Short(u.name) && Short(u.email)
    requires Short(s0.chats[home].self)
    ensures At(s0, xs, r, book, home) && Others(s0, r, home) && home in r.chats && home in r.cluster.nodes
    ensures e.MessageEvent? && e.user == u.name && e.id in r.chats[home].db.messages
    ensures p.kind == PacketCodec.GOSSIP_EVENT && L.IdOf(p) != [] && T.Meaning(p) == Bytes.Some(e)
    ensures G.Envelope(home, peer, p) in r.cluster.wire && L.IdOf(p) in r.emitted && r.emitted[L.IdOf(p)] == e
  {
    hide *;
    var ys, s, early := StageRegister(s0, home, j, u, {peer}, guest);
    var n, self := s.chats[home], s.chats[home].self;
    AloneSelf(n, n, j, C.Session(u, C.LOBBY, true));
    var x := StampFor(self, C.MessageEvent("", u.name, C.LOBBY.name), |early[home].asked| + 1, "hello").id;
    var a := N.DoMessage(j, x, "hello");
    var st;
    e := C.MessageEvent(x, u.name, C.LOBBY.name);
    assert "hello" != "";
    EmitsMessage(n, n, j, u, x, "hello");
    MessageWritable(self, e, x, |early[home].asked| + 1);
    SayableIf(self, e, |early[home].asked|);
    SayableProper(self, e, |early[home].asked|);
    xs, r, book, st := GoOne(s0, ys, s, early, home, a, e, {peer});
    DoneParts(s, r, home, N.Step(n, a), self, e, st, {peer});
    OthersTrans(s0, s, r, home);
    SaidStored(n, n, j, C.Session(u, C.LOBBY, true), a, e);
    p := L.Outgoing(home, RumorFor(self, e, st));
    ProperMeans(self, e, st);
    SenderDoesNotMatter(home, RumorFor(self, e, st));
    OutgoingKind(home, RumorFor(self, e, st));
  }

  lemma SaidStored(n: C.Node, boot: C.Node, j: C.Socket, s: C.Session, a: N.Action, e: C.Event)
    requires F.Alone(n, boot, j, s) && E.Emitted(n, a) == [e] && e.MessageEvent?
    ensures e.id in N.Step(n, a).db.messages
  {
    hide S.Core, N.Step, E.Emitted;
    MessageStored(n, a);
    assert e in [e];
  }

  /** The peer has taken in her message, although it does not know her. */
  lemma StageEarly(s0: System, home: NodeId, peer: NodeId, j: C.Socket, u: C.User, guest: C.User)
    returns (xs: seq<Ask>, r: System, book: Book, id: Id)
    requires Start(s0) && NamesApart(s0) && home in s0.chats && peer in s0.chats && home != peer && u.kind == C.USER
    requires P.RegisterOk(s0.chats[home].db, u.name, "secret", u.email) && Short(u.name) && Short(u.email)
    requires Short(s0.chats[home].self)
    requires u.name !in s0.chats[peer].db.users
    ensures At(s0, xs, r, book, home) && home in r.chats && peer in r.chats && peer in r.cluster.nodes
    ensures id in r.emitted && r.emitted[id].MessageEvent? && r.emitted[id].id in r.chats[home].db.messages
    ensures id in r.cluster.nodes[peer].log.seen && r.chats[peer].pushed[r.emitted[id].id] == 0
  {
    Booted(s0, peer);
    hide *;
    BootedLaws(s0, peer);
    var ys, s, e, p;
    ys, s, book, e, p := StageHello(s0, home, peer, j, u, guest);
    OthersAt(s0, s, home, peer);
    id := L.IdOf(p);
    xs, r := PeerHears(s0, ys, s, book, home, peer, p, e, guest);
    Unknown(s0.chats[peer], e, guest);
  }

  lemma OutgoingKind(n: NodeId, p: PacketCodec.Packet)
    ensures L.Outgoing(n, p).kind == PacketCodec.GOSSIP_EVENT
  {}

  /** One run of the cluster, from a start, in which a message is lost at a node. u registers at home and says hello;
      a peer takes in the message before her USER_CREATED. The id is recorded there as seen and the message dropped,
      and as long as the id stays in the peer's window it is never stored there, whatever else reaches the peer. */
  lemma EarlyMessageIsLost(s0: System, home: NodeId, peer: NodeId, j: C.Socket, u: C.User, guest: C.User)
    returns (xs: seq<Ask>, id: Id)
    requires Start(s0) && NamesApart(s0) && home in s0.chats && peer in s0.chats && home != peer && u.kind == C.USER
    requires P.RegisterOk(s0.chats[home].db, u.name, "secret", u.email) && Short(u.name) && Short(u.email)
    requires Short(s0.chats[home].self)
    requires u.name !in s0.chats[peer].db.users
    ensures Ready(s0) && DrawnRun(s0, NoBook(s0), xs) && AllHappen(s0, xs)
    ensures var r := RunAll(s0, ActionsIn(xs));
            && home in r.chats && peer in r.chats && id in r.emitted && r.emitted[id].MessageEvent?
            && r.emitted[id].id in r.chats[home].db.messages && id in r.cluster.nodes[peer].log.seen
            && forall more :: InWindow(r, more, peer, id) ==>
               r.emitted[id].id !in RunAll(r, more).chats[peer].db.messages
  {
    hide *;
    var r, book;
    xs, r, book, id := StageEarly(s0, home, peer, j, u, guest);
    AtParts(s0, xs, r, book, home);
    LeadsParts(s0, NoBook(s0), xs, r, book);
    forall more | InWindow(r, more, peer, id) ensures r.emitted[id].id !in RunAll(r, more).chats[peer].db.messages {
      SeenIsFinal(s0, ActionsIn(xs), more, peer, id);
    }
  }
}
