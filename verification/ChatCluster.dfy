/** The gossip cluster and the chat nodes put together. A client's action changes its node and rumors the events its
    handler rumors, under new ids; gossip delivers them, and a node applies what it takes a packet for. So a node's
    state is exactly the fold of its clients' actions and of the peer events it applied, every one of them emitted by
    a client's action somewhere. */
module ChatCluster {
  import opened Bytes
  import PacketCodec
  import L = GossipLog
  import G = GossipCluster
  import C = ChatNode
  import N = NodeRuns
  import S = NodeShapes
  import P = NodePackets
  import A = NodeAccess
  import M = NodeMessages
  import T = EventText
  import E = NodeEvents
  import O = NodeOutcomes

  type NodeId = G.NodeId
  type Id = L.Id

  /** What a node has done: a client's action, an event of its own that it rumored (its effect is part of the action),
      an event of a peer, or a packet that stands for no event. */
  datatype Entry =
    | Client(action: N.Action)
    | Own(id: Id, event: C.Event)
    | Peer(id: Id, event: C.Event, guest: C.User)
    | Ignored(id: Id)

  /** emitted holds, for every id rumored, the event it was rumored for. */
  datatype System = System(
    cluster: G.Cluster, chats: map<NodeId, C.Node>, history: map<NodeId, seq<Entry>>, emitted: map<Id, C.Event>)

  /** What a rumor adds to its event: the id, who caused it, the second, the text that comes with it and the packet's
      time. */
  datatype Stamp = Stamp(id: string, actor: string, time: int, text: string, now: u64)

  datatype Action =
    | Local(n: NodeId, action: N.Action, stamps: seq<Stamp>, reached: set<NodeId>)
    | Gossip(step: G.Action, guest: C.User)

  ghost predicate Ready(s: System) { s.chats.Keys == s.history.Keys == s.cluster.nodes.Keys }

  // ---------------------------------------------------------------- steps

  function RumorFor(self: string, e: C.Event, st: Stamp): (p: PacketCodec.Packet)
  {
    T.PacketOf(self, st.id, T.RumorOf(e, self, st.actor, st.time, st.text), st.now)
  }

  predicate Proper(self: string, e: C.Event, st: Stamp)
  {
    T.Honest(e, self, st.id, st.time, st.text) && T.AllNarrow(st.id, T.RumorOf(e, self, st.actor, st.time, st.text))
      && st.id != ""
  }

  /** What is written of every event can be read back. */
  predicate Fitting(self: string, events: seq<C.Event>, stamps: seq<Stamp>)
  {
    |stamps| == |events| && forall i :: 0 <= i < |events| ==> Proper(self, events[i], stamps[i])
  }

  /** Every event has a new id of its own. */
  predicate NewIds(rumored: map<Id, PacketCodec.Packet>, stamps: seq<Stamp>)
  {
    && (forall i :: 0 <= i < |stamps| ==> T.AsBytes(stamps[i].id) !in rumored)
    && forall i, j :: 0 <= i < j < |stamps| ==> T.AsBytes(stamps[i].id) != T.AsBytes(stamps[j].id)
  }

  /** An action that can happen. */
  predicate Usable(s: System, n: NodeId, events: seq<C.Event>, stamps: seq<Stamp>)
    requires n in s.chats
  {
    Fitting(s.chats[n].self, events, stamps) && NewIds(s.cluster.rumored, stamps)
  }

  function Note(s: System, n: NodeId, e: Entry): (r: System)
    requires n in s.history
  {
    s.(history := s.history[n := s.history[n] + [e]])
  }

  function RumorOne(s: System, n: NodeId, e: C.Event, st: Stamp, reached: set<NodeId>): (r: System)
    requires Ready(s) && n in s.chats
  {
    var id := T.AsBytes(st.id);
    Note(s, n, Own(id, e)).(cluster := G.Step(s.cluster, G.Rumor(n, RumorFor(s.chats[n].self, e, st), reached)),
                            emitted := s.emitted[id := e])
  }

  lemma RumorReady(s: System, n: NodeId, e: C.Event, st: Stamp, reached: set<NodeId>)
    requires Ready(s) && n in s.chats
    ensures Ready(RumorOne(s, n, e, st, reached)) && RumorOne(s, n, e, st, reached).chats == s.chats
  {
    hide L.IdOf, L.Offer, RumorFor;
  }

  ghost function RumorAll(s: System, n: NodeId, events: seq<C.Event>, stamps: seq<Stamp>,
                          reached: set<NodeId>): (r: System)
    requires Ready(s) && n in s.chats && |stamps| == |events|
    ensures Ready(r) && r.chats == s.chats
    decreases |events|
  {
    if events == [] then s else
    RumorReady(s, n, events[0], stamps[0], reached);
    RumorAll(RumorOne(s, n, events[0], stamps[0], reached), n, events[1..], stamps[1..], reached)
  }

  /** Whether a gossip step delivers an event that is new to its node. */
  predicate Applies(c: G.Cluster, a: G.Action)
  {
    && G.Enabled(c, a) && a.Deliver? && a.envelope.packet.kind == PacketCodec.GOSSIP_EVENT
    && L.Fresh(c.nodes[a.envelope.dst].log, a.envelope.packet)
  }

  ghost function Step(s: System, a: Action): (r: System)
    requires Ready(s)
    ensures Ready(r) && r.chats.Keys == s.chats.Keys
  {
    hide T.Meaning, T.AsBytes, L.IdOf, L.Fresh, N.Step, G.Step, E.Emitted, Proper;
    match a
    case Local(n, action, stamps, reached) =>
      if n !in s.chats || action.DoPeer? then s else
      var events := E.Emitted(s.chats[n], action);
      if !Usable(s, n, events, stamps) then s
      else RumorAll(Note(s, n, Client(action)).(chats := s.chats[n := N.Step(s.chats[n], action)]), n, events, stamps,
                    reached)
    case Gossip(step, guest) =>
      if step.Rumor? then s else
      GossipNodes(s.cluster, step);
      var next := s.(cluster := G.Step(s.cluster, step));
      if !Applies(s.cluster, step) then next else
      var p, dst := step.envelope.packet, step.envelope.dst;
      match T.Meaning(p)
      case None => Note(next, dst, Ignored(L.IdOf(p)))
      case Some(event) =>
        Note(next, dst, Peer(L.IdOf(p), event,
                             guest)).(chats := s.chats[dst := N.Step(s.chats[dst], N.DoPeer(event, guest))])
  }

  lemma GossipNodes(c: G.Cluster, a: G.Action)
    ensures G.Step(c, a).nodes.Keys == c.nodes.Keys
  {
    hide L.IdOf, L.React, L.Offer, L.DigestText;
  }

  /** A client's action, when it happens. */
  lemma LocalIs(s: System, n: NodeId, action: N.Action, stamps: seq<Stamp>, reached: set<NodeId>)
    requires Ready(s) && n in s.chats && !action.DoPeer?
    ensures var events := E.Emitted(s.chats[n], action);
            var told := Note(s, n, Client(action)).(chats := s.chats[n := N.Step(s.chats[n], action)]);
            && Ready(told)
            && Step(s, Local(n, action, stamps, reached))
               == if Usable(s, n, events, stamps) then RumorAll(told, n, events, stamps, reached) else s
  {
    hide N.Step, E.Emitted, Usable, RumorAll;
  }

  lemma NothingHappens(s: System, n: NodeId, action: N.Action, stamps: seq<Stamp>, reached: set<NodeId>)
    requires Ready(s) && (n !in s.chats || action.DoPeer?)
    ensures Step(s, Local(n, action, stamps, reached)) == s
  {}

  // ---------------------------------------------------------------- histories

  function ActionOf(e: Entry): (r: seq<N.Action>)
  {
    match e
    case Client(a) => [a]
    case Peer(_, event, guest) => [N.DoPeer(event, guest)]
    case _ => []
  }

  /** The steps of the chat node a history amounts to. */
  function ActionsOf(h: seq<Entry>): (r: seq<N.Action>)
  {
    if h == [] then [] else ActionsOf(h[..|h| - 1]) + ActionOf(h[|h| - 1])
  }

  function IdOfEntry(e: Entry): (r: seq<Id>)
  {
    match e
    case Client(_) => []
    case Own(id, _) => [id]
    case Peer(id, _, _) => [id]
    case Ignored(id) => [id]
  }

  /** The ids of the events applied, in order. */
  function IdsOf(h: seq<Entry>): (r: seq<Id>)
  {
    if h == [] then [] else IdsOf(h[..|h| - 1]) + IdOfEntry(h[|h| - 1])
  }

  lemma Snoc(h: seq<Entry>, e: Entry)
    ensures ActionsOf(h + [e]) == ActionsOf(h) + ActionOf(e) && IdsOf(h + [e]) == IdsOf(h) + IdOfEntry(e)
  {
    assert (h + [e])[..|h + [e]| - 1] == h;
  }

  /** The entry is about an event that was emitted, and a message of the node's own is in its table. */
  ghost predicate EntryOk(e: Entry, before: C.Node, emitted: map<Id, C.Event>)
  {
    match e
    case Client(_) => true
    case Own(id, event) => id in emitted && emitted[id] == event
      && (event.MessageEvent? ==> event.id in before.db.messages)
    case Peer(id, event, _) => id in emitted && emitted[id] == event
    case Ignored(_) => false
  }

  /** One node: its state is the fold of its history from where it booted, the ids of the history are the ids applied,
      and every entry is about an emitted event. */
  ghost predicate Told(chat: C.Node, boot: C.Node, h: seq<Entry>, applied: seq<Id>, emitted: map<Id, C.Event>)
  {
    && chat == N.Run(boot, ActionsOf(h)) && applied == IdsOf(h)
    && forall i :: 0 <= i < |h| ==> EntryOk(h[i], N.Run(boot, ActionsOf(h[..i])), emitted)
  }

  /** Every rumored packet stands for the event it was rumored for. */
  ghost predicate Meant(rumored: map<Id, PacketCodec.Packet>, emitted: map<Id, C.Event>)
  {
    && emitted.Keys == rumored.Keys
    && forall id :: id in rumored ==> T.Meaning(rumored[id]) == Some(emitted[id]) && L.IdOf(rumored[id]) == id
  }

  ghost predicate ToldAt(s: System, boots: map<NodeId, C.Node>, n: NodeId)
    requires n in boots && n in s.chats && n in s.history && n in s.cluster.nodes
  {
    S.Core(s.chats[n]) && Told(s.chats[n], boots[n], s.history[n], s.cluster.nodes[n].applied, s.emitted)
  }

  ghost predicate Inv(s: System, boots: map<NodeId, C.Node>)
  {
    && s.chats.Keys == s.history.Keys == s.cluster.nodes.Keys == boots.Keys && G.Inv(s.cluster)
    && Meant(s.cluster.rumored, s.emitted)
    && forall n :: n in boots ==> ToldAt(s, boots, n)
  }

  lemma ToldNext(chat: C.Node, boot: C.Node, h: seq<Entry>, applied: seq<Id>, emitted: map<Id, C.Event>, e: Entry,
                 more: map<Id, C.Event>)
    requires Told(chat, boot, h, applied, emitted)
    requires emitted.Keys <= more.Keys && (forall id :: id in emitted ==> more[id] == emitted[id])
    requires EntryOk(e, chat, more)
    ensures Told(N.Run(chat, ActionOf(e)), boot, h + [e], applied + IdOfEntry(e), more)
  {
    hide N.Run;
    Snoc(h, e);
    N.RunAppend(boot, ActionsOf(h), ActionOf(e));
    var all := h + [e];
    forall i | 0 <= i < |all| ensures EntryOk(all[i], N.Run(boot, ActionsOf(all[..i])), more) {
      if i < |h| {
        assert all[..i] == h[..i];
        assert EntryOk(h[i], N.Run(boot, ActionsOf(h[..i])), emitted);
      } else {
        assert all[..i] == h;
      }
    }
  }

  lemma ToldWider(chat: C.Node, boot: C.Node, h: seq<Entry>, applied: seq<Id>, emitted: map<Id, C.Event>,
                  more: map<Id, C.Event>)
    requires Told(chat, boot, h, applied, emitted)
    requires emitted.Keys <= more.Keys && forall id :: id in emitted ==> more[id] == emitted[id]
    ensures Told(chat, boot, h, applied, more)
  {
    hide N.Run, ActionsOf, IdsOf;
    forall i | 0 <= i < |h| ensures EntryOk(h[i], N.Run(boot, ActionsOf(h[..i])), more) {
      assert EntryOk(h[i], N.Run(boot, ActionsOf(h[..i])), emitted);
    }
  }

  // ---------------------------------------------------------------- a client's action

  lemma ClientKeeps(s: System, n: NodeId, action: N.Action, boots: map<NodeId, C.Node>)
    requires Inv(s, boots) && n in s.chats
    ensures Inv(Note(s, n, Client(action)).(chats := s.chats[n := N.Step(s.chats[n], action)]), boots)
  {
    hide N.Step, N.Run, Told, G.Inv, S.Core, Meant;
    var r := Note(s, n, Client(action)).(chats := s.chats[n := N.Step(s.chats[n], action)]);
    assert ToldAt(s, boots, n);
    N.StepCore(s.chats[n], action);
    ToldNext(s.chats[n], boots[n], s.history[n], s.cluster.nodes[n].applied, s.emitted, Client(action), s.emitted);
    N.RunOne(s.chats[n], action);
    assert s.cluster.nodes[n].applied + [] == s.cluster.nodes[n].applied;
    forall m | m in boots && m != n ensures ToldAt(r, boots, m) { assert ToldAt(s, boots, m); }
  }

  /** What rumoring one event under a new id does to the cluster. */
  lemma RumorFrame(c: G.Cluster, n: NodeId, p: PacketCodec.Packet, reached: set<NodeId>)
    requires G.Inv(c) && n in c.nodes && L.IdOf(p) != [] && L.IdOf(p) !in c.rumored
    ensures var a := G.Rumor(n, p, reached);
            var r := G.Step(c, a);
            && G.Coherent(c, a) && G.Inv(r) && r.nodes.Keys == c.nodes.Keys
            && r.rumored == c.rumored[L.IdOf(p) := L.Outgoing(n, p)]
            && r.nodes[n].applied == c.nodes[n].applied + [L.IdOf(p)]
            && (forall m :: m in c.nodes && m != n ==> r.nodes[m] == c.nodes[m])
            && c.wire <= r.wire && forall m :: m in reached ==> G.Envelope(n, m, L.Outgoing(n, p)) in r.wire
  {
    assert L.IdOf(L.Outgoing(n, p)) == L.IdOf(p);
    assert G.NodeOk(c.nodes[n], c.rumored);
    NotSeen(c.nodes[n], c.rumored, L.IdOf(p));
    G.StepKeepsInv(c, G.Rumor(n, p, reached));
    hide G.Inv, L.IdOf, L.Offer, L.Outgoing;
  }

  lemma NotSeen(n: G.Node, rumored: map<Id, PacketCodec.Packet>, id: Id)
    requires G.NodeOk(n, rumored) && id !in rumored
    ensures id !in n.log.seen
  {
    hide L.IdOf;
  }

  lemma SenderDoesNotMatter(n: NodeId, p: PacketCodec.Packet)
    ensures T.Meaning(L.Outgoing(n, p)) == T.Meaning(p) && L.IdOf(L.Outgoing(n, p)) == L.IdOf(p)
  {}

  lemma RumorKeeps(s: System, n: NodeId, e: C.Event, st: Stamp, reached: set<NodeId>, boots: map<NodeId, C.Node>)
    requires Inv(s, boots) && n in s.chats && Proper(s.chats[n].self, e, st) && T.AsBytes(st.id) !in s.cluster.rumored
    requires e.MessageEvent? ==> e.id in s.chats[n].db.messages
    ensures var r := RumorOne(s, n, e, st, reached);
            Inv(r, boots) && r.chats == s.chats && r.cluster.rumored.Keys == s.cluster.rumored.Keys + {T.AsBytes(st.id)}
  {
    hide *;
    var id, self := T.AsBytes(st.id), s.chats[n].self;
    var p := RumorFor(self, e, st);
    InvParts(s, boots);
    RumorIs(s, n, e, st, reached);
    ProperMeans(self, e, st);
    RumorFrame(s.cluster, n, p, reached);
    SenderDoesNotMatter(n, p);
    var more := s.emitted[id := e];
    var r := RumorOne(s, n, e, st, reached);
    MeantNext(s.cluster.rumored, s.emitted, id, L.Outgoing(n, p), e);
    forall m | m in boots ensures ToldAt(r, boots, m) {
      if m == n { OwnNext(s, r, boots, n, id, e); } else { OtherNext(s, r, boots, m); }
    }
    InvFrom(r, boots);
  }

  lemma RumorIs(s: System, n: NodeId, e: C.Event, st: Stamp, reached: set<NodeId>)
    requires Ready(s) && n in s.chats
    ensures var r, id := RumorOne(s, n, e, st, reached), T.AsBytes(st.id);
            && r.chats == s.chats && r.history == s.history[n := s.history[n] + [Own(id, e)]]
            && r.emitted == s.emitted[id := e]
            && r.cluster == G.Step(s.cluster, G.Rumor(n, RumorFor(s.chats[n].self, e, st), reached))
  {
    hide G.Step, T.AsBytes, RumorFor;
  }

  lemma ProperMeans(self: string, e: C.Event, st: Stamp)
    requires Proper(self, e, st)
    ensures T.Meaning(RumorFor(self, e, st)) == Some(e) && L.IdOf(RumorFor(self, e, st)) == T.AsBytes(st.id) != []
  {
    hide T.Meaning, L.IdOf, T.PacketOf, T.AllNarrow, T.Honest;
    T.RumorMeans(e, self, st.id, st.actor, st.time, st.text, st.now);
    assert |T.AsBytes(st.id)| == |st.id|;
  }

  lemma MeantNext(rumored: map<Id, PacketCodec.Packet>, emitted: map<Id, C.Event>, id: Id, p: PacketCodec.Packet,
                  e: C.Event)
    requires Meant(rumored, emitted) && T.Meaning(p) == Some(e) && L.IdOf(p) == id
    ensures Meant(rumored[id := p], emitted[id := e])
    ensures id !in rumored ==> id !in emitted
  {
    hide T.Meaning, L.IdOf;
  }

  lemma InvParts(s: System, boots: map<NodeId, C.Node>)
    requires Inv(s, boots)
    ensures Ready(s) && s.chats.Keys == s.history.Keys == s.cluster.nodes.Keys == boots.Keys
    ensures G.Inv(s.cluster) && Meant(s.cluster.rumored, s.emitted)
    ensures forall n :: n in boots ==> ToldAt(s, boots, n)
  {
    hide G.Inv, Meant, ToldAt;
  }

  lemma InvFrom(s: System, boots: map<NodeId, C.Node>)
    requires s.chats.Keys == s.history.Keys == s.cluster.nodes.Keys == boots.Keys && G.Inv(s.cluster)
    requires Meant(s.cluster.rumored, s.emitted)
    requires forall n :: n in boots ==> ToldAt(s, boots, n)
    ensures Inv(s, boots)
  {
    hide G.Inv, Meant, ToldAt;
  }

  lemma OwnNext(s: System, r: System, boots: map<NodeId, C.Node>, n: NodeId, id: Id, e: C.Event)
    requires n in boots && n in s.chats && n in s.history && n in s.cluster.nodes && n in r.cluster.nodes
    requires ToldAt(s, boots, n)
    requires id !in s.emitted && (e.MessageEvent? ==> e.id in s.chats[n].db.messages)
    requires r.chats == s.chats && r.history == s.history[n := s.history[n] + [Own(id, e)]]
    requires r.emitted == s.emitted[id := e]
    requires r.cluster.nodes[n].applied == s.cluster.nodes[n].applied + [id]
    ensures ToldAt(r, boots, n)
  {
    hide Told, S.Core, N.Run;
    ToldNext(s.chats[n], boots[n], s.history[n], s.cluster.nodes[n].applied, s.emitted, Own(id, e), r.emitted);
    N.RunOne(s.chats[n], N.DoDisconnect(0));
  }

  lemma OtherNext(s: System, r: System, boots: map<NodeId, C.Node>, m: NodeId)
    requires m in boots && m in s.chats && m in s.history && m in s.cluster.nodes && ToldAt(s, boots, m)
    requires m in r.chats && m in r.history && m in r.cluster.nodes && r.chats[m] == s.chats[m]
    requires r.history[m] == s.history[m]
    requires r.cluster.nodes[m].applied == s.cluster.nodes[m].applied
    requires s.emitted.Keys <= r.emitted.Keys && forall id :: id in s.emitted ==> r.emitted[id] == s.emitted[id]
    ensures ToldAt(r, boots, m)
  {
    hide Told, S.Core;
    ToldWider(s.chats[m], boots[m], s.history[m], s.cluster.nodes[m].applied, s.emitted, r.emitted);
  }

  lemma {:induction false} RumorsKeep(s: System, n: NodeId, events: seq<C.Event>, stamps: seq<Stamp>,
                                      reached: set<NodeId>, boots: map<NodeId, C.Node>)
    requires Inv(s, boots) && n in s.chats && Usable(s, n, events, stamps)
    requires forall e: C.Event :: e in events && e.MessageEvent? ==> e.id in s.chats[n].db.messages
    ensures var r := RumorAll(s, n, events, stamps, reached);
            Inv(r, boots) && r.cluster.rumored.Keys == s.cluster.rumored.Keys + IdSet(stamps)
    decreases |events|
  {
    hide Inv, RumorOne, Proper, NewIds, Fitting, T.AsBytes;
    IdSetCons(stamps);
    Lengths(s, n, events, stamps);
    assert Ready(s) by { InvReady(s, boots); }
    if events != [] {
      assert events[0] in events;
      FirstUsable(s, n, events, stamps);
      RumorKeeps(s, n, events[0], stamps[0], reached, boots);
      var r := RumorOne(s, n, events[0], stamps[0], reached);
      InvReady(r, boots);
      UsableNext(s, r, n, events, stamps);
      RumorsKeep(r, n, events[1..], stamps[1..], reached, boots);
    }
  }

  function IdSet(stamps: seq<Stamp>): (r: set<Id>) { set st | st in stamps :: T.AsBytes(st.id) }

  lemma IdSetCons(stamps: seq<Stamp>)
    ensures stamps == [] ==> IdSet(stamps) == {}
    ensures stamps != [] ==> IdSet(stamps) == {T.AsBytes(stamps[0].id)} + IdSet(stamps[1..])
  {
    hide T.AsBytes;
    if stamps != [] { assert stamps == [stamps[0]] + stamps[1..]; }
  }

  lemma Lengths(s: System, n: NodeId, events: seq<C.Event>, stamps: seq<Stamp>)
    requires n in s.chats && Usable(s, n, events, stamps)
    ensures |stamps| == |events|
  {
    hide Proper, NewIds;
  }

  lemma FirstUsable(s: System, n: NodeId, events: seq<C.Event>, stamps: seq<Stamp>)
    requires n in s.chats && events != [] && Usable(s, n, events, stamps)
    ensures |stamps| == |events| && Proper(s.chats[n].self, events[0], stamps[0])
    ensures T.AsBytes(stamps[0].id) !in s.cluster.rumored
  {
    hide Proper, T.AsBytes;
  }

  lemma UsableNext(s: System, r: System, n: NodeId, events: seq<C.Event>, stamps: seq<Stamp>)
    requires n in s.chats && r.chats == s.chats && events != [] && Usable(s, n, events, stamps)
    requires r.cluster.rumored.Keys == s.cluster.rumored.Keys + {T.AsBytes(stamps[0].id)}
    ensures Usable(r, n, events[1..], stamps[1..])
  {
    hide Proper, T.AsBytes;
    assert forall i :: 0 <= i < |stamps[1..]| ==> stamps[1..][i] == stamps[1 + i] && events[1..][i] == events[1 + i];
  }

  lemma InvReady(s: System, boots: map<NodeId, C.Node>)
    requires Inv(s, boots)
    ensures Ready(s)
  {
    hide G.Inv, ToldAt, Meant;
  }

  /** A message a client sends is in its node's table when it is rumored. */
  lemma MessageStored(n: C.Node, a: N.Action)
    requires S.Core(n)
    ensures forall e: C.Event :: e in E.Emitted(n, a) && e.MessageEvent? ==> e.id in N.Step(n, a).db.messages
  {
    hide S.Core;
    if a.DoMessage? && N.Possible(n, a) && n.sessions[a.k].auth && a.text != "" {
      P.CoreSession(n, a.k);
      P.CoreRoom(n, n.sessions[a.k].room.name);
      hide N.Step;
      N.StepIs(n, a);
    } else {
      NoMessages(n, a);
    }
  }

  lemma NoMessages(n: C.Node, a: N.Action)
    requires !(a.DoMessage? && N.Possible(n, a) && n.sessions[a.k].auth && a.text != "")
    ensures forall e: C.Event :: e in E.Emitted(n, a) ==> !e.MessageEvent?
  {}

  lemma LocalKeeps(s: System, n: NodeId, action: N.Action, stamps: seq<Stamp>, reached: set<NodeId>,
                   boots: map<NodeId, C.Node>)
    requires Inv(s, boots) && Ready(s)
    ensures var r := Step(s, Local(n, action, stamps, reached));
            && Inv(r, boots)
            && (n in s.chats && !action.DoPeer? && Usable(s, n, E.Emitted(s.chats[n], action), stamps) ==>
                  r.cluster.rumored.Keys == s.cluster.rumored.Keys + IdSet(stamps))
  {
    hide Inv, RumorAll, N.Step, E.Emitted, Proper, T.AsBytes, IdSet;
    if n in s.chats && !action.DoPeer? {
      var events := E.Emitted(s.chats[n], action);
      if Usable(s, n, events, stamps) {
        var r := Note(s, n, Client(action)).(chats := s.chats[n := N.Step(s.chats[n], action)]);
        ClientKeeps(s, n, action, boots);
        assert S.Core(s.chats[n]) by { InvCore(s, boots, n); }
        MessageStored(s.chats[n], action);
        O.StepSelf(s.chats[n], action);
        assert Usable(r, n, events, stamps);
        RumorsKeep(r, n, events, stamps, reached, boots);
      }
    }
  }

  lemma InvCore(s: System, boots: map<NodeId, C.Node>, n: NodeId)
    requires Inv(s, boots) && n in s.chats
    ensures S.Core(s.chats[n])
  {
    hide G.Inv, Told, S.Core, Meant;
    assert ToldAt(s, boots, n);
  }

  // ---------------------------------------------------------------- gossip

  /** What a gossip step other than a rumor does to the nodes: at most one applies one id. */
  lemma GossipFrame(c: G.Cluster, a: G.Action)
    requires G.Inv(c) && !a.Rumor?
    ensures var r := G.Step(c, a);
            && G.Coherent(c, a) && r.nodes.Keys == c.nodes.Keys && r.rumored == c.rumored
            && (forall n :: n in c.nodes && !(Applies(c, a) && n == a.envelope.dst) ==>
                r.nodes[n].applied == c.nodes[n].applied)
    ensures Applies(c, a) ==>
              var p := a.envelope.packet;
              && G.Step(c, a).nodes[a.envelope.dst].applied == c.nodes[a.envelope.dst].applied + [L.IdOf(p)]
              && L.IdOf(p) in c.rumored && c.rumored[L.IdOf(p)] == p
  {
    hide L.IdOf, L.React, L.Offer, L.DigestText, G.NodeOk;
    if Applies(c, a) {
      assert L.From(c.rumored, a.envelope.packet);
    }
  }

  lemma GossipKeeps(s: System, a: G.Action, guest: C.User, boots: map<NodeId, C.Node>)
    requires Inv(s, boots) && Ready(s)
    ensures Inv(Step(s, Gossip(a, guest)), boots)
  {
    hide G.Inv, G.Step, G.Coherent, Applies, L.IdOf, ToldAt, Meant, N.Step, T.Meaning, Inv;
    InvParts(s, boots);
    if !a.Rumor? {
      var c, d := s.cluster, G.Step(s.cluster, a);
      GossipFrame(c, a);
      G.StepKeepsInv(c, a);
      var r := Step(s, Gossip(a, guest));
      if Applies(c, a) {
        Delivers(c, a);
        var p, dst := a.envelope.packet, a.envelope.dst;
        MeantAt(c.rumored, s.emitted, L.IdOf(p));
        var event := s.emitted[L.IdOf(p)];
        PeerNext(s, r, boots, dst, L.IdOf(p), event, guest);
        forall m | m in boots && m != dst ensures ToldAt(r, boots, m) { OtherNext(s, r, boots, m); }
      } else {
        forall m | m in boots ensures ToldAt(r, boots, m) { OtherNext(s, r, boots, m); }
      }
      InvFrom(r, boots);
    }
  }

  lemma MeantAt(rumored: map<Id, PacketCodec.Packet>, emitted: map<Id, C.Event>, id: Id)
    requires Meant(rumored, emitted) && id in rumored
    ensures id in emitted && T.Meaning(rumored[id]) == Some(emitted[id]) && L.IdOf(rumored[id]) == id
  {
    hide T.Meaning, L.IdOf;
  }

  lemma PeerNext(s: System, r: System, boots: map<NodeId, C.Node>, n: NodeId, id: Id, e: C.Event, guest: C.User)
    requires n in boots && n in s.chats && n in s.history && n in s.cluster.nodes && n in r.cluster.nodes
    requires ToldAt(s, boots, n)
    requires id in s.emitted && s.emitted[id] == e && r.emitted == s.emitted
    requires r.chats == s.chats[n := N.Step(s.chats[n], N.DoPeer(e, guest))]
    requires r.history == s.history[n := s.history[n] + [Peer(id, e, guest)]]
    requires r.cluster.nodes[n].applied == s.cluster.nodes[n].applied + [id]
    ensures ToldAt(r, boots, n)
  {
    hide Told, S.Core, N.Run, N.Step;
    ToldNext(s.chats[n], boots[n], s.history[n], s.cluster.nodes[n].applied, s.emitted, Peer(id, e, guest), r.emitted);
    N.RunOne(s.chats[n], N.DoPeer(e, guest));
    N.StepCore(s.chats[n], N.DoPeer(e, guest));
  }

  lemma Delivers(c: G.Cluster, a: G.Action)
    requires Applies(c, a)
    ensures a.Deliver? && a.envelope.dst in c.nodes
  {}

  // ---------------------------------------------------------------- runs

  ghost function RunAll(s: System, actions: seq<Action>): (r: System)
    requires Ready(s)
    ensures Ready(r) && r.chats.Keys == s.chats.Keys
    decreases |actions|
  {
    if actions == [] then s else RunAll(Step(s, actions[0]), actions[1..])
  }

  /** A start: booted nodes, empty logs, nothing in flight. */
  ghost predicate Start(s: System)
  {
    && Ready(s) && G.Start(s.cluster) && s.emitted == map[]
    && forall n :: n in s.chats ==> N.Boot(s.chats[n]) && s.history[n] == []
  }

  lemma StartReady(s: System)
    requires Start(s)
    ensures Ready(s)
  {
    hide N.Boot, G.Start;
  }

  lemma StartInv(s: System)
    requires Start(s)
    ensures Inv(s, s.chats)
  {
    assert G.Start(s.cluster) && Ready(s);
    G.StartInv(s.cluster);
    assert Meant(s.cluster.rumored, s.emitted);
    hide G.Inv, Meant, ToldAt;
    forall n | n in s.chats ensures ToldAt(s, s.chats, n) { StartTold(s, n); }
    hide Start, Ready, G.Start;
    InvFrom(s, s.chats);
  }

  lemma StartTold(s: System, n: NodeId)
    requires Start(s) && n in s.chats
    ensures ToldAt(s, s.chats, n)
  {
    hide N.Boot, S.Core, N.Run;
    N.BootCore(s.chats[n]);
    N.RunOne(s.chats[n], N.DoDisconnect(0));
  }

  lemma {:induction false} RunInv(s: System, actions: seq<Action>, boots: map<NodeId, C.Node>)
    requires Ready(s) && Inv(s, boots)
    ensures Inv(RunAll(s, actions), boots)
    decreases |actions|
  {
    hide Inv, Step;
    if actions != [] {
      match actions[0] {
        case Local(n, action, stamps, reached) => LocalKeeps(s, n, action, stamps, reached, boots);
        case Gossip(step, guest) => GossipKeeps(s, step, guest, boots);
      }
      RunInv(Step(s, actions[0]), actions[1..], boots);
    }
  }

  /** In every run of the cluster, every node's state is the fold, from its boot, of its clients' actions and of the
      peer events whose ids it applied; each of those is an event some client's action emitted; and the ids recur only
      256 applications apart. That ids carry one packet each is not assumed but follows from their being new. */
  lemma NodeIsFold(s: System, actions: seq<Action>, n: NodeId)
    requires Start(s) && n in s.chats
    ensures var r := RunAll(s, actions);
            && n in r.chats && n in r.history && n in r.cluster.nodes
            && Told(r.chats[n], s.chats[n], r.history[n], r.cluster.nodes[n].applied, r.emitted)
            && Meant(r.cluster.rumored, r.emitted) && L.Spaced(r.cluster.nodes[n].applied)
  {
    StartInv(s);
    RunInv(s, actions, s.chats);
    hide Start, RunAll, ToldAt, N.Boot, Meant, G.Inv;
    var r := RunAll(s, actions);
    InvParts(r, s.chats);
    hide Inv;
    assert ToldAt(r, s.chats, n);
    SpacedAt(r.cluster, n);
    ToldIs(r, s.chats, n);
  }

  lemma SpacedAt(c: G.Cluster, n: NodeId)
    requires G.Inv(c) && n in c.nodes
    ensures L.Spaced(c.nodes[n].applied)
  {
    assert G.NodeOk(c.nodes[n], c.rumored);
  }

  lemma ToldIs(s: System, boots: map<NodeId, C.Node>, n: NodeId)
    requires n in boots && n in s.chats && n in s.history && n in s.cluster.nodes && ToldAt(s, boots, n)
    ensures Told(s.chats[n], boots[n], s.history[n], s.cluster.nodes[n].applied, s.emitted)
  {
    hide Told, S.Core;
  }

  /** So the laws of one node hold at every node, in every run of the cluster: the room index and one session per
      user, private rooms closed, and messages pushed as often as their rows account for. */
  lemma NodeLaws(s: System, actions: seq<Action>, n: NodeId, id: string)
    requires Start(s) && n in s.chats
    ensures var r := RunAll(s, actions);
            && n in r.chats && S.Core(r.chats[n]) && A.Access(r.chats[n])
            && r.chats[n].pushed[id] == r.chats[n].dropped[id] + if id in r.chats[n].db.messages then 1 else 0
  {
    var boot := s.chats[n];
    BootLaws(boot);
    NodeIsFold(s, actions, n);
    hide Start, RunAll, N.Boot, S.Core, A.Access, M.Ledger, N.Run;
    var r := RunAll(s, actions);
    N.RunCore(boot, ActionsOf(r.history[n]));
    A.RunAccess(boot, ActionsOf(r.history[n]));
    M.RunLedger(boot, ActionsOf(r.history[n]), id);
  }

  lemma BootLaws(boot: C.Node)
    requires N.Boot(boot)
    ensures S.Core(boot) && A.Access(boot) && M.Ledger(boot) && boot.dropped == multiset{}
  {
    N.BootCore(boot);
    hide S.Core;
  }
}
