/** Any number of nodes and the packets in flight between them, as a step relation. Packets may be lost,
    reordered and delivered more than once. */
module GossipCluster {
  import opened Bytes
  import opened Seqs
  import opened PacketCodec
  import opened GossipLog

  type NodeId = bytes

  datatype Node = Node(log: Log, applied: seq<Id>)

  datatype Envelope = Envelope(src: NodeId, dst: NodeId, packet: Packet)

  /** rumored holds, for every id, the packet its originator recorded. */
  datatype Cluster = Cluster(nodes: map<NodeId, Node>, wire: set<Envelope>, rumored: map<Id, Packet>)

  datatype Action =
    | Rumor(node: NodeId, event: Packet, reached: set<NodeId>)
    | SendDigest(node: NodeId, now: u64, reached: set<NodeId>)
    | Deliver(envelope: Envelope, now: u64, again: bool)
    | Lose(envelope: Envelope)

  predicate Enabled(c: Cluster, a: Action)
  {
    match a
    case Rumor(n, _, _) => n in c.nodes
    case SendDigest(n, _, _) => n in c.nodes
    case Deliver(e, _, _) => e in c.wire && e.dst in c.nodes
    case Lose(e) => e in c.wire
  }

  function Post(src: NodeId, reached: set<NodeId>, p: Packet): (r: set<Envelope>)
  {
    set m | m in reached :: Envelope(src, m, p)
  }

  function Replies(src: NodeId, dst: NodeId, ps: seq<Packet>): (r: set<Envelope>)
  {
    set p | p in ps :: Envelope(src, dst, p)
  }

  function DigestPacket(n: NodeId, now: u64, l: Log): (r: Packet)
  {
    Packet(GOSSIP_DIGEST, n, STAR, [], DigestText(l), now, 0)
  }

  function Absorb(node: Node, p: Packet): (r: Node)
  {
    Node(Offer(node.log, p), Applied(node.log, p, node.applied))
  }

  function Step(c: Cluster, a: Action): (r: Cluster)
  {
    if !Enabled(c, a) then c else
    match a
    case Rumor(n, event, reached) =>
      var out := Outgoing(n, event);
      if !Fresh(c.nodes[n].log, out) then c
      else Cluster(c.nodes[n := Absorb(c.nodes[n], out)], c.wire + Post(n, reached, out),
                   c.rumored[IdOf(out) := out])
    case SendDigest(n, now, reached) =>
      c.(wire := c.wire + Post(n, reached, DigestPacket(n, now, c.nodes[n].log)))
    case Deliver(e, now, again) =>
      var node := c.nodes[e.dst];
      var replies := React(node.log, e.dst, now, e.packet).1;
      var after := if e.packet.kind == GOSSIP_EVENT then Absorb(node, e.packet) else node;
      c.(nodes := c.nodes[e.dst := after],
         wire := (if again then c.wire else c.wire - {e}) + Replies(e.dst, e.src, replies))
    case Lose(e) => c.(wire := c.wire - {e})
  }

  function Run(c: Cluster, actions: seq<Action>): (r: Cluster)
    decreases |actions|
  {
    if actions == [] then c else Run(Step(c, actions[0]), actions[1..])
  }

  /** Event ids identify events: an id rumored again carries the packet it carried first. */
  predicate Coherent(c: Cluster, a: Action)
  {
    a.Rumor? ==>
      var out := Outgoing(a.node, a.event);
      IdOf(out) in c.rumored ==> c.rumored[IdOf(out)] == out
  }

  predicate CoherentRun(c: Cluster, actions: seq<Action>)
    decreases |actions|
  {
    actions == [] || (Coherent(c, actions[0]) && CoherentRun(Step(c, actions[0]), actions[1..]))
  }

  ghost predicate NodeOk(n: Node, rumored: map<Id, Packet>)
  {
    && Valid(n.log)
    && History(n.log, n.applied)
    && forall id :: id in n.log.events ==> id in rumored && n.log.events[id] == rumored[id]
  }

  ghost predicate Inv(c: Cluster)
  {
    && (forall n :: n in c.nodes ==> NodeOk(c.nodes[n], c.rumored))
    && (forall e :: e in c.wire && e.packet.kind == GOSSIP_EVENT ==> From(c.rumored, e.packet))
  }

  /** A start: nodes with empty logs, nothing in flight, nothing rumored. */
  ghost predicate Start(c: Cluster)
  {
    && (forall n :: n in c.nodes ==> c.nodes[n] == Node(EMPTY, []))
    && c.wire == {} && c.rumored == map[]
  }

  // ---------------------------------------------------------------- every step keeps the invariant

  lemma AbsorbOk(n: Node, p: Packet, rumored: map<Id, Packet>)
    requires NodeOk(n, rumored) && p.kind == GOSSIP_EVENT && IdOf(p) != []
    requires IdOf(p) in rumored ==> rumored[IdOf(p)] == p
    ensures NodeOk(Absorb(n, p), rumored[IdOf(p) := p])
  {
    hide IdOf;
    OfferValid(n.log, p);
    OfferHistory(n.log, p, n.applied);
    var r := Absorb(n, p);
    forall id | id in r.log.events
      ensures id in rumored[IdOf(p) := p] && r.log.events[id] == rumored[IdOf(p) := p][id]
    {
      assert id in r.log.seen;
      if id in n.log.events {
        assert id in rumored;
      } else {
        assert id == IdOf(p) && Fresh(n.log, p);
      }
    }
  }

  lemma NodeOkWiden(n: Node, rumored: map<Id, Packet>, more: map<Id, Packet>)
    requires NodeOk(n, rumored)
    requires rumored.Keys <= more.Keys && forall id :: id in rumored ==> more[id] == rumored[id]
    ensures NodeOk(n, more)
  {
    hide Valid, History;
  }

  lemma RumorKeepsInv(c: Cluster, n: NodeId, event: Packet, reached: set<NodeId>)
    requires Inv(c) && n in c.nodes
    requires Coherent(c, Rumor(n, event, reached))
    ensures Inv(Step(c, Rumor(n, event, reached)))
  {
    hide IdOf, NodeOk, Absorb;
    var out := Outgoing(n, event);
    var r := Step(c, Rumor(n, event, reached));
    if Fresh(c.nodes[n].log, out) {
      AbsorbOk(c.nodes[n], out, c.rumored);
      forall m | m in r.nodes ensures NodeOk(r.nodes[m], r.rumored) {
        if m != n { NodeOkWiden(c.nodes[m], c.rumored, r.rumored); }
      }
      forall e | e in r.wire && e.packet.kind == GOSSIP_EVENT ensures From(r.rumored, e.packet) {
        if e in c.wire { assert From(c.rumored, e.packet); }
      }
    }
  }

  lemma RepliesOk(l: Log, self: bytes, now: u64, p: Packet, rumored: map<Id, Packet>)
    requires Valid(l) && forall id :: id in l.events ==> id in rumored && l.events[id] == rumored[id]
    ensures forall q :: q in React(l, self, now, p).1 && q.kind == GOSSIP_EVENT ==> From(rumored, q)
  {
    if p.kind == GOSSIP_PULL {
      hide IdOf, Pieces, Lookup;
      var ids := Pieces(p.message, BAR);
      LookupAnswers(l, ids);
      forall q | q in Lookup(l, ids) ensures From(rumored, q) {
        assert Filed(IdOf(q), l.events[IdOf(q)]);
      }
    }
  }

  lemma DeliverKeepsInv(c: Cluster, e: Envelope, now: u64, again: bool)
    requires Inv(c) && Enabled(c, Deliver(e, now, again))
    ensures Inv(Step(c, Deliver(e, now, again)))
  {
    hide IdOf, React, Absorb;
    var node := c.nodes[e.dst];
    var r := Step(c, Deliver(e, now, again));
    var replies := React(node.log, e.dst, now, e.packet).1;
    RepliesOk(node.log, e.dst, now, e.packet, c.rumored);
    if e.packet.kind == GOSSIP_EVENT {
      AbsorbOk(node, e.packet, c.rumored);
      assert c.rumored[IdOf(e.packet) := e.packet] == c.rumored;
    }
    forall m | m in r.nodes ensures NodeOk(r.nodes[m], r.rumored) {
      if m != e.dst { assert NodeOk(c.nodes[m], c.rumored); }
    }
    forall f | f in r.wire && f.packet.kind == GOSSIP_EVENT ensures From(r.rumored, f.packet) {
      if f !in c.wire { assert f.packet in replies; }
    }
  }

  lemma StepKeepsInv(c: Cluster, a: Action)
    requires Inv(c) && Coherent(c, a)
    ensures Inv(Step(c, a))
  {
    if Enabled(c, a) {
      match a
      case Rumor(n, event, reached) => RumorKeepsInv(c, n, event, reached);
      case SendDigest(_, _, _) => hide IdOf, NodeOk, DigestText;
      case Deliver(e, now, again) => DeliverKeepsInv(c, e, now, again);
      case Lose(_) => hide IdOf, NodeOk;
    }
  }

  /** In every run from a start: each node's three structures agree, its ids recur only 256 applications
      apart, and every stored or travelling event is the packet its originator recorded. */
  lemma {:induction false} RunKeepsInv(c: Cluster, actions: seq<Action>)
    requires Inv(c) && CoherentRun(c, actions)
    ensures Inv(Run(c, actions))
    decreases |actions|
  {
    hide Inv, Step, Coherent;
    if actions != [] {
      StepKeepsInv(c, actions[0]);
      RunKeepsInv(Step(c, actions[0]), actions[1..]);
    }
  }

  lemma StartInv(c: Cluster)
    requires Start(c)
    ensures Inv(c)
  {}

  /** Two applications of one id at one node, in any run, have 256 applications of pairwise different
      other ids between them. */
  lemma DedupWindow(c: Cluster, actions: seq<Action>, n: NodeId, i: nat, j: nat)
    requires Start(c) && CoherentRun(c, actions)
    requires n in Run(c, actions).nodes
    requires i < j < |Run(c, actions).nodes[n].applied|
    requires Run(c, actions).nodes[n].applied[i] == Run(c, actions).nodes[n].applied[j]
    ensures j - i > MAX_EVENT_LOG
    ensures var applied := Run(c, actions).nodes[n].applied;
            var between := applied[j - MAX_EVENT_LOG..j];
            |Elems(between)| == MAX_EVENT_LOG && applied[i] !in between
  {
    StartInv(c);
    RunKeepsInv(c, actions);
    hide Run, CoherentRun, Start;
    assert NodeOk(Run(c, actions).nodes[n], Run(c, actions).rumored);
    SpacedMeansDistinct(Run(c, actions).nodes[n].applied, i, j);
  }

  // ---------------------------------------------------------------- ids with a bar

  /** Only home may hold x, and no event of x is in flight. */
  ghost predicate Confined(c: Cluster, home: NodeId, x: Id)
  {
    && (forall n :: n in c.nodes && n != home ==> x !in c.nodes[n].log.seen)
    && (forall e :: e in c.wire && e.packet.kind == GOSSIP_EVENT ==> IdOf(e.packet) != x)
  }

  predicate Rumors(a: Action, x: Id) { a.Rumor? && IdOf(Outgoing(a.node, a.event)) == x }

  lemma AbsorbWithin(n: Node, p: Packet, rumored: map<Id, Packet>)
    requires NodeOk(n, rumored) && p.kind == GOSSIP_EVENT
    ensures Absorb(n, p).log.seen <= n.log.seen + {IdOf(p)}
  {
    hide IdOf, History;
    OfferValid(n.log, p);
  }

  lemma StepConfined(c: Cluster, a: Action, home: NodeId, x: Id)
    requires Inv(c) && Confined(c, home, x) && BAR in x && !Rumors(a, x)
    ensures Confined(Step(c, a), home, x)
  {
    hide IdOf, NodeOk, Pieces, Lookup, Unseen, DigestText, Absorb, Join;
    if Enabled(c, a) {
      match a
      case Rumor(n, event, _) =>
        AbsorbWithin(c.nodes[n], Outgoing(n, event), c.rumored);
      case Deliver(e, now, _) =>
        var node := c.nodes[e.dst];
        assert NodeOk(node, c.rumored);
        if e.packet.kind == GOSSIP_EVENT {
          AbsorbWithin(node, e.packet, c.rumored);
        } else if e.packet.kind == GOSSIP_PULL {
          assert Valid(node.log) by { NodeLog(node, c.rumored); }
          AnswersAreClean(node.log, e.packet.message);
        }
      case _ =>
    }
  }

  lemma NodeLog(n: Node, rumored: map<Id, Packet>)
    requires NodeOk(n, rumored)
    ensures Valid(n.log)
  {}

  /** An id with a bar in it that has not left its node never will: over every run of digests, pulls, deliveries and
      other rumors, no other node comes to hold it. */
  lemma {:induction false} BarIdStaysHome(c: Cluster, actions: seq<Action>, home: NodeId, x: Id)
    requires Inv(c) && CoherentRun(c, actions) && Confined(c, home, x) && BAR in x
    requires forall a :: a in actions ==> !Rumors(a, x)
    ensures Confined(Run(c, actions), home, x)
    decreases |actions|
  {
    hide Inv, Confined, Step, Coherent, Rumors;
    if actions != [] {
      assert actions[0] in actions;
      StepKeepsInv(c, actions[0]);
      StepConfined(c, actions[0], home, x);
      BarIdStaysHome(Step(c, actions[0]), actions[1..], home, x);
    }
  }

  lemma {:induction false} NodesStay(c: Cluster, actions: seq<Action>)
    ensures Run(c, actions).nodes.Keys == c.nodes.Keys
    decreases |actions|
  {
    if actions != [] {
      assert Step(c, actions[0]).nodes.Keys == c.nodes.Keys;
      hide Step;
      NodesStay(Step(c, actions[0]), actions[1..]);
    }
  }
}
