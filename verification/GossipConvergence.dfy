/** Anti-entropy: with at most 256 ids in play nothing is forgotten, every exchange that pulls something
    is progress, and a connected cluster with nothing left to pull agrees. */
module GossipConvergence {
  import opened Bytes
  import opened Seqs
  import opened PacketCodec
  import opened GossipLog
  import opened GossipCluster

  ghost function Seen(c: Cluster, n: NodeId): (r: set<Id>)
    requires n in c.nodes
  {
    c.nodes[n].log.seen
  }

  /** The (node, id) pairs still to be healed. */
  ghost function Missing(c: Cluster): (r: set<(NodeId, Id)>)
  {
    set n, id | n in c.nodes && id in c.rumored && id !in c.nodes[n].log.seen :: (n, id)
  }

  // ---------------------------------------------------------------- nothing is forgotten

  lemma SeenIsRumored(c: Cluster, n: NodeId)
    requires Inv(c) && n in c.nodes
    ensures Seen(c, n) <= c.rumored.Keys
    ensures Valid(c.nodes[n].log)
  {
    assert NodeOk(c.nodes[n], c.rumored);
    assert forall id :: id in c.nodes[n].log.events ==> id in c.rumored;
  }

  /** One step, with the ids rumored so far within the cap: no node forgets an id, the ids rumored are never
      withdrawn, and the nodes stay. */
  lemma StepGrows(c: Cluster, a: Action)
    requires Inv(c) && Coherent(c, a)
    requires |Step(c, a).rumored.Keys| <= MAX_EVENT_LOG
    ensures Step(c, a).nodes.Keys == c.nodes.Keys && c.rumored.Keys <= Step(c, a).rumored.Keys
    ensures forall n :: n in c.nodes ==> Seen(c, n) <= Seen(Step(c, a), n)
  {
    hide IdOf, React, DigestText, Inv;
    if Enabled(c, a) {
      var r := Step(c, a);
      match a
      case Rumor(n, event, _) =>
        var out := Outgoing(n, event);
        if Fresh(c.nodes[n].log, out) { AbsorbGrows(c, n, out, r.rumored.Keys); }
      case Deliver(e, _, _) =>
        if e.packet.kind == GOSSIP_EVENT {
          WireEvent(c, e);
          AbsorbGrows(c, e.dst, e.packet, r.rumored.Keys);
        }
      case _ =>
    }
  }

  lemma WireEvent(c: Cluster, e: Envelope)
    requires Inv(c) && e in c.wire && e.packet.kind == GOSSIP_EVENT
    ensures From(c.rumored, e.packet)
  {}

  lemma AbsorbGrows(c: Cluster, n: NodeId, p: Packet, ids: set<Id>)
    requires Inv(c) && n in c.nodes && p.kind == GOSSIP_EVENT
    requires c.rumored.Keys <= ids && IdOf(p) in ids && |ids| <= MAX_EVENT_LOG
    ensures Seen(c, n) <= Absorb(c.nodes[n], p).log.seen
    ensures Fresh(c.nodes[n].log, p) ==> Absorb(c.nodes[n], p).log.seen == Seen(c, n) + {IdOf(p)}
    ensures Absorb(c.nodes[n], p).log.seen <= ids
  {
    hide IdOf, Valid, Offer, Inv;
    SeenIsRumored(c, n);
    var l := c.nodes[n].log;
    SubsetCard(l.seen + {IdOf(p)}, ids);
    OfferGrows(l, p);
    OfferValid(l, p);
  }

  /** Over a whole run that rumors at most 256 ids, no node ever forgets an id. */
  lemma {:induction false} RunGrows(c: Cluster, actions: seq<Action>)
    requires Inv(c) && CoherentRun(c, actions)
    requires |Run(c, actions).rumored.Keys| <= MAX_EVENT_LOG
    ensures Run(c, actions).nodes.Keys == c.nodes.Keys
    ensures c.rumored.Keys <= Run(c, actions).rumored.Keys
    ensures forall n :: n in c.nodes ==> Seen(c, n) <= Seen(Run(c, actions), n)
    decreases |actions|
  {
    hide Inv, Step, Coherent;
    if actions != [] {
      var d := Step(c, actions[0]);
      StepKeepsInv(c, actions[0]);
      RumoredGrows(d, actions[1..]);
      SubsetCard(d.rumored.Keys, Run(c, actions).rumored.Keys);
      StepGrows(c, actions[0]);
      RunGrows(d, actions[1..]);
    }
  }

  lemma {:induction false} RumoredGrows(c: Cluster, actions: seq<Action>)
    ensures c.rumored.Keys <= Run(c, actions).rumored.Keys
    decreases |actions|
  {
    if actions != [] {
      var d := Step(c, actions[0]);
      assert c.rumored.Keys <= d.rumored.Keys by { hide IdOf, React, Absorb, DigestText; }
      hide Step;
      RumoredGrows(d, actions[1..]);
    }
  }

  /** Delivering an event that is new to its node heals exactly that pair. */
  lemma DeliveryHeals(c: Cluster, e: Envelope, now: u64, again: bool)
    requires Inv(c) && Enabled(c, Deliver(e, now, again)) && |c.rumored.Keys| <= MAX_EVENT_LOG
    requires e.packet.kind == GOSSIP_EVENT && Fresh(c.nodes[e.dst].log, e.packet)
    ensures (e.dst, IdOf(e.packet)) in Missing(c)
    ensures Missing(Step(c, Deliver(e, now, again))) == Missing(c) - {(e.dst, IdOf(e.packet))}
  {
    hide IdOf, React, Inv, Absorb;
    WireEvent(c, e);
    AbsorbGrows(c, e.dst, e.packet, c.rumored.Keys);
    var r := Step(c, Deliver(e, now, again));
    var id := IdOf(e.packet);
    assert r.rumored == c.rumored && r.nodes.Keys == c.nodes.Keys;
    assert Seen(r, e.dst) == Seen(c, e.dst) + {id};
    forall n, x ensures (n, x) in Missing(r) <==> (n, x) in Missing(c) - {(e.dst, id)} {}
  }

  /** Whether a step delivers an event that is new to its node. */
  predicate Heals(c: Cluster, a: Action)
  {
    && Enabled(c, a) && a.Deliver? && a.envelope.packet.kind == GOSSIP_EVENT
    && Fresh(c.nodes[a.envelope.dst].log, a.envelope.packet)
  }

  function HealCount(c: Cluster, actions: seq<Action>): (r: nat)
    decreases |actions|
  {
    if actions == [] then 0 else (if Heals(c, actions[0]) then 1 else 0) + HealCount(Step(c, actions[0]), actions[1..])
  }

  lemma OtherStepsKeepMissing(c: Cluster, a: Action)
    requires !a.Rumor? && !Heals(c, a)
    ensures Missing(Step(c, a)) == Missing(c)
  {
    hide IdOf, React, DigestText;
    if Enabled(c, a) && a.Deliver? {
      var e := a.envelope;
      assert Step(c, a).nodes == c.nodes[e.dst := Step(c, a).nodes[e.dst]];
      assert Step(c, a).nodes[e.dst].log == c.nodes[e.dst].log;
    }
  }

  /** Over every schedule of digests, pulls, deliveries, duplicates and losses: the events applied are exactly the
      pairs healed. So at most |Missing| deliveries take effect, and no pair is healed twice. */
  lemma {:induction false} HealingIsConserved(c: Cluster, actions: seq<Action>)
    requires Inv(c) && |c.rumored.Keys| <= MAX_EVENT_LOG && forall a :: a in actions ==> !a.Rumor?
    ensures |Missing(c)| == |Missing(Run(c, actions))| + HealCount(c, actions)
    decreases |actions|
  {
    hide Inv, Step, Missing, Heals;
    if actions != [] {
      var a := actions[0];
      assert a in actions;
      StepKeepsInv(c, a);
      OneHeals(c, a);
      HealingIsConserved(Step(c, a), actions[1..]);
    }
  }

  lemma OneHeals(c: Cluster, a: Action)
    requires Inv(c) && |c.rumored.Keys| <= MAX_EVENT_LOG && !a.Rumor?
    ensures Step(c, a).rumored == c.rumored
    ensures |Missing(c)| == |Missing(Step(c, a))| + if Heals(c, a) then 1 else 0
  {
    hide Inv, React, DigestText, IdOf, Missing, Fresh, Absorb;
    if Heals(c, a) {
      DeliveryHeals(c, a.envelope, a.now, a.again);
    } else {
      OtherStepsKeepMissing(c, a);
    }
  }

  // ---------------------------------------------------------------- one exchange

  lemma {:induction false} RunAppend(c: Cluster, a: seq<Action>, b: seq<Action>)
    ensures Run(c, a + b) == Run(Run(c, a), b)
    ensures CoherentRun(c, a + b) <==> CoherentRun(c, a) && CoherentRun(Run(c, a), b)
    decreases |a|
  {
    hide Step, Coherent;
    if a == [] {
      assert a + b == b;
    } else {
      assert (a + b)[1..] == a[1..] + b;
      RunAppend(Step(c, a[0]), a[1..], b);
    }
  }

  lemma RunOne(c: Cluster, a: Action)
    ensures Run(c, [a]) == Step(c, a) && (!a.Rumor? ==> CoherentRun(c, [a]))
  {
    hide Step;
    assert [a][1..] == [];
    assert Run(Step(c, a), []) == Step(c, a);
  }

  /** Everything but node b's state, and the packets in flight, is as in c. */
  ghost predicate OnlyNode(c: Cluster, d: Cluster, b: NodeId)
  {
    && d.rumored == c.rumored
    && d.nodes.Keys == c.nodes.Keys
    && forall n :: n in c.nodes && n != b ==> d.nodes[n] == c.nodes[n]
  }

  /** Events waiting on the wire from a to b can be delivered one after the other. */
  lemma {:induction false} DeliverAll(c: Cluster, a: NodeId, b: NodeId, ps: seq<Packet>) returns (actions: seq<Action>)
    requires b in c.nodes
    requires forall p :: p in ps ==> p.kind == GOSSIP_EVENT && Envelope(a, b, p) in c.wire
    ensures CoherentRun(c, actions) && OnlyNode(c, Run(c, actions), b)
    ensures Run(c, actions).nodes[b].log == OfferAll(c.nodes[b].log, ps)
    decreases |ps|
  {
    if ps == [] {
      actions := [];
    } else {
      var act := Deliver(Envelope(a, b, ps[0]), 0, true);
      var d := Step(c, act);
      assert d.rumored == c.rumored && d.nodes == c.nodes[b := Absorb(c.nodes[b], ps[0])] && c.wire <= d.wire by {
        hide Absorb, React;
        assert ps[0] in ps;
      }
      hide Step, Absorb;
      assert Absorb(c.nodes[b], ps[0]).log == Offer(c.nodes[b].log, ps[0]) by { AbsorbLog(c.nodes[b], ps[0]); }
      hide Offer, Coherent;
      var rest := DeliverAll(d, a, b, ps[1..]);
      actions := [act] + rest;
      RunOne(c, act);
      RunAppend(c, [act], rest);
    }
  }

  lemma AbsorbLog(n: Node, p: Packet)
    ensures Absorb(n, p).log == Offer(n.log, p)
  {}

  /** The digest of a is sent to b, b pulls, a answers and the events arrive: a legal run after which b's log
      is the exchanged log and no other node has changed. */
  lemma ExchangeRun(c: Cluster, a: NodeId, b: NodeId, now: u64) returns (actions: seq<Action>)
    requires Inv(c) && a in c.nodes && b in c.nodes && a != b
    ensures CoherentRun(c, actions) && OnlyNode(c, Run(c, actions), b)
    ensures Run(c, actions).nodes[b].log == Exchange(c.nodes[a].log, c.nodes[b].log)
  {
    hide *;
    var la, lb := c.nodes[a].log, c.nodes[b].log;
    var missing := Unseen(lb, Pieces(DigestText(la), BAR));
    var first := [SendDigest(a, now, {b})];
    var d1 := DigestSent(c, a, b, now);
    RunOne(c, first[0]);
    var pull := Packet(GOSSIP_PULL, b, a, [], Join(missing, BAR), now, 0);
    var act2 := Deliver(Envelope(a, b, DigestPacket(a, now, la)), now, true);
    var d2 := DigestDelivered(d1, a, b, act2.envelope.packet, now);
    RunOne(d1, act2);
    RunAppend(c, first, [act2]);
    if missing == [] {
      actions := first + [act2];
      NothingToPull(la, lb);
      OnlySame(c, d2, b);
    } else {
      var act3 := Deliver(Envelope(b, a, pull), now, true);
      var ps := Lookup(la, Pieces(Join(missing, BAR), BAR));
      var d3 := PullDelivered(d2, b, a, pull, now);
      RunOne(d2, act3);
      RunAppend(c, first + [act2], [act3]);
      LookupKinds(la, Pieces(Join(missing, BAR), BAR));
      var rest := DeliverAll(d3, a, b, ps);
      RunAppend(c, first + [act2] + [act3], rest);
      actions := first + [act2] + [act3] + rest;
      ExchangeIs(la, lb);
      OnlyTrans(c, d3, Run(d3, rest), b);
    }
  }

  lemma DigestSent(c: Cluster, a: NodeId, b: NodeId, now: u64) returns (d: Cluster)
    requires a in c.nodes
    ensures d == Step(c, SendDigest(a, now, {b})) && d.nodes == c.nodes && d.rumored == c.rumored
    ensures Envelope(a, b, DigestPacket(a, now, c.nodes[a].log)) in d.wire
  {
    hide DigestText;
    d := Step(c, SendDigest(a, now, {b}));
  }

  /** A rumored event that gets through is applied where it arrives. */
  lemma RumorArrives(c: Cluster, a: NodeId, b: NodeId, event: Packet, reached: set<NodeId>, now: u64, again: bool)
    requires a in c.nodes && b in c.nodes && b in reached && a != b
    requires IdOf(event) != [] && IdOf(event) !in c.nodes[a].log.seen
    ensures var from := if event.sender == [] then a else event.sender;
            var to := if event.receiver == [] then [42] else event.receiver;
            var p, d := event.(kind := 9, sender := from, receiver := to), Step(c, Rumor(a, event, reached));
            && Envelope(a, b, p) in d.wire && d.nodes[b] == c.nodes[b]
            && d.nodes[a].log == Offer(c.nodes[a].log, p)
            && Step(d, Deliver(Envelope(a, b, p), now, again)).nodes[b].log == Offer(c.nodes[b].log, p)
  {
    hide Offer, IdOf;
    SameId(a, event);
  }

  lemma SameId(a: NodeId, event: Packet)
    ensures IdOf(Outgoing(a, event)) == IdOf(event)
  {}

  lemma DigestDelivered(c: Cluster, a: NodeId, b: NodeId, p: Packet, now: u64) returns (d: Cluster)
    requires a in c.nodes && b in c.nodes && p == DigestPacket(a, now, c.nodes[a].log) && Envelope(a, b, p) in c.wire
    ensures d == Step(c, Deliver(Envelope(a, b, p), now, true)) && d.nodes == c.nodes && d.rumored == c.rumored
    ensures var missing := Unseen(c.nodes[b].log, Pieces(DigestText(c.nodes[a].log), BAR));
            missing != [] ==> Envelope(b, a, Packet(GOSSIP_PULL, b, a, [], Join(missing, BAR), now, 0)) in d.wire
  {
    hide DigestText, Pieces, Join, Unseen, Absorb;
    d := Step(c, Deliver(Envelope(a, b, p), now, true));
  }

  lemma PullDelivered(c: Cluster, b: NodeId, a: NodeId, pull: Packet, now: u64) returns (d: Cluster)
    requires a in c.nodes && Envelope(b, a, pull) in c.wire && pull.kind == GOSSIP_PULL
    ensures d == Step(c, Deliver(Envelope(b, a, pull), now, true)) && d.nodes == c.nodes && d.rumored == c.rumored
    ensures forall p :: p in Lookup(c.nodes[a].log, Pieces(pull.message, BAR)) ==> Envelope(a, b, p) in d.wire
  {
    hide Pieces, Lookup, Absorb;
    d := Step(c, Deliver(Envelope(b, a, pull), now, true));
  }

  lemma {:induction false} LookupKinds(l: Log, ids: seq<Id>)
    ensures forall p :: p in Lookup(l, ids) ==> p.kind == GOSSIP_EVENT
  {
    if ids != [] { LookupKinds(l, ids[1..]); }
  }

  lemma NothingToPull(a: Log, b: Log)
    requires Unseen(b, Pieces(DigestText(a), BAR)) == []
    ensures Exchange(a, b) == b
  {
    hide DigestText;
    PiecesNil(BAR);
  }

  lemma ExchangeIs(a: Log, b: Log)
    ensures Exchange(a, b) == OfferAll(b, Lookup(a, Pieces(Join(Unseen(b, Pieces(DigestText(a), BAR)), BAR), BAR)))
  {}

  lemma OnlySame(c: Cluster, d: Cluster, b: NodeId)
    requires d.nodes == c.nodes && d.rumored == c.rumored
    ensures OnlyNode(c, d, b)
  {}

  lemma OnlyTrans(c: Cluster, d: Cluster, e: Cluster, b: NodeId)
    requires d.nodes == c.nodes && d.rumored == c.rumored && OnlyNode(d, e, b)
    ensures OnlyNode(c, e, b)
  {}

  // ---------------------------------------------------------------- agreement

  ghost predicate IsPath(links: set<(NodeId, NodeId)>, path: seq<NodeId>)
  {
    path != [] && forall i :: 0 <= i < |path| - 1 ==> (path[i], path[i + 1]) in links
  }

  ghost predicate Connects(links: set<(NodeId, NodeId)>, a: NodeId, b: NodeId)
  {
    exists path :: IsPath(links, path) && path[0] == a && path[|path| - 1] == b
  }

  /** The peer graph: links run between nodes of the cluster and lead from every node to every other. */
  ghost predicate StronglyConnected(c: Cluster, links: set<(NodeId, NodeId)>)
  {
    && (forall l :: l in links ==> l.0 in c.nodes && l.1 in c.nodes && l.0 != l.1)
    && (forall a, b :: a in c.nodes && b in c.nodes ==> Connects(links, a, b))
  }

  /** Nothing to pull over a link: the digest of a draws no answer from b. */
  ghost predicate Quiet(c: Cluster, a: NodeId, b: NodeId)
    requires a in c.nodes && b in c.nodes
  {
    forall now: u64 :: React(c.nodes[b].log, b, now, DigestPacket(a, now, c.nodes[a].log)).1 == []
  }

  ghost predicate AllClean(c: Cluster) { forall id :: id in c.rumored ==> BAR !in id }

  lemma QuietIff(c: Cluster, a: NodeId, b: NodeId)
    requires Inv(c) && AllClean(c) && a in c.nodes && b in c.nodes
    ensures Quiet(c, a, b) <==> Seen(c, a) <= Seen(c, b)
  {
    hide DigestText, Pieces, IdOf, Inv;
    SeenIsRumored(c, a);
    var la, lb := c.nodes[a].log, c.nodes[b].log;
    var offered := Pieces(DigestText(la), BAR);
    var missing := Unseen(lb, offered);
    assert Quiet(c, a, b) <==> missing == [] by {
      if Quiet(c, a, b) {
        assert React(lb, b, 0, DigestPacket(a, 0, la)).1 == [];
      }
    }
    forall x ensures x in offered ==> x in la.seen {
      CleanOffer(la, x);
    }
    if missing == [] {
      forall x | x in la.seen ensures x in lb.seen {
        DigestOffers(la, x);
        assert x !in missing;
      }
    } else {
      assert missing[0] in missing;
    }
  }

  /** With bar-free ids a digest offers nothing but ids of the log. */
  lemma CleanOffer(l: Log, x: Id)
    requires Valid(l) && forall id :: id in l.seen ==> BAR !in id
    ensures x in Pieces(DigestText(l), BAR) ==> x in l.seen
  {
    hide IdOf, Pieces, Join;
    forall id | id in l.recent ensures BAR !in id && id != [] {
      assert id in l.events && Filed(id, l.events[id]);
    }
    PiecesJoinClean(l.recent, BAR);
  }

  lemma {:induction false} PathCarries(c: Cluster, links: set<(NodeId, NodeId)>, path: seq<NodeId>)
    requires IsPath(links, path) && path[0] in c.nodes
    requires forall l :: l in links ==> l.0 in c.nodes && l.1 in c.nodes && Seen(c, l.0) <= Seen(c, l.1)
    ensures path[|path| - 1] in c.nodes && Seen(c, path[0]) <= Seen(c, path[|path| - 1])
    decreases |path|
  {
    if |path| > 1 {
      var rest := path[1..];
      assert (path[0], path[1]) in links;
      forall i | 0 <= i < |rest| - 1 ensures (rest[i], rest[i + 1]) in links {
        assert (path[i + 1], path[i + 2]) in links;
      }
      PathCarries(c, links, rest);
    }
  }

  /** When no link of a strongly connected cluster has anything to pull, all nodes hold the same ids. */
  lemma QuietClusterAgrees(c: Cluster, links: set<(NodeId, NodeId)>, m: NodeId, n: NodeId)
    requires Inv(c) && AllClean(c) && StronglyConnected(c, links)
    requires forall l :: l in links ==> Quiet(c, l.0, l.1)
    requires m in c.nodes && n in c.nodes
    ensures Seen(c, m) == Seen(c, n)
  {
    hide Inv, Quiet;
    forall l | l in links ensures Seen(c, l.0) <= Seen(c, l.1) { QuietIff(c, l.0, l.1); }
    assert Connects(links, m, n) && Connects(links, n, m);
    var p :| IsPath(links, p) && p[0] == m && p[|p| - 1] == n;
    var q :| IsPath(links, q) && q[0] == n && q[|q| - 1] == m;
    PathCarries(c, links, p);
    PathCarries(c, links, q);
  }

  ghost function Known(c: Cluster): (r: set<Id>)
  {
    set n, id | n in c.nodes && id in c.nodes[n].log.seen :: id
  }

  /** An exchange over a link that is not quiet is progress: the missing pairs shrink strictly, and what the
      cluster knows stays the same. */
  lemma ExchangeProgress(c: Cluster, d: Cluster, a: NodeId, b: NodeId)
    requires Inv(c) && AllClean(c) && |c.rumored.Keys| <= MAX_EVENT_LOG
    requires a in c.nodes && b in c.nodes && a != b && !Quiet(c, a, b)
    requires OnlyNode(c, d, b) && d.nodes[b].log == Exchange(c.nodes[a].log, c.nodes[b].log)
    ensures |Missing(d)| < |Missing(c)| && Known(d) == Known(c)
  {
    hide Inv, Quiet, Exchange, Valid, Extends;
    var la, lb := c.nodes[a].log, c.nodes[b].log;
    QuietIff(c, a, b);
    SeenIsRumored(c, a);
    SeenIsRumored(c, b);
    SubsetCard(la.seen + lb.seen, c.rumored.Keys);
    ExchangeResult(la, lb);
    assert BarFree(la.seen) == la.seen;
    assert Seen(d, b) == lb.seen + la.seen;
    forall n | n in c.nodes && n != b ensures Seen(d, n) == Seen(c, n) {}
    var id :| id in la.seen && id !in lb.seen;
    assert (b, id) in Missing(c) && (b, id) !in Missing(d);
    assert Missing(d) <= Missing(c) - {(b, id)};
    SubsetCard(Missing(d), Missing(c) - {(b, id)});
    SameKnown(c, d, a, b);
  }

  lemma SameKnown(c: Cluster, d: Cluster, a: NodeId, b: NodeId)
    requires a in c.nodes && b in c.nodes && a != b && OnlyNode(c, d, b)
    requires Seen(d, b) == Seen(c, b) + Seen(c, a)
    ensures Known(d) == Known(c)
  {
    forall id ensures id in Known(d) <==> id in Known(c) {
      if id in Known(c) {
        var n :| n in c.nodes && id in c.nodes[n].log.seen;
        assert n in d.nodes && id in d.nodes[n].log.seen;
      }
      if id in Known(d) {
        var n :| n in d.nodes && id in d.nodes[n].log.seen;
        if n == b {
          assert id in c.nodes[b].log.seen || id in c.nodes[a].log.seen;
        } else {
          assert id in c.nodes[n].log.seen;
        }
      }
    }
  }

  /** Convergence. From any reachable state with at most 256 bar-free ids, exchanges over the links of a
      strongly connected peer graph bring every node to the same set: all
      ids any node knew. */
  lemma {:induction false} Converges(c: Cluster, links: set<(NodeId, NodeId)>) returns (actions: seq<Action>)
    requires Inv(c) && AllClean(c) && |c.rumored.Keys| <= MAX_EVENT_LOG
    requires StronglyConnected(c, links)
    ensures CoherentRun(c, actions)
    ensures Run(c, actions).nodes.Keys == c.nodes.Keys
    ensures forall n :: n in c.nodes ==> Seen(Run(c, actions), n) == Known(c)
    decreases |Missing(c)|
  {
    hide Inv, Quiet, Exchange, Step, Missing, Coherent;
    if l :| l in links && !Quiet(c, l.0, l.1) {
      var first := ExchangeRun(c, l.0, l.1, 0);
      var d := Run(c, first);
      ExchangeProgress(c, d, l.0, l.1);
      RunKeepsInv(c, first);
      var rest := Converges(d, links);
      RunAppend(c, first, rest);
      actions := first + rest;
    } else {
      actions := [];
      hide *;
      assert Run(c, actions) == c && CoherentRun(c, actions) by { RunNone(c); }
      AgreeOnKnown(c, links);
    }
  }

  lemma RunNone(c: Cluster)
    ensures Run(c, []) == c && CoherentRun(c, [])
  {}

  lemma AgreeOnKnown(c: Cluster, links: set<(NodeId, NodeId)>)
    requires Inv(c) && AllClean(c) && StronglyConnected(c, links)
    requires forall l :: l in links ==> Quiet(c, l.0, l.1)
    ensures forall n :: n in c.nodes ==> Seen(c, n) == Known(c)
  {
    hide *;
    forall n | n in c.nodes ensures Seen(c, n) == Known(c) {
      forall m | m in c.nodes ensures Seen(c, m) == Seen(c, n) {
        QuietClusterAgrees(c, links, m, n);
      }
      SharedIsKnown(c, n);
    }
  }

  lemma SharedIsKnown(c: Cluster, n: NodeId)
    requires n in c.nodes && forall m :: m in c.nodes ==> Seen(c, m) == Seen(c, n)
    ensures Seen(c, n) == Known(c)
  {
    forall id ensures id in Seen(c, n) <==> id in Known(c) {
      if id in Known(c) {
        var m :| m in c.nodes && id in c.nodes[m].log.seen;
        assert Seen(c, m) == Seen(c, n);
      }
    }
  }
}
