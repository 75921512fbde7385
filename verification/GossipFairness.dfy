/** Anti-entropy under every schedule: whatever else happens in between, a round in which every link completes one
    exchange carries each id one link further, so as many rounds as the peer graph is wide bring every id to every
    node. */
module GossipFairness {
  import opened Bytes
  import opened Seqs
  import opened PacketCodec
  import opened GossipLog
  import opened GossipCluster
  import opened GossipConvergence

  // ---------------------------------------------------------------- states along a run

  ghost function At(c: Cluster, actions: seq<Action>, i: nat): (r: Cluster)
    requires i <= |actions|
  {
    Run(c, actions[..i])
  }

  /** A run with its ids within the cap. */
  ghost predicate Bounded(c: Cluster, actions: seq<Action>)
  {
    Inv(c) && CoherentRun(c, actions) && |Run(c, actions).rumored.Keys| <= MAX_EVENT_LOG
  }

  lemma BoundedIs(c: Cluster, actions: seq<Action>)
    ensures Bounded(c, actions) <==>
            Inv(c) && CoherentRun(c, actions) && |Run(c, actions).rumored.Keys| <= MAX_EVENT_LOG
  {}

  /** Between two points of a bounded run the invariant holds and no node forgets an id. */
  lemma Later(c: Cluster, actions: seq<Action>, i: nat, j: nat)
    requires Bounded(c, actions) && i <= j <= |actions|
    ensures Inv(At(c, actions, i)) && At(c, actions, i).nodes.Keys == c.nodes.Keys == At(c, actions, j).nodes.Keys
    ensures forall n :: n in c.nodes ==> Seen(At(c, actions, i), n) <= Seen(At(c, actions, j), n)
  {
    hide Run, CoherentRun, Inv, Seen;
    Cut(c, actions, i, j);
    var d := At(c, actions, i);
    RunKeepsInv(c, actions[..i]);
    RumoredGrows(At(c, actions, j), actions[j..]);
    SubsetCard(At(c, actions, j).rumored.Keys, Run(c, actions).rumored.Keys);
    RumoredGrows(d, actions[i..j]);
    SubsetCard(d.rumored.Keys, At(c, actions, j).rumored.Keys);
    RunGrows(c, actions[..i]);
    RunGrows(d, actions[i..j]);
  }

  lemma Cut(c: Cluster, actions: seq<Action>, i: nat, j: nat)
    requires CoherentRun(c, actions) && i <= j <= |actions|
    ensures var d := At(c, actions, i);
            && CoherentRun(c, actions[..i]) && CoherentRun(d, actions[i..j])
            && Run(d, actions[i..j]) == At(c, actions, j) && Run(At(c, actions, j), actions[j..]) == Run(c, actions)
  {
    hide Run, CoherentRun;
    assert actions == actions[..j] + actions[j..];
    RunAppend(c, actions[..j], actions[j..]);
    assert actions[..j] == actions[..i] + actions[i..j];
    RunAppend(c, actions[..i], actions[i..j]);
  }

  lemma Next(c: Cluster, actions: seq<Action>, i: nat)
    requires i < |actions|
    ensures At(c, actions, i + 1) == Step(At(c, actions, i), actions[i])
  {
    hide Step, Run, CoherentRun;
    assert actions[..i + 1] == actions[..i] + [actions[i]];
    RunAppend(c, actions[..i], [actions[i]]);
    RunOne(At(c, actions, i), actions[i]);
  }

  // ---------------------------------------------------------------- a completed exchange

  ghost predicate Arrives(c: Cluster, actions: seq<Action>, j: nat, e: Envelope)
  {
    && j < |actions| && actions[j].Deliver? && actions[j].envelope == e
    && Enabled(At(c, actions, j), actions[j])
  }

  /** The digest a sends at i reaches b at j. */
  ghost predicate DigestLeg(c: Cluster, actions: seq<Action>, a: NodeId, b: NodeId, i: nat, j: nat)
  {
    && i < j < |actions| && actions[i].SendDigest? && actions[i].node == a && a in At(c, actions, i).nodes
    && Arrives(c, actions, j, Envelope(a, b, DigestPacket(a, actions[i].now, At(c, actions, i).nodes[a].log)))
  }

  /** What b asks for. */
  ghost function Wanted(c: Cluster, actions: seq<Action>, a: NodeId, b: NodeId, i: nat, j: nat): (r: seq<Id>)
    requires i < j < |actions|
  {
    if a in At(c, actions, i).nodes && b in At(c, actions, j).nodes
    then Unseen(At(c, actions, j).nodes[b].log, Pieces(DigestText(At(c, actions, i).nodes[a].log), BAR)) else []
  }

  /** The pull b sent at j reaches a at k, and every event a answers with reaches b later. */
  ghost predicate PullLeg(c: Cluster, actions: seq<Action>, a: NodeId, b: NodeId, i: nat, j: nat, k: nat)
    requires i < j < |actions|
  {
    var wanted := Wanted(c, actions, a, b, i, j);
    && j < k < |actions| && actions[j].Deliver?
    && Arrives(c, actions, k, Envelope(b, a, Packet(GOSSIP_PULL, b, a, [], Join(wanted, BAR), actions[j].now, 0)))
    && a in At(c, actions, k).nodes
    && forall p :: p in Lookup(At(c, actions, k).nodes[a].log, Pieces(Join(wanted, BAR), BAR)) ==>
         exists l :: k < l < |actions| && Arrives(c, actions, l, Envelope(a, b, p))
  }

  /** b pulls from a, by the digest sent at i and received at j. */
  ghost predicate Pulls(c: Cluster, actions: seq<Action>, a: NodeId, b: NodeId, i: nat, j: nat)
  {
    && DigestLeg(c, actions, a, b, i, j) && b in At(c, actions, j).nodes
    && (Wanted(c, actions, a, b, i, j) == [] || exists k: nat :: PullLeg(c, actions, a, b, i, j, k))
  }

  /** Somewhere in the run, with any other steps between its own, b pulls from a. */
  ghost predicate Completes(c: Cluster, actions: seq<Action>, a: NodeId, b: NodeId)
  {
    exists i: nat, j: nat :: Pulls(c, actions, a, b, i, j)
  }

  lemma Delivered(c: Cluster, actions: seq<Action>, l: nat, a: NodeId, b: NodeId, p: Packet)
    requires Bounded(c, actions) && l < |actions| && Arrives(c, actions, l, Envelope(a, b, p))
    requires p.kind == GOSSIP_EVENT && IdOf(p) != []
    ensures b in c.nodes && b in Run(c, actions).nodes && IdOf(p) in Seen(Run(c, actions), b)
  {
    hide Run, CoherentRun, Inv, IdOf, React;
    Later(c, actions, l, l + 1);
    Later(c, actions, l + 1, |actions|);
    assert actions[..|actions|] == actions;
    Next(c, actions, l);
    SeenIsRumored(At(c, actions, l), b);
    OfferValid(At(c, actions, l).nodes[b].log, p);
  }

  /** A completed exchange carries every bar-free id a had at the start to b. */
  lemma ExchangeCarries(c: Cluster, actions: seq<Action>, a: NodeId, b: NodeId, x: Id)
    requires Bounded(c, actions) && a in c.nodes && Completes(c, actions, a, b)
    requires x in Seen(c, a) && BAR !in x
    ensures b in Run(c, actions).nodes && x in Seen(Run(c, actions), b)
  {
    hide Run, CoherentRun, Inv, IdOf, React, DigestText, Pieces, Unseen, Lookup, PullLeg;
    var i: nat, j: nat :| Pulls(c, actions, a, b, i, j);
    StillThere(c, actions, a, x, i);
    Later(c, actions, i, j);
    Later(c, actions, j, |actions|);
    assert actions[..|actions|] == actions;
    SeenIsRumored(At(c, actions, i), a);
    DigestOffers(At(c, actions, i).nodes[a].log, x);
    if x !in Seen(At(c, actions, j), b) {
      assert x in Wanted(c, actions, a, b, i, j);
      var k: nat :| PullLeg(c, actions, a, b, i, j, k);
      Answered(c, actions, a, b, i, j, k, x);
    }
  }

  lemma StillThere(c: Cluster, actions: seq<Action>, a: NodeId, x: Id, i: nat)
    requires Bounded(c, actions) && i <= |actions| && a in c.nodes && x in Seen(c, a)
    ensures a in At(c, actions, i).nodes && x in Seen(At(c, actions, i), a)
  {
    hide CoherentRun, Inv, Step;
    Later(c, actions, 0, i);
    assert actions[..0] == [] && At(c, actions, 0) == c;
  }

  lemma Answered(c: Cluster, actions: seq<Action>, a: NodeId, b: NodeId, i: nat, j: nat, k: nat, x: Id)
    requires Bounded(c, actions) && a in c.nodes && x in Seen(c, a) && BAR !in x
    requires i < j < |actions| && a in At(c, actions, i).nodes && b in At(c, actions, j).nodes
    requires PullLeg(c, actions, a, b, i, j, k) && x in Wanted(c, actions, a, b, i, j)
    ensures b in Run(c, actions).nodes && x in Seen(Run(c, actions), b)
  {
    hide Run, CoherentRun, Inv, IdOf, React, DigestText, Pieces, Unseen, Lookup, Arrives;
    var wanted := Wanted(c, actions, a, b, i, j);
    StillThere(c, actions, a, x, k);
    Later(c, actions, i, k);
    Later(c, actions, k, k);
    var log := At(c, actions, k).nodes[a].log;
    SeenIsRumored(At(c, actions, i), a);
    SeenIsRumored(At(c, actions, k), a);
    PullNames(At(c, actions, i).nodes[a].log, At(c, actions, j).nodes[b].log);
    LookupAnswers(log, wanted);
    ValidKeys(log);
    var p := log.events[x];
    assert Filed(x, p) by { FiledIn(log, x); }
    assert p in Lookup(log, Pieces(Join(wanted, BAR), BAR));
    var l :| k < l < |actions| && Arrives(c, actions, l, Envelope(a, b, p));
    Delivered(c, actions, l, a, b, p);
  }

  lemma FiledIn(log: Log, x: Id)
    requires Valid(log) && x in log.events
    ensures Filed(x, log.events[x])
  {
    hide IdOf;
  }

  // ---------------------------------------------------------------- rounds

  function RunAll(c: Cluster, rounds: seq<seq<Action>>): (r: Cluster)
    decreases |rounds|
  {
    if rounds == [] then c else RunAll(Run(c, rounds[0]), rounds[1..])
  }

  predicate CoherentAll(c: Cluster, rounds: seq<seq<Action>>)
    decreases |rounds|
  {
    rounds == [] || (CoherentRun(c, rounds[0]) && CoherentAll(Run(c, rounds[0]), rounds[1..]))
  }

  /** In every round every link completes an exchange. */
  ghost predicate Fair(c: Cluster, rounds: seq<seq<Action>>, links: set<(NodeId, NodeId)>)
    decreases |rounds|
  {
    rounds == [] || ((forall l :: l in links ==> Completes(c, rounds[0], l.0, l.1))
                     && Fair(Run(c, rounds[0]), rounds[1..], links))
  }

  lemma {:induction false} RumoredOverRounds(c: Cluster, rounds: seq<seq<Action>>)
    ensures c.rumored.Keys <= RunAll(c, rounds).rumored.Keys
    ensures RunAll(c, rounds).nodes.Keys == c.nodes.Keys
    decreases |rounds|
  {
    hide Run;
    if rounds != [] {
      RumoredGrows(c, rounds[0]);
      NodesStay(c, rounds[0]);
      RumoredOverRounds(Run(c, rounds[0]), rounds[1..]);
    }
  }

  lemma FirstRound(c: Cluster, rounds: seq<seq<Action>>)
    requires Inv(c) && rounds != [] && CoherentAll(c, rounds) && |RunAll(c, rounds).rumored.Keys| <= MAX_EVENT_LOG
    ensures Bounded(c, rounds[0]) && Inv(Run(c, rounds[0])) && Run(c, rounds[0]).nodes.Keys == c.nodes.Keys
    ensures forall n :: n in c.nodes ==> Seen(c, n) <= Seen(Run(c, rounds[0]), n)
  {
    hide Run, Inv, Seen, CoherentRun;
    RumoredOverRounds(Run(c, rounds[0]), rounds[1..]);
    SubsetCard(Run(c, rounds[0]).rumored.Keys, RunAll(c, rounds).rumored.Keys);
    RunKeepsInv(c, rounds[0]);
    RunGrows(c, rounds[0]);
  }

  /** Every round takes an id at least one link further along a path. */
  lemma {:induction false} PathIsWalked(c: Cluster, rounds: seq<seq<Action>>, links: set<(NodeId, NodeId)>,
                                        path: seq<NodeId>, x: Id)
    requires Inv(c) && CoherentAll(c, rounds) && |RunAll(c, rounds).rumored.Keys| <= MAX_EVENT_LOG
    requires Fair(c, rounds, links)
    requires IsPath(links, path) && |path| <= |rounds| + 1 && path[0] in c.nodes && x in Seen(c, path[0]) && BAR !in x
    ensures path[|path| - 1] in RunAll(c, rounds).nodes && x in Seen(RunAll(c, rounds), path[|path| - 1])
    decreases |rounds|
  {
    hide Run, Inv, Completes, CoherentRun, Bounded;
    if rounds != [] {
      FirstRound(c, rounds);
      var d := Run(c, rounds[0]);
      if |path| == 1 {
        PathIsWalked(d, rounds[1..], links, path, x);
      } else {
        assert (path[0], path[1]) in links;
        assert Completes(c, rounds[0], (path[0], path[1]).0, (path[0], path[1]).1);
        ExchangeCarries(c, rounds[0], path[0], path[1], x);
        var more := path[1..];
        assert IsPath(links, more) by { PathTail(links, path); }
        PathIsWalked(d, rounds[1..], links, more, x);
      }
    }
  }

  lemma PathTail(links: set<(NodeId, NodeId)>, path: seq<NodeId>)
    requires IsPath(links, path) && |path| > 1
    ensures IsPath(links, path[1..]) && (path[0], path[1]) in links
  {}

  /** Any two nodes are joined by a path of at most d links. */
  ghost predicate Within(c: Cluster, links: set<(NodeId, NodeId)>, d: nat)
  {
    forall m, n :: m in c.nodes && n in c.nodes ==> Reaches(links, m, n, d)
  }

  ghost predicate Reaches(links: set<(NodeId, NodeId)>, m: NodeId, n: NodeId, d: nat)
  {
    exists path :: IsPath(links, path) && path[0] == m && path[|path| - 1] == n && |path| <= d + 1
  }

  lemma ReachedIsHeld(c: Cluster, rounds: seq<seq<Action>>, links: set<(NodeId, NodeId)>, m: NodeId, n: NodeId, x: Id)
    requires Inv(c) && CoherentAll(c, rounds) && |RunAll(c, rounds).rumored.Keys| <= MAX_EVENT_LOG
    requires Fair(c, rounds, links)
    requires m in c.nodes && x in Seen(c, m) && BAR !in x && Reaches(links, m, n, |rounds|)
    ensures n in RunAll(c, rounds).nodes && x in Seen(RunAll(c, rounds), n)
  {
    hide Inv, CoherentAll, RunAll, Fair, Seen;
    var path :| IsPath(links, path) && path[0] == m && path[|path| - 1] == n && |path| <= |rounds| + 1;
    PathIsWalked(c, rounds, links, path, x);
  }

  /** Convergence under every fair schedule: after as many rounds as the peer graph is wide, with losses, duplicates,
      reorderings and further rumors in between, every node holds every id any node held at the start. */
  lemma FairRoundsConverge(c: Cluster, rounds: seq<seq<Action>>, links: set<(NodeId, NodeId)>, n: NodeId)
    requires Inv(c) && AllClean(c) && CoherentAll(c, rounds) && |RunAll(c, rounds).rumored.Keys| <= MAX_EVENT_LOG
    requires Fair(c, rounds, links) && Within(c, links, |rounds|) && n in c.nodes
    ensures n in RunAll(c, rounds).nodes && Known(c) <= Seen(RunAll(c, rounds), n)
  {
    hide *;
    RumoredOverRounds(c, rounds);
    forall x | x in Known(c) ensures x in Seen(RunAll(c, rounds), n) {
      var m := KnownBy(c, x);
      WithinAt(c, links, |rounds|, m, n);
      CleanAt(c, m, x);
      ReachedIsHeld(c, rounds, links, m, n, x);
    }
  }

  lemma KnownBy(c: Cluster, x: Id) returns (m: NodeId)
    requires x in Known(c)
    ensures m in c.nodes && x in Seen(c, m)
  {
    m :| m in c.nodes && x in c.nodes[m].log.seen;
  }

  lemma WithinAt(c: Cluster, links: set<(NodeId, NodeId)>, d: nat, m: NodeId, n: NodeId)
    requires Within(c, links, d) && m in c.nodes && n in c.nodes
    ensures Reaches(links, m, n, d)
  {
    hide Reaches;
  }

  lemma CleanAt(c: Cluster, m: NodeId, x: Id)
    requires Inv(c) && AllClean(c) && m in c.nodes && x in Seen(c, m)
    ensures BAR !in x
  {
    hide Inv;
    SeenIsRumored(c, m);
  }

  // ---------------------------------------------------------------- from a start

  /** Every rumored id is held by some node. */
  ghost predicate Held(c: Cluster) { c.rumored.Keys <= Known(c) }

  lemma HeldMeans(c: Cluster)
    ensures Held(c) <==> c.rumored.Keys <= Known(c)
  {}

  lemma StepHeld(c: Cluster, a: Action)
    requires Inv(c) && Coherent(c, a) && Held(c) && |Step(c, a).rumored.Keys| <= MAX_EVENT_LOG
    ensures Held(Step(c, a))
  {
    hide Inv, IdOf, React, DigestText;
    StepGrows(c, a);
    var r := Step(c, a);
    forall x | x in r.rumored ensures x in Known(r) {
      if x in c.rumored {
        var m :| m in c.nodes && x in Seen(c, m);
        assert x in Seen(r, m);
      } else {
        SeenIsRumored(c, a.node);
        OfferValid(c.nodes[a.node].log, Outgoing(a.node, a.event));
        assert x in Seen(r, a.node);
      }
    }
  }

  lemma {:induction false} RunHeld(c: Cluster, actions: seq<Action>)
    requires Bounded(c, actions) && Held(c)
    ensures Held(Run(c, actions)) && Inv(Run(c, actions))
    decreases |actions|
  {
    hide Inv, Step, Held, Coherent;
    if actions != [] {
      var d := Step(c, actions[0]);
      StepKeepsInv(c, actions[0]);
      RumoredGrows(d, actions[1..]);
      SubsetCard(d.rumored.Keys, Run(c, actions).rumored.Keys);
      StepHeld(c, actions[0]);
      RunHeld(d, actions[1..]);
    }
  }

  /** From a start, after any run that rumored at most 256 bar-free ids and then enough fair rounds without new
      rumors, every node holds exactly the ids rumored. */
  lemma StartConverges(c: Cluster, before: seq<Action>, rounds: seq<seq<Action>>, links: set<(NodeId, NodeId)>,
                       n: NodeId)
    requires Start(c) && CoherentRun(c, before) && |Run(c, before).rumored.Keys| <= MAX_EVENT_LOG
    requires var d := Run(c, before);
             && AllClean(d) && CoherentAll(d, rounds) && RunAll(d, rounds).rumored == d.rumored
             && Fair(d, rounds, links) && Within(d, links, |rounds|)
    requires n in c.nodes
    ensures var d := Run(c, before);
            n in RunAll(d, rounds).nodes && Seen(RunAll(d, rounds), n) == d.rumored.Keys
  {
    hide *;
    StartHeld(c);
    BoundedIs(c, before);
    RunHeld(c, before);
    NodesStay(c, before);
    HeldConverges(Run(c, before), rounds, links, n);
  }

  lemma StartHeld(c: Cluster)
    requires Start(c)
    ensures Inv(c) && Held(c)
  {
    assert Held(c);
    StartInv(c);
  }

  lemma HeldConverges(c: Cluster, rounds: seq<seq<Action>>, links: set<(NodeId, NodeId)>, n: NodeId)
    requires Inv(c) && Held(c) && n in c.nodes && |c.rumored.Keys| <= MAX_EVENT_LOG
    requires AllClean(c) && CoherentAll(c, rounds) && RunAll(c, rounds).rumored == c.rumored
    requires Fair(c, rounds, links) && Within(c, links, |rounds|)
    ensures n in RunAll(c, rounds).nodes && Seen(RunAll(c, rounds), n) == c.rumored.Keys
  {
    hide *;
    HeldMeans(c);
    FairRoundsConverge(c, rounds, links, n);
    RoundsKeepInv(c, rounds);
    SeenIsRumored(RunAll(c, rounds), n);
  }

  lemma {:induction false} RoundsKeepInv(c: Cluster, rounds: seq<seq<Action>>)
    requires Inv(c) && CoherentAll(c, rounds)
    ensures Inv(RunAll(c, rounds))
    decreases |rounds|
  {
    hide Run, Inv, CoherentRun;
    if rounds != [] {
      RunKeepsInv(c, rounds[0]);
      RoundsKeepInv(Run(c, rounds[0]), rounds[1..]);
    }
  }

  // ---------------------------------------------------------------- fair rounds exist

  function AllReplies(a: NodeId, b: NodeId, ps: seq<Packet>, now: u64): (r: seq<Action>)
  {
    if ps == [] then [] else [Deliver(Envelope(a, b, ps[0]), now, true)] + AllReplies(a, b, ps[1..], now)
  }

  lemma {:induction false} RepliesAt(a: NodeId, b: NodeId, ps: seq<Packet>, now: u64)
    ensures |AllReplies(a, b, ps, now)| == |ps|
    ensures forall i :: 0 <= i < |ps| ==> AllReplies(a, b, ps, now)[i] == Deliver(Envelope(a, b, ps[i]), now, true)
  {
    if ps != [] {
      RepliesAt(a, b, ps[1..], now);
    }
  }

  /** Deliveries that leave the packet in flight. */
  ghost predicate Repeating(actions: seq<Action>)
  {
    forall i :: 0 <= i < |actions| ==> actions[i].Deliver? && actions[i].again
  }

  lemma {:induction false} WireGrows(c: Cluster, actions: seq<Action>, i: nat)
    requires Repeating(actions) && i <= |actions|
    ensures c.wire <= At(c, actions, i).wire && At(c, actions, i).nodes.Keys == c.nodes.Keys
    ensures CoherentRun(c, actions[..i])
    decreases i
  {
    if i == 0 {
      assert actions[..0] == [];
    } else {
      WireGrows(c, actions, i - 1);
      Next(c, actions, i - 1);
      assert actions[..i] == actions[..i - 1] + [actions[i - 1]];
      RunAppend(c, actions[..i - 1], [actions[i - 1]]);
      RunOne(At(c, actions, i - 1), actions[i - 1]);
      assert actions[i - 1].Deliver? && actions[i - 1].again;
      hide React, Absorb, Run, CoherentRun;
    }
  }

  ghost predicate NoRumors(actions: seq<Action>) { forall a :: a in actions ==> !a.Rumor? }

  lemma {:induction false} QuietRun(c: Cluster, actions: seq<Action>)
    requires NoRumors(actions)
    ensures CoherentRun(c, actions) && Run(c, actions).rumored == c.rumored
    ensures Run(c, actions).nodes.Keys == c.nodes.Keys
    decreases |actions|
  {
    if actions != [] {
      var a := actions[0];
      assert a in actions;
      assert Step(c, a).rumored == c.rumored && Step(c, a).nodes.Keys == c.nodes.Keys by { hide React, Absorb, IdOf; }
      hide Step;
      QuietRun(Step(c, a), actions[1..]);
    }
  }

  /** The packets of one exchange, delivered one after the other. */
  ghost function OneExchange(c: Cluster, a: NodeId, b: NodeId, now: u64): (r: seq<Action>)
    requires a in c.nodes && b in c.nodes
  {
    var digest := DigestPacket(a, now, c.nodes[a].log);
    var wanted := Unseen(c.nodes[b].log, Pieces(DigestText(c.nodes[a].log), BAR));
    var pull := Packet(GOSSIP_PULL, b, a, [], Join(wanted, BAR), now, 0);
    [SendDigest(a, now, {b}), Deliver(Envelope(a, b, digest), now, true)] +
    if wanted == [] then []
    else
      [Deliver(Envelope(b, a, pull), now, true)] +
      AllReplies(a, b, Lookup(c.nodes[a].log, Pieces(Join(wanted, BAR), BAR)), now)
  }

  lemma ExchangeQuiet(c: Cluster, a: NodeId, b: NodeId, now: u64)
    requires a in c.nodes && b in c.nodes
    ensures NoRumors(OneExchange(c, a, b, now))
  {
    hide Lookup, Pieces, DigestText, Unseen, Join, AllReplies;
    var wanted := Unseen(c.nodes[b].log, Pieces(DigestText(c.nodes[a].log), BAR));
    RepliesAt(a, b, Lookup(c.nodes[a].log, Pieces(Join(wanted, BAR), BAR)), now);
  }

  /** Such an exchange completes. */
  lemma ExchangeCompletes(c: Cluster, a: NodeId, b: NodeId, now: u64)
    requires a in c.nodes && b in c.nodes
    ensures Completes(c, OneExchange(c, a, b, now), a, b)
  {
    hide Lookup, Pieces, DigestText, Unseen, Join, AllReplies, Step, React, DigestPacket;
    var actions := OneExchange(c, a, b, now);
    var digest := DigestPacket(a, now, c.nodes[a].log);
    var wanted := Unseen(c.nodes[b].log, Pieces(DigestText(c.nodes[a].log), BAR));
    assert actions[..0] == [] && At(c, actions, 0) == c;
    Next(c, actions, 0);
    Next(c, actions, 1);
    var c1 := DigestSent(c, a, b, now);
    var c2 := DigestDelivered(c1, a, b, digest, now);
    assert c1 == At(c, actions, 1) && c2 == At(c, actions, 2);
    hide Run;
    assert DigestLeg(c, actions, a, b, 0, 1);
    if wanted != [] {
      Answers(c, a, b, now);
      assert PullLeg(c, actions, a, b, 0, 1, 2);
    }
    assert Pulls(c, actions, a, b, 0, 1);
  }

  /** The pull and all the answers arrive. */
  lemma Answers(c: Cluster, a: NodeId, b: NodeId, now: u64)
    requires a in c.nodes && b in c.nodes
    requires var actions := OneExchange(c, a, b, now);
             && Unseen(c.nodes[b].log, Pieces(DigestText(c.nodes[a].log), BAR)) != []
             && a in At(c, actions, 0).nodes && b in At(c, actions, 1).nodes && At(c, actions, 0) == c
             && At(c, actions, 1).nodes == At(c, actions, 2).nodes == c.nodes
             && Envelope(b, a, Packet(GOSSIP_PULL, b, a, [],
                                      Join(Unseen(c.nodes[b].log, Pieces(DigestText(c.nodes[a].log), BAR)), BAR), now,
                                        0))
                in At(c, actions, 2).wire
    ensures PullLeg(c, OneExchange(c, a, b, now), a, b, 0, 1, 2)
  {
    hide Lookup, Pieces, DigestText, Unseen, Join, AllReplies, Step, React, DigestPacket, Run;
    var actions := OneExchange(c, a, b, now);
    var wanted := Unseen(c.nodes[b].log, Pieces(DigestText(c.nodes[a].log), BAR));
    var ps := Lookup(c.nodes[a].log, Pieces(Join(wanted, BAR), BAR));
    var pull := Packet(GOSSIP_PULL, b, a, [], Join(wanted, BAR), now, 0);
    Next(c, actions, 2);
    var c3 := PullDelivered(At(c, actions, 2), b, a, pull, now);
    assert c3 == At(c, actions, 3);
    RepliesAt(a, b, ps, now);
    var rest := AllReplies(a, b, ps, now);
    assert actions[3..] == rest;
    forall p | p in ps ensures exists l :: 2 < l < |actions| && Arrives(c, actions, l, Envelope(a, b, p)) {
      var i :| 0 <= i < |ps| && ps[i] == p;
      WireGrows(c3, rest, i);
      Shifted(c, actions, 3, i);
      assert actions[3 + i] == rest[i];
      assert Arrives(c, actions, 3 + i, Envelope(a, b, p));
    }
  }

  lemma Shifted(c: Cluster, actions: seq<Action>, i: nat, j: nat)
    requires i + j <= |actions|
    ensures At(c, actions, i + j) == At(At(c, actions, i), actions[i..], j)
  {
    hide Run, CoherentRun, Step;
    assert actions[..i + j] == actions[..i] + actions[i..][..j];
    RunAppend(c, actions[..i], actions[i..][..j]);
  }

  /** An exchange completed in the middle of a run is completed in the run. */
  lemma CompletesWithin(c: Cluster, pre: seq<Action>, mid: seq<Action>, post: seq<Action>, a: NodeId, b: NodeId)
    requires Completes(Run(c, pre), mid, a, b)
    ensures Completes(c, pre + mid + post, a, b)
  {
    hide Run, PullLeg, At, DigestPacket, Wanted, Arrives;
    var d, all, n := Run(c, pre), pre + mid + post, |pre|;
    var i: nat, j: nat :| Pulls(d, mid, a, b, i, j);
    DigestMoved(c, pre, mid, post, a, b, i, j);
    if Wanted(d, mid, a, b, i, j) != [] {
      var k: nat :| PullLeg(d, mid, a, b, i, j, k);
      PullMoved(c, pre, mid, post, a, b, i, j, k);
    }
    assert Pulls(c, all, a, b, n + i, n + j);
  }

  lemma Within1(c: Cluster, pre: seq<Action>, mid: seq<Action>, post: seq<Action>, i: nat)
    requires i <= |mid|
    ensures At(c, pre + mid + post, |pre| + i) == At(Run(c, pre), mid, i)
    ensures i < |mid| ==> (pre + mid + post)[|pre| + i] == mid[i]
  {
    hide Run, CoherentRun, Step;
    assert (pre + mid + post)[..|pre| + i] == pre + mid[..i];
    RunAppend(c, pre, mid[..i]);
  }

  lemma DigestMoved(c: Cluster, pre: seq<Action>, mid: seq<Action>, post: seq<Action>, a: NodeId, b: NodeId, i: nat,
                    j: nat)
    requires DigestLeg(Run(c, pre), mid, a, b, i, j) && b in At(Run(c, pre), mid, j).nodes
    ensures var all, n := pre + mid + post, |pre|;
            && DigestLeg(c, all, a, b, n + i, n + j) && b in At(c, all, n + j).nodes
            && Wanted(c, all, a, b, n + i, n + j) == Wanted(Run(c, pre), mid, a, b, i, j)
  {
    hide Run, Lookup, Pieces, DigestText, Unseen, DigestPacket, At;
    Within1(c, pre, mid, post, i);
    Within1(c, pre, mid, post, j);
  }

  lemma PullMoved(c: Cluster, pre: seq<Action>, mid: seq<Action>, post: seq<Action>, a: NodeId, b: NodeId, i: nat,
                  j: nat, k: nat)
    requires i < j < |mid| && PullLeg(Run(c, pre), mid, a, b, i, j, k)
    requires Wanted(c, pre + mid + post, a, b, |pre| + i, |pre| + j) == Wanted(Run(c, pre), mid, a, b, i, j)
    ensures PullLeg(c, pre + mid + post, a, b, |pre| + i, |pre| + j, |pre| + k)
  {
    hide Run, Lookup, Pieces, DigestText, Unseen, DigestPacket, Join, At, Wanted;
    var d, all, n := Run(c, pre), pre + mid + post, |pre|;
    Within1(c, pre, mid, post, j);
    Within1(c, pre, mid, post, k);
    var wanted := Wanted(d, mid, a, b, i, j);
    forall p | p in Lookup(At(c, all, n + k).nodes[a].log, Pieces(Join(wanted, BAR), BAR))
      ensures exists l :: n + k < l < |all| && Arrives(c, all, l, Envelope(a, b, p))
    {
      var l :| k < l < |mid| && Arrives(d, mid, l, Envelope(a, b, p));
      Within1(c, pre, mid, post, l);
      assert Arrives(c, all, n + l, Envelope(a, b, p));
    }
  }

  /** One exchange over every link, one after the other. */
  lemma {:induction false} RoundExists(c: Cluster, links: set<(NodeId, NodeId)>, now: u64) returns (round: seq<Action>)
    requires forall l :: l in links ==> l.0 in c.nodes && l.1 in c.nodes
    ensures NoRumors(round) && forall l :: l in links ==> Completes(c, round, l.0, l.1)
    decreases |links|
  {
    hide Completes, Run, OneExchange, CoherentRun;
    round := [];
    if links != {} {
      var l :| l in links;
      var first := OneExchange(c, l.0, l.1, now);
      ExchangeQuiet(c, l.0, l.1, now);
      ExchangeCompletes(c, l.0, l.1, now);
      QuietRun(c, first);
      var more := RoundExists(Run(c, first), links - {l}, now);
      round := first + more;
      assert [] + first + more == round && first + more + [] == round;
      CompletesWithin(c, [], first, more, l.0, l.1) by { assert Run(c, []) == c by { RunNone(c); } }
      forall m | m in links - {l} ensures Completes(c, round, m.0, m.1) {
        CompletesWithin(c, first, more, [], m.0, m.1);
      }
    }
  }

  /** So there are fair rounds, as many as one likes, from every state. */
  lemma {:induction false} FairRoundsExist(c: Cluster, links: set<(NodeId, NodeId)>, d: nat, now: u64)
    returns (rounds: seq<seq<Action>>)
    requires forall l :: l in links ==> l.0 in c.nodes && l.1 in c.nodes
    ensures |rounds| == d && CoherentAll(c, rounds) && RunAll(c, rounds).rumored == c.rumored && Fair(c, rounds, links)
    decreases d
  {
    hide Completes, Run, CoherentRun;
    rounds := [];
    if d > 0 {
      var round := RoundExists(c, links, now);
      QuietRun(c, round);
      var more := FairRoundsExist(Run(c, round), links, d - 1, now);
      rounds := [round] + more;
      assert rounds[1..] == more;
    }
  }
}
