/** Two runs of the gossip cluster: one whose event never arrives, and one whose event comes back to its own node. */
module GossipRuns {
  import opened Bytes
  import opened Seqs
  import opened PacketCodec
  import opened GossipLog
  import opened GossipCluster
  import opened GossipConvergence
  import T = EventText
  import I = EventIds

  // ---------------------------------------------------------------- an id with a bar

  /** A message of a user with a bar in the name has an id with a bar in it. */
  lemma BarInId(self: string, user: string, time: int, number: nat, r: T.Rumor, now: u64)
    requires '|' in user && T.AllNarrow(I.MakeId(self, "MESSAGE", user, time, number), r)
    ensures BAR in IdOf(T.PacketOf(self, I.MakeId(self, "MESSAGE", user, time, number), r, now))
  {
    var id := I.MakeId(self, "MESSAGE", user, time, number);
    hide T.PacketOf, IdOf, T.Meaning, T.MeaningOf, T.AllNarrow;
    T.PacketMeans(self, id, r, now);
    assert '|' in id by { UserInId(self, user, time, number); }
    var i :| 0 <= i < |id| && id[i] == '|';
    assert T.AsBytes(id)[i] == BAR;
  }

  lemma UserInId(self: string, user: string, time: int, number: nat)
    requires '|' in user
    ensures '|' in I.MakeId(self, "MESSAGE", user, time, number)
  {
    var i :| 0 <= i < |user| && user[i] == '|';
    assert I.MakeId(self, "MESSAGE", user, time, number)[|self| + 9 + i] == '|';
  }

  /** The run: home rumors such an event while no peer is connected. Home holds it, and whatever follows, short of
      home rumoring it again, nobody else ever does. */
  lemma BarIdRun(c: Cluster, home: NodeId, other: NodeId, event: Packet, actions: seq<Action>)
    requires Start(c) && home in c.nodes && other in c.nodes && other != home && BAR in IdOf(event)
    requires var d := Step(c, GossipCluster.Rumor(home, event, {}));
             CoherentRun(d, actions) && forall a :: a in actions ==> !Rumors(a, IdOf(event))
    ensures var d := Step(c, GossipCluster.Rumor(home, event, {}));
            && IdOf(event) in d.nodes[home].log.seen
            && other in Run(d, actions).nodes && IdOf(event) !in Run(d, actions).nodes[other].log.seen
  {
    var x := IdOf(event);
    var rumor := GossipCluster.Rumor(home, event, {});
    var d := Step(c, rumor);
    StartInv(c);
    StepKeepsInv(c, rumor);
    HeldAtHome(c, home, event);
    BarIdStaysHome(d, actions, home, x);
    NodesStay(d, actions);
  }

  lemma HeldAtHome(c: Cluster, home: NodeId, event: Packet)
    requires Start(c) && home in c.nodes && IdOf(event) != []
    ensures var d := Step(c, GossipCluster.Rumor(home, event, {}));
            IdOf(event) in d.nodes[home].log.seen && Confined(d, home, IdOf(event)) && d.nodes.Keys == c.nodes.Keys
  {
    assert IdOf(Outgoing(home, event)) == IdOf(event);
    hide IdOf;
    OfferValid(EMPTY, Outgoing(home, event));
  }

  /** Such an event there is: the first message of a user named x|y. */
  lemma BarUserRun(c: Cluster, home: NodeId, other: NodeId, actions: seq<Action>)
    requires Start(c) && home in c.nodes && other in c.nodes && other != home
    requires var event := FirstMessage();
             var d := Step(c, GossipCluster.Rumor(home, event, {}));
             CoherentRun(d, actions) && forall a :: a in actions ==> !Rumors(a, IdOf(event))
    ensures var event := FirstMessage();
            var d := Step(c, GossipCluster.Rumor(home, event, {}));
            && IdOf(event) in d.nodes[home].log.seen
            && other in Run(d, actions).nodes && IdOf(event) !in Run(d, actions).nodes[other].log.seen
  {
    hide Start, Step, Run, CoherentRun, IdOf, Rumors, FirstMessage;
    assert BAR in IdOf(FirstMessage()) by { FirstMessageId(); }
    BarIdRun(c, home, other, FirstMessage(), actions);
  }

  function FirstMessage(): (p: Packet)
  {
    T.PacketOf("n1", I.MakeId("n1", "MESSAGE", "x|y", 0, 1), T.Rumor("MESSAGE", "x|y", "hello", "0", "Lobby"), 0)
  }

  lemma FirstMessageId()
    ensures BAR in IdOf(FirstMessage())
  {
    hide T.PacketOf, IdOf, T.Narrow;
    assert T.AllNarrow(I.MakeId("n1", "MESSAGE", "x|y", 0, 1), T.Rumor("MESSAGE", "x|y", "hello", "0", "Lobby")) by {
      ShortTexts();
    }
    BarInId("n1", "x|y", 0, 1, T.Rumor("MESSAGE", "x|y", "hello", "0", "Lobby"), 0);
  }

  lemma ShortTexts()
    ensures T.AllNarrow(I.MakeId("n1", "MESSAGE", "x|y", 0, 1), T.Rumor("MESSAGE", "x|y", "hello", "0", "Lobby"))
  {
    assert T.Narrow("MESSAGE") && T.Narrow("x|y") && T.Narrow("n1") && T.Narrow("hello") && T.Narrow("0")
      && T.Narrow("Lobby");
    hide I.MakeId, T.Narrow;
    T.IdNarrow("n1", "MESSAGE", "x|y", 0, 1);
  }

  // ---------------------------------------------------------------- an event that comes back

  lemma {:induction false} AppliedGrows(c: Cluster, actions: seq<Action>, n: NodeId)
    requires n in c.nodes
    ensures n in Run(c, actions).nodes && c.nodes[n].applied <= Run(c, actions).nodes[n].applied
    decreases |actions|
  {
    if actions != [] {
      var d := Step(c, actions[0]);
      assert n in d.nodes && c.nodes[n].applied <= d.nodes[n].applied by { hide IdOf, React, Offer, DigestText; }
      hide Step;
      AppliedGrows(d, actions[1..], n);
    }
  }

  function Idents(events: seq<Packet>): (r: seq<Id>)
    ensures |r| == |events| && forall i :: 0 <= i < |r| ==> r[i] == IdOf(events[i])
  {
    if events == [] then [] else [IdOf(events[0])] + Idents(events[1..])
  }

  function RumorEach(home: NodeId, events: seq<Packet>): (r: seq<Action>)
  {
    if events == [] then [] else [GossipCluster.Rumor(home, events[0], {})] + RumorEach(home, events[1..])
  }

  ghost predicate NewEvents(c: Cluster, events: seq<Packet>)
  {
    NoDup(Idents(events)) && forall i :: 0 <= i < |events| ==> IdOf(events[i]) != [] && IdOf(events[i]) !in c.rumored
  }

  /** A node rumors one new event after the other: it applies them all, and nobody else notices. */
  lemma {:induction false} RumorsApplied(c: Cluster, home: NodeId, events: seq<Packet>)
    requires Inv(c) && home in c.nodes && NewEvents(c, events)
    ensures var d := Run(c, RumorEach(home, events));
            && CoherentRun(c, RumorEach(home, events)) && Inv(d) && d.nodes.Keys == c.nodes.Keys
            && d.nodes[home].applied == c.nodes[home].applied + Idents(events)
            && forall n :: n in c.nodes && n != home ==> d.nodes[n] == c.nodes[n]
    decreases |events|
  {
    hide *;
    EachRun(c, home, events);
    if events == [] {
      NoIdents();
    } else {
      var a := GossipCluster.Rumor(home, events[0], {});
      var d := Step(c, a);
      OneRumor(c, home, events);
      StepKeepsInv(c, a);
      RumorsApplied(d, home, events[1..]);
      IdentsCons(events);
      Chain(c.nodes[home].applied, IdOf(events[0]), Idents(events[1..]));
    }
  }

  lemma Chain(a: seq<Id>, x: Id, rest: seq<Id>)
    ensures (a + [x]) + rest == a + ([x] + rest) && a + [] == a
  {}

  lemma NoIdents()
    ensures Idents([]) == []
  {}

  lemma IdentsCons(events: seq<Packet>)
    requires events != []
    ensures Idents(events) == [IdOf(events[0])] + Idents(events[1..])
  {}

  lemma EachRun(c: Cluster, home: NodeId, events: seq<Packet>)
    ensures events == [] ==> Run(c, RumorEach(home, events)) == c && CoherentRun(c, RumorEach(home, events))
    ensures events != [] ==>
              var a := GossipCluster.Rumor(home, events[0], {});
              && Run(c, RumorEach(home, events)) == Run(Step(c, a), RumorEach(home, events[1..]))
              && (CoherentRun(c, RumorEach(home, events)) <==>
                  Coherent(c, a) && CoherentRun(Step(c, a), RumorEach(home, events[1..])))
  {
    hide Step, Coherent;
    if events == [] {
      RunNone(c);
    } else {
      assert RumorEach(home, events)[1..] == RumorEach(home, events[1..]);
    }
  }

  lemma OneRumor(c: Cluster, home: NodeId, events: seq<Packet>)
    requires Inv(c) && home in c.nodes && events != [] && NewEvents(c, events)
    ensures var a := GossipCluster.Rumor(home, events[0], {});
            var d := Step(c, a);
            && Coherent(c, a) && NewEvents(d, events[1..]) && d.nodes.Keys == c.nodes.Keys
            && d.nodes[home].applied == c.nodes[home].applied + [IdOf(events[0])]
            && forall n :: n in c.nodes && n != home ==> d.nodes[n] == c.nodes[n]
  {
    var a := GossipCluster.Rumor(home, events[0], {});
    assert IdOf(Outgoing(home, events[0])) == IdOf(events[0]);
    SeenIsRumored(c, home);
    hide IdOf, Inv, Valid;
    var ids, rest := Idents(events), events[1..];
    forall i | 0 <= i < |rest|
      ensures IdOf(rest[i]) != IdOf(events[0]) && IdOf(rest[i]) != [] && IdOf(rest[i]) !in c.rumored {
      assert ids[1 + i] != ids[0] && rest[i] == events[1 + i];
    }
    forall i, j | 0 <= i < j < |rest| ensures Idents(rest)[i] != Idents(rest)[j] {
      assert ids[1 + i] != ids[1 + j];
    }
  }

  /** The legs of an exchange with a peer that holds one event alone: its id is missing, is pulled and is answered. */
  lemma OneOffered(a: Log, b: Log, p: Packet)
    requires a.recent == [IdOf(p)] && IdOf(p) in a.events && a.events[IdOf(p)] == p && p.kind == GOSSIP_EVENT
    requires BAR !in IdOf(p) && IdOf(p) !in b.seen && IdOf(p) != []
    ensures Unseen(b, Pieces(DigestText(a), BAR)) == [IdOf(p)] && Pieces(Join([IdOf(p)], BAR), BAR) == [IdOf(p)]
    ensures Lookup(a, [IdOf(p)]) == [p]
  {
    hide IdOf, Pieces;
    var x := IdOf(p);
    assert DigestText(a) == x;
    PiecesOne(x, BAR);
    var one: seq<Id> := [x];
    assert one[1..] == [];
    assert Unseen(b, one) == one + Unseen(b, []);
    assert Join(one, BAR) == x;
    assert Lookup(a, one) == [p] + Lookup(a, []);
  }

  /** So it gives the event back to whoever lacks it. */
  lemma GivesBack(a: Log, b: Log, p: Packet)
    requires a.recent == [IdOf(p)] && IdOf(p) in a.events && a.events[IdOf(p)] == p && p.kind == GOSSIP_EVENT
    requires BAR !in IdOf(p) && IdOf(p) !in b.seen && IdOf(p) != []
    ensures Exchange(a, b) == Record(b, p)
  {
    OneOffered(a, b, p);
    hide IdOf, Pieces, Record, Unseen, Lookup, Join, DigestText;
    assert [p][1..] == [];
    assert OfferAll(b, [p]) == Offer(b, p);
  }

  /** The run: home rumors an event that reaches a peer, then 256 more that reach nobody; its own event has left its
      window, comes back with the next exchange and is applied a second time. */
  lemma OwnEventComesBack(c: Cluster, home: NodeId, peer: NodeId, events: seq<Packet>, now: u64)
    returns (actions: seq<Action>)
    requires Start(c) && home in c.nodes && peer in c.nodes && home != peer
    requires |events| == MAX_EVENT_LOG + 1 && NewEvents(c, events) && BAR !in IdOf(events[0])
    ensures CoherentRun(c, actions) && home in Run(c, actions).nodes
    ensures exists i, j :: 0 <= i < j < |Run(c, actions).nodes[home].applied|
              && Run(c, actions).nodes[home].applied[i] == Run(c, actions).nodes[home].applied[j] == IdOf(events[0])
  {
    var x := IdOf(events[0]);
    hide Start, Run, CoherentRun, Inv, IdOf, RumorEach, NewEvents, Idents, Valid, Exchange, Record;
    var first, c1, p := FirstOut(c, home, peer, events);
    var fill := RumorEach(home, events[1..]);
    RumorsApplied(c1, home, events[1..]);
    var c2 := Run(c1, fill);
    assert c2.nodes[home].applied == [x] + Idents(events[1..]);
    Forgotten(c2, home, x, Idents(events[1..]));
    GivesBack(c1.nodes[peer].log, c2.nodes[home].log, p);
    var last := ExchangeRun(c2, peer, home, now);
    var d := Run(c2, last);
    actions := first + fill + last;
    RunAppend(c, first, fill);
    RunAppend(c, first + fill, last);
    AppliedGrows(c2, last, home);
    RunKeepsInv(c, actions) by { StartInv(c); }
    SecondTime(d, home, c2.nodes[home].log, p, c2.nodes[home].applied);
  }

  /** The event is out: home and peer hold it, and nothing else has happened. */
  lemma FirstOut(c: Cluster, home: NodeId, peer: NodeId, events: seq<Packet>)
    returns (first: seq<Action>, d: Cluster, p: Packet)
    requires Start(c) && home in c.nodes && peer in c.nodes && home != peer && events != [] && NewEvents(c, events)
    ensures CoherentRun(c, first) && Run(c, first) == d && Inv(d) && d.nodes.Keys == c.nodes.Keys
    ensures NewEvents(d, events[1..])
    ensures IdOf(p) == IdOf(events[0]) && p.kind == GOSSIP_EVENT && IdOf(p) != []
    ensures d.nodes[home].applied == [IdOf(p)]
    ensures var l := d.nodes[peer].log;
            Valid(l) && l.recent == [IdOf(p)] && IdOf(p) in l.events && l.events[IdOf(p)] == p
  {
    p := Outgoing(home, events[0]);
    var a := GossipCluster.Rumor(home, events[0], {peer});
    var b := Deliver(Envelope(home, peer, p), 0, true);
    first := [a, b];
    assert IdOf(p) == IdOf(events[0]) && IdOf(p) != [];
    StartInv(c);
    assert Coherent(c, a);
    StepKeepsInv(c, a);
    var c1 := Step(c, a);
    assert Envelope(home, peer, p) in c1.wire;
    StepKeepsInv(c1, b);
    d := Step(c1, b);
    TwoSteps(c, a, b);
    OutEffect(c, home, peer, events);
    StillNew(c, home, events, d);
    SeenIsRumored(d, peer);
    hide Start, Step, Inv, IdOf;
  }

  lemma TwoSteps(c: Cluster, a: Action, b: Action)
    ensures Run(c, [a, b]) == Step(Step(c, a), b)
    ensures (Coherent(c, a) && Coherent(Step(c, a), b) ==> CoherentRun(c, [a, b]))
  {
    hide Step, Coherent;
    assert [a, b][1..] == [b];
    OneStep(Step(c, a), b);
  }

  lemma OneStep(c: Cluster, a: Action)
    ensures Run(c, [a]) == Step(c, a) && (Coherent(c, a) ==> CoherentRun(c, [a]))
  {
    hide Step, Coherent;
    RunNone(Step(c, a));
    assert [a][1..] == [];
  }

  lemma OutEffect(c: Cluster, home: NodeId, peer: NodeId, events: seq<Packet>)
    requires Start(c) && home in c.nodes && peer in c.nodes && home != peer && events != [] && IdOf(events[0]) != []
    ensures var p := Outgoing(home, events[0]);
            var d := Step(Step(c, GossipCluster.Rumor(home, events[0], {peer})),
                          Deliver(Envelope(home, peer, p), 0, true));
            && d.nodes.Keys == c.nodes.Keys && d.rumored == map[IdOf(p) := p]
            && d.nodes[home].applied == [IdOf(p)] && d.nodes[peer].log == Offer(EMPTY, p)
            && var l := d.nodes[peer].log; l.recent == [IdOf(p)] && IdOf(p) in l.events && l.events[IdOf(p)] == p
  {
    var p := Outgoing(home, events[0]);
    assert IdOf(p) == IdOf(events[0]);
    hide IdOf;
    assert Last([] + [IdOf(p)], MAX_EVENT_LOG) == [IdOf(p)];
  }

  lemma StillNew(c: Cluster, home: NodeId, events: seq<Packet>, d: Cluster)
    requires Start(c) && events != [] && NewEvents(c, events) && d.rumored.Keys == {IdOf(events[0])}
    ensures NewEvents(d, events[1..])
  {
    hide IdOf, Start;
    var ids, rest := Idents(events), events[1..];
    forall i | 0 <= i < |rest| ensures IdOf(rest[i]) != IdOf(events[0]) && IdOf(rest[i]) != [] {
      assert ids[1 + i] != ids[0] && rest[i] == events[1 + i];
    }
    forall i, j | 0 <= i < j < |rest| ensures Idents(rest)[i] != Idents(rest)[j] { assert ids[1 + i] != ids[1 + j]; }
  }

  /** After 256 other applications the id has left the window. */
  lemma Forgotten(c: Cluster, home: NodeId, x: Id, more: seq<Id>)
    requires Inv(c) && home in c.nodes && c.nodes[home].applied == [x] + more && |more| == MAX_EVENT_LOG
    ensures x !in c.nodes[home].log.seen && Valid(c.nodes[home].log)
  {
    assert NodeOk(c.nodes[home], c.rumored);
    hide Inv, NodeOk;
    Window(c.nodes[home], c.rumored, x, more);
  }

  lemma Window(n: Node, rumored: map<Id, Packet>, x: Id, more: seq<Id>)
    requires NodeOk(n, rumored) && n.applied == [x] + more && |more| == MAX_EVENT_LOG
    ensures x !in n.log.seen && Valid(n.log)
  {
    hide IdOf;
    assert n.log.recent == more;
    forall j | 0 <= j < |more| ensures more[j] != x {
      assert n.applied[0] == x && n.applied[j + 1] == more[j];
    }
  }

  lemma SecondTime(d: Cluster, home: NodeId, before: Log, p: Packet, applied: seq<Id>)
    requires Inv(d) && home in d.nodes && d.nodes[home].log == Record(before, p)
    requires applied <= d.nodes[home].applied && |applied| > 1 && applied[0] == IdOf(p) && IdOf(p) !in applied[1..]
    ensures exists i, j ::
              0 <= i < j < |d.nodes[home].applied| && d.nodes[home].applied[i] == d.nodes[home].applied[j] == IdOf(p)
  {
    var all := d.nodes[home].applied;
    assert NodeOk(d.nodes[home], d.rumored);
    hide Inv, IdOf;
    var recent := Record(before, p).recent;
    assert recent[|recent| - 1] == IdOf(p);
    assert recent == Last(all, MAX_EVENT_LOG) && all[|all| - 1] == IdOf(p);
    assert all[0] == IdOf(p);
  }
}
