/** Runs of the cluster of chat nodes built step by step from a start: clients act at one home node, with all ids
    drawn from its counter of packets, and packets are delivered one at a time. */
module ClusterSteps {
  import opened ChatCluster
  import opened ClusterIds
  import PacketCodec
  import L = GossipLog
  import G = GossipCluster
  import C = ChatNode
  import N = NodeRuns
  import O = NodeOutcomes
  import T = EventText
  import E = NodeEvents
  import I = EventIds
  import Bytes

  // ---------------------------------------------------------------- one action after the other

  ghost predicate Sane(s: System, book: Book, boots: map<NodeId, C.Node>)
  {
    Ready(s) && Inv(s, boots) && BookOk(s, book) && NamesApart(s) && NoneClash(book)
  }

  /** The run xs, all ids drawn and all actions gone through, leads from s to r. */
  ghost predicate Leads(s: System, book: Book, xs: seq<Ask>, r: System, after: Book)
    requires Ready(s)
  {
    DrawnRun(s, book, xs) && AllHappen(s, xs) && RunAll(s, ActionsIn(xs)) == r && BookAfter(s, book, xs) == after
  }

  lemma LeadsNone(s: System, book: Book)
    requires Ready(s)
    ensures Leads(s, book, [], s, book)
  {}

  lemma LeadsCons(s: System, book: Book, xs: seq<Ask>, r: System, after: Book)
    requires Ready(s) && xs != []
    ensures Leads(s, book, xs, r, after) <==>
              && Draws(s, book, xs[0]) && Happens(s, xs[0].action)
              && Leads(Step(s, xs[0].action), Next(s, book, xs[0]), xs[1..], r, after)
  {
    hide Step, Next, Draws, Happens;
    assert ActionsIn(xs)[1..] == ActionsIn(xs[1..]);
  }

  lemma {:induction false} LeadsSnoc(s: System, book: Book, xs: seq<Ask>, r: System, after: Book, x: Ask)
    requires Ready(s) && Leads(s, book, xs, r, after) && Ready(r) && Draws(r, after, x) && Happens(r, x.action)
    ensures Leads(s, book, xs + [x], Step(r, x.action), Next(r, after, x))
    decreases |xs|
  {
    hide *;
    LeadsCons(s, book, xs + [x], Step(r, x.action), Next(r, after, x));
    if xs == [] {
      assert xs + [x] == [x] && [x][1..] == [];
      LeadsNowhere(s, book, r, after);
      LeadsNone(Step(r, x.action), Next(r, after, x));
    } else {
      LeadsCons(s, book, xs, r, after);
      LeadsSnoc(Step(s, xs[0].action), Next(s, book, xs[0]), xs[1..], r, after, x);
      assert (xs + [x])[0] == xs[0] && (xs + [x])[1..] == xs[1..] + [x];
    }
  }

  lemma LeadsNowhere(s: System, book: Book, r: System, after: Book)
    requires Ready(s) && Leads(s, book, [], r, after)
    ensures r == s && after == book
  {}

  lemma SaneParts(s: System, book: Book, boots: map<NodeId, C.Node>)
    requires Sane(s, book, boots)
    ensures Ready(s) && Inv(s, boots) && BookOk(s, book) && NamesApart(s) && NoneClash(book)
  {
    hide Ready, Inv, BookOk, NamesApart, NoneClash;
  }

  // ---------------------------------------------------------------- a client's action

  function RumorOfEvent(self: string, e: C.Event, text: string): (r: T.Rumor) { T.RumorOf(e, self, "", 0, text) }

  /** What the node asks its counter for this event, and the stamp it rumors it with. */
  function RequestFor(self: string, e: C.Event, text: string): (q: I.Request)
  {
    I.Request(RumorOfEvent(self, e, text).kind, RumorOfEvent(self, e, text).user, 0)
  }

  function StampFor(self: string, e: C.Event, number: nat, text: string): (st: Stamp)
  {
    Stamp(IdAt(self, RequestFor(self, e, text), number), "", 0, text, 0)
  }

  function AskFor(n: NodeId, self: string, a: N.Action, events: seq<C.Event>, base: nat, text: string,
                  reached: set<NodeId>): (x: Ask)
  {
    Ask(Local(n, a, seq(|events|, i requires 0 <= i < |events| => StampFor(self, events[i], base + i + 1, text)),
              reached),
        seq(|events|, i requires 0 <= i < |events| => RequestFor(self, events[i], text)))
  }

  function IdsIn(stamps: seq<Stamp>): (r: seq<Id>)
  {
    if stamps == [] then [] else [T.AsBytes(stamps[0].id)] + IdsIn(stamps[1..])
  }

  /** What rumoring these events does to the cluster. */
  ghost predicate Rumored(s: System, r: System, n: NodeId, events: seq<C.Event>, stamps: seq<Stamp>,
                          reached: set<NodeId>)
    requires n in s.chats && |stamps| == |events|
  {
    && n in s.cluster.nodes && s.cluster.nodes.Keys == r.cluster.nodes.Keys && s.cluster.wire <= r.cluster.wire
    && r.cluster.nodes[n].applied == s.cluster.nodes[n].applied + IdsIn(stamps)
    && (forall m :: m in s.cluster.nodes && m != n ==> r.cluster.nodes[m] == s.cluster.nodes[m])
    && (forall id :: id in s.emitted ==> id in r.emitted && r.emitted[id] == s.emitted[id])
    && (forall i :: 0 <= i < |events| ==>
          T.AsBytes(stamps[i].id) in r.emitted && r.emitted[T.AsBytes(stamps[i].id)] == events[i])
    && forall i, m :: 0 <= i < |events| && m in reached ==>
         G.Envelope(n, m, L.Outgoing(n, RumorFor(s.chats[n].self, events[i], stamps[i]))) in r.cluster.wire
  }

  lemma {:induction false} RumorsReach(s: System, n: NodeId, events: seq<C.Event>, stamps: seq<Stamp>,
                                       reached: set<NodeId>, boots: map<NodeId, C.Node>)
    requires Ready(s) && Inv(s, boots) && n in s.chats && Usable(s, n, events, stamps) && |stamps| == |events|
    requires forall e: C.Event :: e in events && e.MessageEvent? ==> e.id in s.chats[n].db.messages
    ensures Rumored(s, RumorAll(s, n, events, stamps, reached), n, events, stamps, reached)
    decreases |events|
  {
    hide *;
    InvParts(s, boots);
    RumorAllIs(s, n, events, stamps, reached);
    if events == [] {
      RumoredNone(s, n, reached);
    } else {
      var r := RumorOne(s, n, events[0], stamps[0], reached);
      FirstUsable(s, n, events, stamps);
      assert events[0] in events;
      RumorKeeps(s, n, events[0], stamps[0], reached, boots);
      RumorReady(s, n, events[0], stamps[0], reached);
      UsableNext(s, r, n, events, stamps);
      OneReaches(s, n, events[0], stamps[0], reached, boots);
      RumorsReach(r, n, events[1..], stamps[1..], reached, boots);
      assert [events[0]] + events[1..] == events && [stamps[0]] + stamps[1..] == stamps;
      RumoredTrans(s, r, RumorAll(s, n, events, stamps, reached), n, events, stamps, reached);
    }
  }

  lemma RumorAllIs(s: System, n: NodeId, events: seq<C.Event>, stamps: seq<Stamp>, reached: set<NodeId>)
    requires Ready(s) && n in s.chats && |stamps| == |events|
    ensures events == [] ==> stamps == [] && RumorAll(s, n, events, stamps, reached) == s
    ensures events != [] ==>
              var r := RumorOne(s, n, events[0], stamps[0], reached);
              && Ready(r) && r.chats == s.chats
              && RumorAll(s, n, events, stamps, reached) == RumorAll(r, n, events[1..], stamps[1..], reached)
  {
    hide RumorOne;
    if events != [] { RumorReady(s, n, events[0], stamps[0], reached); }
  }

  lemma RumoredNone(s: System, n: NodeId, reached: set<NodeId>)
    requires n in s.chats && n in s.cluster.nodes
    ensures Rumored(s, s, n, [], [], reached)
  {}

  lemma OneReaches(s: System, n: NodeId, e: C.Event, st: Stamp, reached: set<NodeId>, boots: map<NodeId, C.Node>)
    requires Ready(s) && Inv(s, boots) && n in s.chats && Proper(s.chats[n].self, e, st)
    requires T.AsBytes(st.id) !in s.cluster.rumored
    ensures Rumored(s, RumorOne(s, n, e, st, reached), n, [e], [st], reached)
  {
    hide *;
    InvParts(s, boots);
    var p := RumorFor(s.chats[n].self, e, st);
    RumorIs(s, n, e, st, reached);
    ProperMeans(s.chats[n].self, e, st);
    RumorFrame(s.cluster, n, p, reached);
    MeantKeys(s.cluster.rumored, s.emitted);
    OneRumored(s, RumorOne(s, n, e, st, reached), n, e, st, reached);
  }

  lemma MeantKeys(rumored: map<Id, PacketCodec.Packet>, emitted: map<Id, C.Event>)
    requires Meant(rumored, emitted)
    ensures emitted.Keys == rumored.Keys
  {
    hide T.Meaning, L.IdOf;
  }

  lemma OneRumored(s: System, r: System, n: NodeId, e: C.Event, st: Stamp, reached: set<NodeId>)
    requires n in s.chats && n in s.cluster.nodes && s.cluster.nodes.Keys == r.cluster.nodes.Keys
    requires r.emitted == s.emitted[T.AsBytes(st.id) := e] && T.AsBytes(st.id) !in s.emitted
    requires r.cluster.nodes[n].applied == s.cluster.nodes[n].applied + [T.AsBytes(st.id)]
    requires forall m :: m in s.cluster.nodes && m != n ==> r.cluster.nodes[m] == s.cluster.nodes[m]
    requires s.cluster.wire <= r.cluster.wire
    requires forall m :: m in reached ==>
             G.Envelope(n, m, L.Outgoing(n, RumorFor(s.chats[n].self, e, st))) in r.cluster.wire
    ensures Rumored(s, r, n, [e], [st], reached)
  {
    hide T.AsBytes, L.Outgoing, RumorFor;
    IdsInOne(st);
  }

  lemma RumoredTrans(s: System, m: System, r: System, n: NodeId, events: seq<C.Event>, stamps: seq<Stamp>,
                     reached: set<NodeId>)
    requires n in s.chats && m.chats == s.chats && events != [] && |stamps| == |events|
    requires Rumored(s, m, n, [events[0]], [stamps[0]], reached) && Rumored(m, r, n, events[1..], stamps[1..], reached)
    ensures Rumored(s, r, n, events, stamps, reached)
  {
    hide T.AsBytes, L.Outgoing, RumorFor;
    IdsInCons(stamps);
    forall i | 0 <= i < |events|
      ensures T.AsBytes(stamps[i].id) in r.emitted && r.emitted[T.AsBytes(stamps[i].id)] == events[i]
      ensures forall k :: k in reached ==>
                G.Envelope(n, k, L.Outgoing(n, RumorFor(s.chats[n].self, events[i], stamps[i]))) in r.cluster.wire
    {
      if i == 0 {
        assert [events[0]][0] == events[0] && [stamps[0]][0] == stamps[0];
      } else {
        assert events[1..][i - 1] == events[i] && stamps[1..][i - 1] == stamps[i];
      }
    }
  }

  lemma IdsInCons(stamps: seq<Stamp>)
    requires stamps != []
    ensures IdsIn(stamps) == IdsIn([stamps[0]]) + IdsIn(stamps[1..])
  {
    IdsInOne(stamps[0]);
    hide T.AsBytes;
  }

  lemma IdsInOne(st: Stamp)
    ensures IdsIn([st]) == [T.AsBytes(st.id)]
  {
    hide T.AsBytes;
    assert [st][1..] == [];
    assert IdsIn([st][1..]) == [];
  }

  /** The events of the action can be written. */
  ghost predicate CanWrite(self: string, events: seq<C.Event>, base: nat, text: string)
  {
    forall i :: 0 <= i < |events| ==> Proper(self, events[i], StampFor(self, events[i], base + i + 1, text))
  }

  ghost predicate Stamped(self: string, events: seq<C.Event>, base: nat, text: string, stamps: seq<Stamp>)
  {
    && |stamps| == |events|
    && forall i :: 0 <= i < |events| ==> stamps[i] == StampFor(self, events[i], base + i + 1, text)
  }

  /** A client's action whose events can be written goes through, with ids from the counter of packets, as long as no
      disconnect has drawn any. */
  lemma Act(s: System, book: Book, n: NodeId, a: N.Action, events: seq<C.Event>, text: string, reached: set<NodeId>)
    returns (x: Ask)
    requires n in s.chats && n in book && book[n].drops == [] && !a.DoPeer? && !a.DoDisconnect?
    requires BookOk(s, book) && NamesApart(s) && NoneClash(book)
    requires events == E.Emitted(s.chats[n], a) && CanWrite(s.chats[n].self, events, |book[n].asked|, text)
    ensures x.action.Local? && |x.action.stamps| == |x.requests| == |events|
    ensures x.action == Local(n, a, x.action.stamps, reached) && OfClient(s, x.action)
    ensures Stamped(s.chats[n].self, events, |book[n].asked|, text, x.action.stamps)
    ensures Draws(s, book, x) && Happens(s, x.action) && Usable(s, n, events, x.action.stamps)
    ensures var after := Next(s, book, x);
            after.Keys == book.Keys && after[n] == Counters(book[n].asked + x.requests, []) && NoneClash(after)
  {
    hide *;
    var self := s.chats[n].self;
    x := AskFor(n, self, a, events, |book[n].asked|, text, reached);
    AskIs(s, n, self, a, events, |book[n].asked|, text, reached);
    AskDraws(s, book, n, a, events, text, reached);
    NewIff(s, book, x);
    PacketCounter(book[n], a, x.requests);
    HappensIff(s, x.action);
    ClientParts(s, x.action);
    NextIs(s, book, x);
    NoneAt(book, n);
    ClashCounts(book[n], a, x.requests);
    NoneNext(book, n, Next(s, book, x));
  }

  lemma ActSane(s: System, book: Book, boots: map<NodeId, C.Node>, x: Ask)
    requires Ready(s) && Sane(s, book, boots) && OfClient(s, x.action) && Draws(s, book, x) && Happens(s, x.action)
    requires NoneClash(Next(s, book, x))
    ensures Sane(Step(s, x.action), Next(s, book, x), boots)
  {
    hide *;
    SaneParts(s, book, boots);
    StepInv(s, x.action, boots);
    LocalNames(s, x, boots);
    SameApart(s, Step(s, x.action));
    BookNext(s, book, x, boots);
    SaneFrom(Step(s, x.action), Next(s, book, x), boots);
  }

  lemma SaneFrom(s: System, book: Book, boots: map<NodeId, C.Node>)
    requires Ready(s) && Inv(s, boots) && BookOk(s, book) && NamesApart(s) && NoneClash(book)
    ensures Sane(s, book, boots)
  {
    hide Ready, Inv, BookOk, NamesApart, NoneClash;
  }

  lemma AskIs(s: System, n: NodeId, self: string, a: N.Action, events: seq<C.Event>, base: nat, text: string,
              reached: set<NodeId>)
    requires n in s.chats && !a.DoPeer?
    ensures var x := AskFor(n, self, a, events, base, text, reached);
            && x.action == Local(n, a, x.action.stamps, reached) && OfClient(s, x.action)
            && |x.action.stamps| == |x.requests| == |events| && Stamped(self, events, base, text, x.action.stamps)
  {
    hide RequestFor, StampFor;
  }

  lemma AskDraws(s: System, book: Book, n: NodeId, a: N.Action, events: seq<C.Event>, text: string,
                 reached: set<NodeId>)
    requires n in s.chats && n in book && !a.DoPeer? && !a.DoDisconnect?
    requires events == E.Emitted(s.chats[n], a) && CanWrite(s.chats[n].self, events, |book[n].asked|, text)
    ensures var x := AskFor(n, s.chats[n].self, a, events, |book[n].asked|, text, reached);
            Draws(s, book, x) && Fitting(s.chats[n].self, events, x.action.stamps)
  {
    hide E.Emitted, Proper, Named, RequestFor, StampFor;
    var self, base := s.chats[n].self, |book[n].asked|;
    forall i | 0 <= i < |events|
      ensures Named(self, events[i], StampFor(self, events[i], base + i + 1, text), RequestFor(self, events[i], text),
                    base + i + 1)
    {
      NamedFor(self, events[i], base + i + 1, text);
    }
  }

  lemma NamedFor(self: string, e: C.Event, number: nat, text: string)
    ensures Named(self, e, StampFor(self, e, number, text), RequestFor(self, e, text), number)
  {
    hide T.RumorOf, IdAt;
  }

  lemma PacketCounter(c: Counters, a: N.Action, more: seq<I.Request>)
    requires !a.DoDisconnect? && c.drops == []
    ensures !Clash(c, a, more) && Count(c, a, more) == Counters(c.asked + more, [])
  {}

  lemma ActReaches(s: System, n: NodeId, a: N.Action, events: seq<C.Event>, stamps: seq<Stamp>, reached: set<NodeId>,
                   boots: map<NodeId, C.Node>)
    requires Ready(s) && Inv(s, boots) && n in s.chats && !a.DoPeer?
    requires events == E.Emitted(s.chats[n], a) && |stamps| == |events| && Usable(s, n, events, stamps)
    ensures var r := Step(s, Local(n, a, stamps, reached));
            r.chats == s.chats[n := N.Step(s.chats[n], a)] && Rumored(s, r, n, events, stamps, reached)
  {
    hide *;
    NoteCluster(s, n, a);
    var told := Note(s, n, Client(a)).(chats := s.chats[n := N.Step(s.chats[n], a)]);
    LocalIs(s, n, a, stamps, reached);
    ClientKeeps(s, n, a, boots);
    InvCore(s, boots, n);
    MessageStored(s.chats[n], a);
    O.StepSelf(s.chats[n], a);
    UsableThere(s, told, n, events, stamps);
    RumorsReach(told, n, events, stamps, reached, boots);
    RumoredFrom(s, told, Step(s, Local(n, a, stamps, reached)), n, events, stamps, reached);
  }

  lemma NoteCluster(s: System, n: NodeId, a: N.Action)
    requires Ready(s) && n in s.chats
    ensures n in s.history && Note(s, n, Client(a)).cluster == s.cluster && Note(s, n, Client(a)).emitted == s.emitted
  {}

  lemma UsableThere(s: System, told: System, n: NodeId, events: seq<C.Event>, stamps: seq<Stamp>)
    requires n in s.chats && n in told.chats && told.chats[n].self == s.chats[n].self && told.cluster == s.cluster
    requires Usable(s, n, events, stamps)
    ensures Usable(told, n, events, stamps)
  {
    hide Fitting, NewIds;
  }

  lemma RumoredFrom(s: System, told: System, r: System, n: NodeId, events: seq<C.Event>, stamps: seq<Stamp>,
                    reached: set<NodeId>)
    requires n in s.chats && n in told.chats && told.chats[n].self == s.chats[n].self && |stamps| == |events|
    requires told.cluster == s.cluster && told.emitted == s.emitted && Rumored(told, r, n, events, stamps, reached)
    ensures Rumored(s, r, n, events, stamps, reached)
  {
    hide T.AsBytes, L.Outgoing, RumorFor, IdsIn;
  }

  // ---------------------------------------------------------------- a run from a start

  /** The run xs leads from the start s0 to s; the home node has drawn no id for a disconnect. */
  ghost predicate At(s0: System, xs: seq<Ask>, s: System, book: Book, home: NodeId)
  {
    && Ready(s0) && Leads(s0, NoBook(s0), xs, s, book) && Sane(s, book, s0.chats)
    && home in s.chats && home in s.cluster.nodes && home in book && book[home].drops == []
  }

  lemma AtStart(s0: System, home: NodeId)
    requires Start(s0) && NamesApart(s0) && home in s0.chats
    ensures At(s0, [], s0, NoBook(s0), home) && NoBook(s0)[home] == Counters([], [])
  {
    StartReady(s0);
    assert home in NoBook(s0) && NoBook(s0)[home] == Counters([], []) && home in s0.cluster.nodes;
    hide Start, NoBook, Leads, Sane, Inv, BookOk, NamesApart, NoneClash, Ready;
    StartInv(s0);
    StartBook(s0);
    LeadsNone(s0, NoBook(s0));
    SaneFrom(s0, NoBook(s0), s0.chats);
  }

  lemma AtParts(s0: System, xs: seq<Ask>, s: System, book: Book, home: NodeId)
    requires At(s0, xs, s, book, home)
    ensures Ready(s0) && Leads(s0, NoBook(s0), xs, s, book) && Sane(s, book, s0.chats) && Ready(s) && Inv(s, s0.chats)
    ensures home in s.chats && home in s.cluster.nodes && home in book && book[home].drops == []
  {
    hide Ready, Leads, Sane, NoBook, Inv;
    SaneParts(s, book, s0.chats);
  }

  lemma AtFrom(s0: System, xs: seq<Ask>, s: System, book: Book, home: NodeId)
    requires Ready(s0) && Leads(s0, NoBook(s0), xs, s, book) && Sane(s, book, s0.chats)
    requires home in s.chats && home in s.cluster.nodes && home in book && book[home].drops == []
    ensures At(s0, xs, s, book, home)
  {
    hide Ready, Leads, Sane, NoBook;
  }

  lemma {:induction false} IdsInLength(stamps: seq<Stamp>)
    ensures |IdsIn(stamps)| == |stamps|
  {
    if stamps != [] { IdsInLength(stamps[1..]); }
  }

  /** One more action of a client at the home node. */
  lemma Go(s0: System, xs: seq<Ask>, s: System, book: Book, home: NodeId, a: N.Action, events: seq<C.Event>,
           text: string, reached: set<NodeId>)
    returns (ys: seq<Ask>, r: System, after: Book, stamps: seq<Stamp>)
    requires At(s0, xs, s, book, home) && !a.DoPeer? && !a.DoDisconnect?
    requires events == E.Emitted(s.chats[home], a) && CanWrite(s.chats[home].self, events, |book[home].asked|, text)
    ensures home in after && At(s0, ys, r, after, home) && r.chats == s.chats[home := N.Step(s.chats[home], a)]
    ensures |stamps| == |events| && Stamped(s.chats[home].self, events, |book[home].asked|, text, stamps)
    ensures |after[home].asked| == |book[home].asked| + |events| && Rumored(s, r, home, events, stamps, reached)
  {
    hide *;
    AtParts(s0, xs, s, book, home);
    SaneParts(s, book, s0.chats);
    var x := Act(s, book, home, a, events, text, reached);
    r, after, stamps := Step(s, x.action), Next(s, book, x), x.action.stamps;
    ActSane(s, book, s0.chats, x);
    ActReaches(s, home, a, events, stamps, reached, s0.chats);
    LeadsSnoc(s0, NoBook(s0), xs, s, book, x);
    ys := xs + [x];
    RumoredHere(s, r, home, events, stamps, reached);
    AtFrom(s0, ys, r, after, home);
  }

  lemma RumoredHere(s: System, r: System, n: NodeId, events: seq<C.Event>, stamps: seq<Stamp>, reached: set<NodeId>)
    requires n in s.chats && |stamps| == |events| && Rumored(s, r, n, events, stamps, reached)
    ensures n in s.cluster.nodes && s.cluster.nodes.Keys == r.cluster.nodes.Keys
    ensures r.cluster.nodes[n].applied == s.cluster.nodes[n].applied + IdsIn(stamps) && |IdsIn(stamps)| == |stamps|
    ensures forall m :: m in s.cluster.nodes && m != n ==> r.cluster.nodes[m] == s.cluster.nodes[m]
  {
    hide T.AsBytes, L.Outgoing, RumorFor, IdsIn;
    IdsInLength(stamps);
  }

  /** One more step of gossip. */
  lemma Hear(s0: System, xs: seq<Ask>, s: System, book: Book, home: NodeId, step: G.Action, guest: C.User)
    returns (ys: seq<Ask>, r: System)
    requires At(s0, xs, s, book, home) && !step.Rumor?
    ensures At(s0, ys, r, book, home) && Ready(s) && r == Step(s, Gossip(step, guest))
    ensures r.cluster == G.Step(s.cluster, step)
  {
    hide *;
    AtParts(s0, xs, s, book, home);
    SaneParts(s, book, s0.chats);
    var x := Ask(Gossip(step, guest), []);
    r := Step(s, x.action);
    PacketAsksNothing(s, book, x);
    NextSame(s, book, x);
    LeadsSnoc(s0, NoBook(s0), xs, s, book, x);
    ys := xs + [x];
    StepInv(s, x.action, s0.chats);
    GossipNames(s, x.action, s0.chats);
    BookSame(s, r, book);
    SameApart(s, r);
    SaneFrom(r, book, s0.chats);
    PacketIs(s, step, guest);
    GossipNodes(s.cluster, step);
    NamesParts(s, r);
    AtFrom(s0, ys, r, book, home);
  }

  lemma PacketAsksNothing(s: System, book: Book, x: Ask)
    requires !x.action.Local?
    ensures !OfClient(s, x.action) && Draws(s, book, x)
  {}

  /** A packet that is no new event leaves the chat nodes alone. */
  lemma HeardNothing(s: System, step: G.Action, guest: C.User, r: System)
    requires Ready(s) && !step.Rumor? && !Applies(s.cluster, step) && r == Step(s, Gossip(step, guest))
    ensures r.chats == s.chats
  {
    hide G.Step, N.Step, T.Meaning, L.IdOf, L.Fresh, Applies;
  }

  /** A new event takes effect at its node as what it means. */
  lemma HeardEvent(s: System, src: NodeId, n: NodeId, p: PacketCodec.Packet, guest: C.User, e: C.Event, r: System)
    requires Ready(s) && n in s.chats && r == Step(s, Gossip(G.Deliver(G.Envelope(src, n, p), 0, true), guest))
    requires Applies(s.cluster, G.Deliver(G.Envelope(src, n, p), 0, true)) && T.Meaning(p) == Bytes.Some(e)
    ensures r.chats == s.chats[n := N.Step(s.chats[n], N.DoPeer(e, guest))] && r.emitted == s.emitted
  {
    hide G.Step, N.Step, T.Meaning, L.IdOf, L.Fresh, Applies;
  }

  // ---------------------------------------------------------------- events that can be written

  /** Short enough, and of one-byte characters. */
  predicate Short(s: string) { |s| < 0x1000_0000 && forall c :: c in s ==> c as int < 256 }

  predicate Writable(self: string, e: C.Event)
  {
    match e
    case LoginEvent(u, node) => Short(u) && node == self
    case RoomJoinEvent(u, node, prev, room) => Short(u) && node == self && Short(prev) && Short(room)
    case MessageEvent(_, u, room) => Short(u) && Short(room)
    case UserCreatedEvent(u) => Short(u.name) && Short(u.email) && u.kind == C.USER
    case _ => false
  }

  lemma WritableProper(self: string, e: C.Event, number: nat, text: string)
    requires Short(self) && Writable(self, e) && number < 1000 && Short(text) && text != ""
    requires e.MessageEvent? ==> e.id == StampFor(self, e, number, text).id
    ensures Proper(self, e, StampFor(self, e, number, text))
  {
    var r := RumorOfEvent(self, e, text);
    RumorNarrow(self, e, text);
    hide T.Narrow, I.MakeId, T.RumorOf;
    T.IdNarrow(self, r.kind, r.user, 0, number);
  }

  lemma RumorNarrow(self: string, e: C.Event, text: string)
    requires Short(self) && Writable(self, e) && Short(text)
    ensures var r := RumorOfEvent(self, e, text);
            && T.Narrow(r.kind) && T.Narrow(r.user) && T.Narrow(r.content) && T.Narrow(r.field5) && T.Narrow(r.room)
            && |r.kind| < 20 && |r.user| < 0x1000_0000
  {
    assert T.Narrow("LOGIN") && T.Narrow("ROOM_JOIN") && T.Narrow("MESSAGE") && T.Narrow("USER_CREATED")
      && T.Narrow("0");
  }

  // ---------------------------------------------------------------- one action at one node

  /** Nothing has happened at the other nodes. */
  ghost predicate Others(s: System, r: System, home: NodeId)
  {
    && s.cluster.nodes.Keys == r.cluster.nodes.Keys && s.chats.Keys == r.chats.Keys
    && (forall m :: m in s.cluster.nodes && m != home ==> r.cluster.nodes[m] == s.cluster.nodes[m])
    && (forall m :: m in s.chats && m != home ==> r.chats[m] == s.chats[m])
  }

  lemma OthersTrans(s: System, m: System, r: System, home: NodeId)
    requires Others(s, m, home) && Others(m, r, home)
    ensures Others(s, r, home)
  {}

  lemma AfterGo(s: System, r: System, home: NodeId, next: C.Node, events: seq<C.Event>, stamps: seq<Stamp>,
                reached: set<NodeId>)
    requires home in s.chats && |stamps| == |events| && r.chats == s.chats[home := next]
    requires Rumored(s, r, home, events, stamps, reached)
    ensures Others(s, r, home) && home in s.cluster.nodes && home in r.cluster.nodes && home in r.chats
    ensures r.chats[home] == next
    ensures r.cluster.nodes[home].applied == s.cluster.nodes[home].applied + IdsIn(stamps)
    ensures |IdsIn(stamps)| == |events|
    ensures s.cluster.wire <= r.cluster.wire
  {
    hide T.AsBytes, L.Outgoing, RumorFor, IdsIn;
    RumoredHere(s, r, home, events, stamps, reached);
  }

  /** One event that can be written. */
  lemma WriteOne(self: string, e: C.Event, base: nat, text: string)
    requires Short(self) && Writable(self, e) && base < 900 && Short(text) && text != ""
    requires e.MessageEvent? ==> e.id == StampFor(self, e, base + 1, text).id
    ensures CanWrite(self, [e], base, text)
  {
    hide Short, Writable, Proper, StampFor;
    WritableProper(self, e, base + 1, text);
  }

  lemma WriteAll(self: string, events: seq<C.Event>, base: nat, text: string)
    requires Short(self) && base + |events| < 900 && Short(text) && text != ""
    requires forall e :: e in events ==> Writable(self, e) && !e.MessageEvent?
    ensures CanWrite(self, events, base, text)
  {
    hide Short, Writable, Proper, StampFor;
    forall i | 0 <= i < |events| ensures Proper(self, events[i], StampFor(self, events[i], base + i + 1, text)) {
      assert events[i] in events;
      WritableProper(self, events[i], base + i + 1, text);
    }
  }

  lemma Fixed()
    ensures Short(C.LOBBY.name) && Short(C.GENERAL.name) && Short("hello")
  {}

  /** An action with the single event e, rumored with stamp st, leaves the home node in state next. */
  ghost predicate Done(s: System, r: System, n: NodeId, next: C.Node, self: string, e: C.Event, st: Stamp,
                       reached: set<NodeId>)
  {
    && Others(s, r, n) && n in s.cluster.nodes && n in r.cluster.nodes && n in r.chats && r.chats[n] == next
    && r.cluster.nodes[n].applied == s.cluster.nodes[n].applied + [T.AsBytes(st.id)] && s.cluster.wire <= r.cluster.wire
    && T.AsBytes(st.id) in r.emitted && r.emitted[T.AsBytes(st.id)] == e
    && forall m :: m in reached ==> G.Envelope(n, m, L.Outgoing(n, RumorFor(self, e, st))) in r.cluster.wire
  }

  lemma DoneParts(s: System, r: System, n: NodeId, next: C.Node, self: string, e: C.Event, st: Stamp,
                  reached: set<NodeId>)
    requires Done(s, r, n, next, self, e, st, reached)
    ensures Others(s, r, n) && n in s.cluster.nodes && n in r.cluster.nodes && n in r.chats && r.chats[n] == next
    ensures r.cluster.nodes[n].applied == s.cluster.nodes[n].applied + [T.AsBytes(st.id)]
    ensures s.cluster.wire <= r.cluster.wire
    ensures T.AsBytes(st.id) in r.emitted && r.emitted[T.AsBytes(st.id)] == e
    ensures forall m :: m in reached ==> G.Envelope(n, m, L.Outgoing(n, RumorFor(self, e, st))) in r.cluster.wire
  {
    hide Others, T.AsBytes, L.Outgoing, RumorFor;
  }

  /** The next event that is rumored can be written. */
  predicate Sayable(self: string, e: C.Event, base: nat)
  {
    && Short(self) && Writable(self, e) && base < 900
    && (e.MessageEvent? ==> e.id == StampFor(self, e, base + 1, "hello").id)
  }

  lemma SayableIf(self: string, e: C.Event, base: nat)
    requires Short(self) && Writable(self, e) && base < 900
    requires e.MessageEvent? ==> e.id == StampFor(self, e, base + 1, "hello").id
    ensures Sayable(self, e, base)
  {
    hide Short, Writable, StampFor;
  }

  lemma SayableProper(self: string, e: C.Event, base: nat)
    requires Sayable(self, e, base)
    ensures Proper(self, e, StampFor(self, e, base + 1, "hello")) && CanWrite(self, [e], base, "hello")
  {
    Fixed();
    assert "hello" != "";
    hide Short, Writable, StampFor, Proper, CanWrite;
    WriteOne(self, e, base, "hello");
    WritableProper(self, e, base + 1, "hello");
  }

  /** One more action with a single event. */
  lemma GoOne(s0: System, xs: seq<Ask>, s: System, book: Book, home: NodeId, a: N.Action, e: C.Event,
              reached: set<NodeId>)
    returns (ys: seq<Ask>, r: System, after: Book, st: Stamp)
    requires home in s.chats && home in book && !a.DoPeer? && !a.DoDisconnect? && At(s0, xs, s, book, home)
    requires E.Emitted(s.chats[home], a) == [e] && Sayable(s.chats[home].self, e, |book[home].asked|)
    ensures home in after && At(s0, ys, r, after, home) && |after[home].asked| == |book[home].asked| + 1
    ensures st == StampFor(s.chats[home].self, e, |book[home].asked| + 1, "hello")
    ensures Done(s, r, home, N.Step(s.chats[home], a), s.chats[home].self, e, st, reached)
  {
    hide *;
    var self, next, events := s.chats[home].self, N.Step(s.chats[home], a), E.Emitted(s.chats[home], a);
    SayableProper(self, e, |book[home].asked|);
    var stamps;
    ys, r, after, stamps := Go(s0, xs, s, book, home, a, events, "hello", reached);
    AfterGo(s, r, home, next, events, stamps, reached);
    AtParts(s0, ys, r, after, home);
    st := StampFor(self, e, |book[home].asked| + 1, "hello");
    OneStamp(s, r, home, self, events, |book[home].asked|, stamps, reached, st);
    DoneFrom(s, r, home, next, self, e, st, reached);
  }

  lemma DoneFrom(s: System, r: System, n: NodeId, next: C.Node, self: string, e: C.Event, st: Stamp,
                 reached: set<NodeId>)
    requires Others(s, r, n) && n in s.cluster.nodes && n in r.cluster.nodes && n in r.chats && r.chats[n] == next
    requires r.cluster.nodes[n].applied == s.cluster.nodes[n].applied + [T.AsBytes(st.id)]
    requires s.cluster.wire <= r.cluster.wire
    requires T.AsBytes(st.id) in r.emitted && r.emitted[T.AsBytes(st.id)] == e
    requires forall m :: m in reached ==> G.Envelope(n, m, L.Outgoing(n, RumorFor(self, e, st))) in r.cluster.wire
    ensures Done(s, r, n, next, self, e, st, reached)
  {
    hide Others, T.AsBytes, L.Outgoing, RumorFor;
  }

  lemma OneStamp(s: System, r: System, n: NodeId, self: string, events: seq<C.Event>, base: nat, stamps: seq<Stamp>,
                 reached: set<NodeId>, st: Stamp)
    requires n in s.chats && self == s.chats[n].self && |stamps| == |events| == 1
    requires Stamped(self, events, base, "hello", stamps) && Rumored(s, r, n, events, stamps, reached)
    requires st == StampFor(self, events[0], base + 1, "hello")
    ensures IdsIn(stamps) == [T.AsBytes(st.id)] && T.AsBytes(st.id) in r.emitted
    ensures r.emitted[T.AsBytes(st.id)] == events[0]
    ensures forall m :: m in reached ==>
            G.Envelope(n, m, L.Outgoing(n, RumorFor(self, events[0], st))) in r.cluster.wire
  {
    hide T.AsBytes, L.Outgoing, RumorFor, IdsIn, StampFor;
    assert stamps == [st];
    IdsInOne(st);
  }
}
