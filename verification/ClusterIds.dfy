/** The cluster of chat nodes with event ids as the nodes make them: every node draws the ids of its rumors from its
    two counters, one for packets and one for disconnects. When the ids are new, and so every action goes through. */
module ClusterIds {
  import opened ChatCluster
  import PacketCodec
  import L = GossipLog
  import G = GossipCluster
  import C = ChatNode
  import N = NodeRuns
  import T = EventText
  import E = NodeEvents
  import I = EventIds
  import O = NodeOutcomes

  /** What a node's counters have been asked for. */
  datatype Counters = Counters(asked: seq<I.Request>, drops: seq<I.Request>)

  type Book = map<NodeId, Counters>

  /** An action and what is asked of the counters for its rumors, in order. */
  datatype Ask = Ask(action: Action, requests: seq<I.Request>)

  function Counter(c: Counters, a: N.Action): (r: seq<I.Request>) { if a.DoDisconnect? then c.drops else c.asked }
  function Other(c: Counters, a: N.Action): (r: seq<I.Request>) { if a.DoDisconnect? then c.asked else c.drops }

  function Count(c: Counters, a: N.Action, more: seq<I.Request>): (r: Counters)
  {
    if a.DoDisconnect? then c.(drops := c.drops + more) else c.(asked := c.asked + more)
  }

  /** A client's action at a node there is. */
  predicate OfClient(s: System, a: Action) { a.Local? && a.n in s.chats && !a.action.DoPeer? }

  function IdAt(self: string, q: I.Request, number: nat): (id: string)
  {
    I.MakeId(self, q.kind, q.user, q.time, number)
  }

  /** The request is for this event, and the stamp has the id it is answered with. */
  predicate Named(self: string, e: C.Event, st: Stamp, q: I.Request, number: nat)
  {
    var r := T.RumorOf(e, self, st.actor, st.time, st.text);
    q.kind == r.kind && q.user == r.user && q.time >= 0 && st.id == IdAt(self, q, number)
  }

  ghost predicate Draws(s: System, book: Book, x: Ask)
  {
    OfClient(s, x.action) ==>
      var a := x.action;
      && a.n in book
      && var self, events, base := s.chats[a.n].self, E.Emitted(s.chats[a.n], a.action), |Counter(book[a.n], a.action)|;
         && Fitting(self, events, a.stamps) && |x.requests| == |events|
         && forall i :: 0 <= i < |events| ==> Named(self, events[i], a.stamps[i], x.requests[i], base + i + 1)
  }

  function Next(s: System, book: Book, x: Ask): (r: Book)
  {
    var a := x.action;
    if OfClient(s, a) && a.n in book then book[a.n := Count(book[a.n], a.action, x.requests)] else book
  }

  ghost predicate DrawnRun(s: System, book: Book, xs: seq<Ask>)
    requires Ready(s)
    decreases |xs|
  {
    xs == [] || (Draws(s, book, xs[0]) && DrawnRun(Step(s, xs[0].action), Next(s, book, xs[0]), xs[1..]))
  }

  ghost function BookAfter(s: System, book: Book, xs: seq<Ask>): (r: Book)
    requires Ready(s)
    decreases |xs|
  {
    if xs == [] then book else BookAfter(Step(s, xs[0].action), Next(s, book, xs[0]), xs[1..])
  }

  /** Every client's action of the run goes through. */
  ghost predicate AllHappen(s: System, xs: seq<Ask>)
    requires Ready(s)
    decreases |xs|
  {
    xs == [] || (Happens(s, xs[0].action) && AllHappen(Step(s, xs[0].action), xs[1..]))
  }

  predicate Happens(s: System, a: Action)
  {
    OfClient(s, a) ==> Usable(s, a.n, E.Emitted(s.chats[a.n], a.action), a.stamps)
  }

  function ActionsIn(xs: seq<Ask>): (r: seq<Action>)
    ensures |r| == |xs| && forall i :: 0 <= i < |r| ==> r[i] == xs[i].action
  {
    if xs == [] then [] else [xs[0].action] + ActionsIn(xs[1..])
  }

  ghost predicate NamesApart(s: System)
  {
    forall m, n :: m in s.chats && n in s.chats && m != n ==> ApartFrom(s.chats[m].self, s.chats[n].self)
  }

  ghost predicate ApartFrom(a: string, b: string) { a != b && I.Apart(a, b) }

  /** The two counters never had the same LOGOUT under the same number. */
  ghost predicate NoClash(c: Counters)
  {
    forall i :: 0 <= i < |c.asked| && i < |c.drops| ==> c.asked[i] != c.drops[i]
  }

  // ---------------------------------------------------------------- ids given out

  /** A request whose id can be told apart. */
  predicate Sound(q: I.Request) { I.SourceKind(q.kind) && q.time >= 0 }

  ghost predicate CountersOk(c: Counters)
  {
    (forall q :: q in c.asked ==> Sound(q)) && forall q :: q in c.drops ==> Sound(q)
  }

  ghost predicate GivesAt(self: string, qs: seq<I.Request>, i: nat, y: string)
  {
    i < |qs| && y == IdAt(self, qs[i], i + 1)
  }

  ghost predicate Gives(self: string, c: Counters, y: string)
  {
    exists i :: GivesAt(self, c.asked, i, y) || GivesAt(self, c.drops, i, y)
  }

  /** y is an id given out by a node, and id is y in bytes. */
  ghost predicate Origin(s: System, book: Book, id: Id, n: NodeId, y: string)
  {
    n in book && n in s.chats && Gives(s.chats[n].self, book[n], y) && T.Narrow(y) && T.AsBytes(y) == id
  }

  ghost predicate Sources(s: System, book: Book)
  {
    forall id :: id in s.cluster.rumored ==> exists n, y :: Origin(s, book, id, n, y)
  }

  ghost predicate Used(s: System, book: Book, n: NodeId)
    requires n in s.chats && n in book
  {
    forall y :: Gives(s.chats[n].self, book[n], y) ==> T.Narrow(y) && T.AsBytes(y) in s.cluster.rumored
  }

  /** The ids rumored are exactly those the counters gave out. */
  ghost predicate BookOk(s: System, book: Book)
  {
    && book.Keys == s.chats.Keys && Sources(s, book)
    && (forall n :: n in book ==> CountersOk(book[n])) && forall n :: n in book && n in s.chats ==> Used(s, book, n)
  }

  lemma SameBytes(x: string, y: string)
    requires T.Narrow(x) && T.Narrow(y) && T.AsBytes(x) == T.AsBytes(y)
    ensures x == y
  {
    hide T.Narrow, T.AsBytes, T.AsText;
    T.TextBack(x);
    T.TextBack(y);
  }

  lemma SameCounter(self: string, p: I.Request, i: nat, q: I.Request, j: nat)
    requires IdAt(self, p, i) == IdAt(self, q, j)
    ensures i == j
  {
    hide I.MakeId;
    I.NumbersDiffer(self, p.kind, p.user, p.time, i, self, q.kind, q.user, q.time, j);
  }

  lemma SameNode(self: string, p: I.Request, i: nat, q: I.Request, j: nat)
    requires Sound(p) && Sound(q) && IdAt(self, p, i) == IdAt(self, q, j)
    ensures i == j && p == q
  {
    hide I.MakeId, I.SourceKind;
    I.KindHasNoDash(p.kind);
    I.KindHasNoDash(q.kind);
    I.SameNodeIff(self, p.kind, p.user, p.time, i, q.kind, q.user, q.time, j);
  }

  lemma OtherNode(self: string, p: I.Request, i: nat, self': string, q: I.Request, j: nat)
    requires Sound(p) && Sound(q) && ApartFrom(self, self')
    ensures IdAt(self, p, i) != IdAt(self', q, j)
  {
    hide I.MakeId, I.SourceKind, I.Apart;
    I.NodesDiffer(self, I.Parts(p.kind, p.user, p.time, i), self', I.Parts(q.kind, q.user, q.time, j));
  }

  // ---------------------------------------------------------------- one action

  /** The other counter has given out, under the same number, what is asked now. */
  ghost predicate Clash(c: Counters, a: N.Action, requests: seq<I.Request>)
  {
    var base := |Counter(c, a)|;
    exists i :: 0 <= i < |requests| && base + i < |Other(c, a)| && Other(c, a)[base + i] == requests[i]
  }

  lemma RumorSound(e: C.Event, self: string, st: Stamp)
    ensures I.SourceKind(T.RumorOf(e, self, st.actor, st.time, st.text).kind)
  {}

  lemma StampNarrow(self: string, e: C.Event, st: Stamp)
    requires Proper(self, e, st)
    ensures T.Narrow(st.id)
  {
    hide T.Narrow, T.Honest, T.RumorOf;
  }

  /** What Draws says of one event. */
  lemma DrawnAt(s: System, book: Book, x: Ask, i: nat)
    requires OfClient(s, x.action) && Draws(s, book, x) && i < |x.requests|
    ensures var a := x.action;
            && a.n in book && i < |a.stamps| && Sound(x.requests[i]) && T.Narrow(a.stamps[i].id)
            && a.stamps[i].id == IdAt(s.chats[a.n].self, x.requests[i], |Counter(book[a.n], a.action)| + i + 1)
  {
    hide *;
    DrawnParts(s, book, x);
    var a := x.action;
    var events := E.Emitted(s.chats[a.n], a.action);
    NamedParts(s.chats[a.n].self, events[i], a.stamps[i], x.requests[i], |Counter(book[a.n], a.action)| + i + 1);
  }

  lemma DrawnParts(s: System, book: Book, x: Ask)
    requires OfClient(s, x.action) && Draws(s, book, x)
    ensures OfClient(s, x.action) ==> x.action.Local? && x.action.n in s.chats && !x.action.action.DoPeer?
    ensures var a := x.action;
            && a.n in book
            && var self, events, base :=
               s.chats[a.n].self, E.Emitted(s.chats[a.n], a.action), |Counter(book[a.n], a.action)|;
               && Fitting(self, events, a.stamps) && |x.requests| == |events| == |a.stamps|
               && forall i :: 0 <= i < |events| ==>
                    Named(self, events[i], a.stamps[i], x.requests[i], base + i + 1)
                      && Proper(self, events[i], a.stamps[i])
  {
    hide Named, Proper, E.Emitted, Counter;
  }

  lemma NamedParts(self: string, e: C.Event, st: Stamp, q: I.Request, number: nat)
    requires Named(self, e, st, q, number) && Proper(self, e, st)
    ensures Sound(q) && T.Narrow(st.id) && st.id == IdAt(self, q, number)
  {
    hide I.SourceKind, T.RumorOf, Proper, IdAt, T.Narrow;
    RumorSound(e, self, st);
    StampNarrow(self, e, st);
  }

  /** The ids of an action are new exactly when none of its requests clashes. */
  lemma NewIff(s: System, book: Book, x: Ask)
    requires BookOk(s, book) && NamesApart(s) && OfClient(s, x.action) && Draws(s, book, x)
    ensures x.action.n in book
    ensures NewIds(s.cluster.rumored, x.action.stamps) <==> !Clash(book[x.action.n], x.action.action, x.requests)
  {
    hide *;
    DrawnParts(s, book, x);
    var a := x.action;
    var c, self, base := book[a.n], s.chats[a.n].self, |Counter(book[a.n], a.action)|;
    if Clash(c, a.action, x.requests) {
      var i := ClashAt(c, a.action, x.requests);
      DrawnAt(s, book, x, i);
      OtherGives(self, c, a.action, base + i);
      UsedAt(s, book, a.n, a.stamps[i].id);
      NotNew(s.cluster.rumored, a.stamps, i);
    } else {
      forall i | 0 <= i < |a.stamps| ensures T.AsBytes(a.stamps[i].id) !in s.cluster.rumored { IdIsNew(s, book, x, i); }
      forall i, j | 0 <= i < j < |a.stamps| ensures T.AsBytes(a.stamps[i].id) != T.AsBytes(a.stamps[j].id) {
        DrawnAt(s, book, x, i);
        DrawnAt(s, book, x, j);
        if T.AsBytes(a.stamps[i].id) == T.AsBytes(a.stamps[j].id) {
          SameBytes(a.stamps[i].id, a.stamps[j].id);
          SameCounter(self, x.requests[i], base + i + 1, x.requests[j], base + j + 1);
        }
      }
      AllNew(s.cluster.rumored, a.stamps);
    }
  }

  lemma ClashAt(c: Counters, a: N.Action, requests: seq<I.Request>) returns (i: nat)
    requires Clash(c, a, requests)
    ensures var base := |Counter(c, a)|;
            i < |requests| && base + i < |Other(c, a)| && Other(c, a)[base + i] == requests[i]
  {
    var base := |Counter(c, a)|;
    i :| 0 <= i < |requests| && base + i < |Other(c, a)| && Other(c, a)[base + i] == requests[i];
  }

  lemma OtherGives(self: string, c: Counters, a: N.Action, i: nat)
    requires i < |Other(c, a)|
    ensures Gives(self, c, IdAt(self, Other(c, a)[i], i + 1))
  {
    hide IdAt;
    var y := IdAt(self, Other(c, a)[i], i + 1);
    assert GivesAt(self, c.asked, i, y) || GivesAt(self, c.drops, i, y);
  }

  lemma UsedAt(s: System, book: Book, n: NodeId, y: string)
    requires BookOk(s, book) && n in book && n in s.chats && Gives(s.chats[n].self, book[n], y)
    ensures T.Narrow(y) && T.AsBytes(y) in s.cluster.rumored
  {
    hide Gives, T.Narrow, T.AsBytes, Sources, CountersOk;
    assert Used(s, book, n);
  }

  lemma NotNew(rumored: map<Id, PacketCodec.Packet>, stamps: seq<Stamp>, i: nat)
    requires i < |stamps| && T.AsBytes(stamps[i].id) in rumored
    ensures !NewIds(rumored, stamps)
  {
    hide T.AsBytes;
  }

  lemma AllNew(rumored: map<Id, PacketCodec.Packet>, stamps: seq<Stamp>)
    requires forall i :: 0 <= i < |stamps| ==> T.AsBytes(stamps[i].id) !in rumored
    requires forall i, j :: 0 <= i < j < |stamps| ==> T.AsBytes(stamps[i].id) != T.AsBytes(stamps[j].id)
    ensures NewIds(rumored, stamps)
  {
    hide T.AsBytes;
  }

  lemma OriginOf(s: System, book: Book, id: Id) returns (n: NodeId, y: string)
    requires BookOk(s, book) && id in s.cluster.rumored
    ensures Origin(s, book, id, n, y) && n in book && n in s.chats && CountersOk(book[n])
  {
    hide Origin, CountersOk, Used;
    assert exists n, y :: Origin(s, book, id, n, y);
    n, y :| Origin(s, book, id, n, y);
    OriginParts(s, book, id, n, y);
  }

  lemma OriginParts(s: System, book: Book, id: Id, n: NodeId, y: string)
    requires Origin(s, book, id, n, y)
    ensures n in book && n in s.chats && Gives(s.chats[n].self, book[n], y) && T.Narrow(y) && T.AsBytes(y) == id
  {
    hide Gives, T.Narrow, T.AsBytes;
  }

  lemma IdIsNew(s: System, book: Book, x: Ask, i: nat)
    requires BookOk(s, book) && NamesApart(s) && OfClient(s, x.action) && Draws(s, book, x)
    requires i < |x.action.stamps| && i < |x.requests| && x.action.n in book
    requires !Clash(book[x.action.n], x.action.action, x.requests)
    ensures T.AsBytes(x.action.stamps[i].id) !in s.cluster.rumored
  {
    hide *;
    var a := x.action;
    DrawnAt(s, book, x, i);
    DrawnParts(s, book, x);
    var id := T.AsBytes(a.stamps[i].id);
    if id in s.cluster.rumored {
      var m, y := OriginOf(s, book, id);
      OriginParts(s, book, id, m, y);
      SameBytes(a.stamps[i].id, y);
      var c, number := book[a.n], |Counter(book[a.n], a.action)| + i + 1;
      var k, q := GivenBy(s.chats[m].self, book[m], y, a.action);
      if m == a.n {
        SameNode(s.chats[m].self, x.requests[i], number, q, k + 1);
        NoClashAt(c, a.action, x.requests, i);
      } else {
        ApartAt(s, a.n, m);
        OtherNode(s.chats[a.n].self, x.requests[i], number, s.chats[m].self, q, k + 1);
      }
    }
  }

  lemma GivenBy(self: string, c: Counters, y: string, a: N.Action) returns (k: nat, q: I.Request)
    requires Gives(self, c, y) && CountersOk(c)
    ensures Sound(q) && y == IdAt(self, q, k + 1)
    ensures (k < |Counter(c, a)| && q == Counter(c, a)[k]) || (k < |Other(c, a)| && q == Other(c, a)[k])
  {
    hide IdAt, Sound;
    k :| GivesAt(self, c.asked, k, y) || GivesAt(self, c.drops, k, y);
    if GivesAt(self, c.asked, k, y) {
      q := c.asked[k];
      assert q in c.asked;
    } else {
      q := c.drops[k];
      assert q in c.drops;
    }
  }

  lemma NoClashAt(c: Counters, a: N.Action, requests: seq<I.Request>, i: nat)
    requires !Clash(c, a, requests) && i < |requests|
    ensures var k := |Counter(c, a)| + i; k < |Other(c, a)| ==> Other(c, a)[k] != requests[i]
  {}

  lemma ApartAt(s: System, m: NodeId, n: NodeId)
    requires NamesApart(s) && m in s.chats && n in s.chats && m != n
    ensures ApartFrom(s.chats[m].self, s.chats[n].self)
  {
    hide ApartFrom;
  }

  // ---------------------------------------------------------------- runs

  /** What a step changes of nodes' names and rumored ids. */
  ghost predicate SameNames(s: System, r: System)
  {
    r.chats.Keys == s.chats.Keys && forall n :: n in s.chats ==> r.chats[n].self == s.chats[n].self
  }

  lemma LocalNames(s: System, x: Ask, boots: map<NodeId, C.Node>)
    requires Ready(s) && Inv(s, boots) && OfClient(s, x.action) && Happens(s, x.action)
    ensures var r := Step(s, x.action);
            SameNames(s, r) && r.cluster.rumored.Keys == s.cluster.rumored.Keys + IdSet(x.action.stamps)
  {
    hide *;
    var a := x.action;
    ClientParts(s, a);
    LocalKeeps(s, a.n, a.action, a.stamps, a.reached, boots);
    LocalIs(s, a.n, a.action, a.stamps, a.reached);
    InvCore(s, boots, a.n);
    O.StepSelf(s.chats[a.n], a.action);
    NamesAre(s, Step(s, a), a.n);
  }

  lemma ClientParts(s: System, a: Action)
    requires OfClient(s, a)
    ensures a.Local? && a.n in s.chats && !a.action.DoPeer? && a == Local(a.n, a.action, a.stamps, a.reached)
    ensures Happens(s, a) <==> Usable(s, a.n, E.Emitted(s.chats[a.n], a.action), a.stamps)
  {
    hide Usable, E.Emitted;
  }

  lemma NamesAre(s: System, r: System, n: NodeId)
    requires n in s.chats && r.chats.Keys == s.chats.Keys && r.chats[n].self == s.chats[n].self
    requires forall m :: m in s.chats && m != n ==> r.chats[m] == s.chats[m]
    ensures SameNames(s, r)
  {}

  lemma GossipNames(s: System, a: Action, boots: map<NodeId, C.Node>)
    requires Ready(s) && Inv(s, boots) && !OfClient(s, a)
    ensures SameNames(s, Step(s, a)) && Step(s, a).cluster.rumored == s.cluster.rumored
  {
    hide *;
    match a
    case Local(n, action, stamps, reached) => {
      NotOfClient(s, a);
      NothingHappens(s, n, action, stamps, reached);
      NamesSame(s);
    }
    case Gossip(step, guest) => PacketNames(s, step, guest, boots);
  }

  lemma NotOfClient(s: System, a: Action)
    requires !OfClient(s, a) && a.Local?
    ensures a.n !in s.chats || a.action.DoPeer?
  {}

  lemma NamesSame(s: System)
    ensures SameNames(s, s)
  {}

  lemma PacketNames(s: System, step: G.Action, guest: C.User, boots: map<NodeId, C.Node>)
    requires Ready(s) && Inv(s, boots)
    ensures var r := Step(s, Gossip(step, guest)); SameNames(s, r) && r.cluster.rumored == s.cluster.rumored
  {
    hide *;
    InvParts(s, boots);
    var r := Step(s, Gossip(step, guest));
    PacketIs(s, step, guest);
    if !step.Rumor? { GossipFrame(s.cluster, step); }
    if r.chats != s.chats {
      var n := step.envelope.dst;
      InvCore(s, boots, n);
      var event :| r.chats == s.chats[n := N.Step(s.chats[n], N.DoPeer(event, guest))];
      O.StepSelf(s.chats[n], N.DoPeer(event, guest));
      NamesAre(s, r, n);
    } else {
      SameChats(s, r);
    }
  }

  lemma SameChats(s: System, r: System)
    requires r.chats == s.chats
    ensures SameNames(s, r)
  {}

  lemma PacketIs(s: System, step: G.Action, guest: C.User)
    requires Ready(s)
    ensures var r := Step(s, Gossip(step, guest));
            && r.cluster == (if step.Rumor? then s.cluster else G.Step(s.cluster, step))
            && (r.chats == s.chats
                || (step.Deliver? && step.envelope.dst in s.chats
                    && exists event :: r.chats == s.chats[step.envelope.dst
                                                  := N.Step(s.chats[step.envelope.dst], N.DoPeer(event, guest))]))
  {
    hide G.Step, N.Step, T.Meaning, L.IdOf, L.Fresh;
  }

  lemma SameApart(s: System, r: System)
    requires NamesApart(s) && SameNames(s, r)
    ensures NamesApart(r)
  {
    hide ApartFrom;
  }

  /** A step that asks nothing of the counters. */
  lemma BookSame(s: System, r: System, book: Book)
    requires BookOk(s, book) && SameNames(s, r) && r.cluster.rumored == s.cluster.rumored
    ensures BookOk(r, book)
  {
    hide Gives, T.Narrow, T.AsBytes, CountersOk;
    forall id | id in r.cluster.rumored ensures exists n, y :: Origin(r, book, id, n, y) {
      var n, y :| Origin(s, book, id, n, y);
      assert Origin(r, book, id, n, y);
    }
    forall n | n in book && n in r.chats ensures Used(r, book, n) { assert Used(s, book, n); }
  }

  lemma GivesMore(self: string, c: Counters, a: N.Action, more: seq<I.Request>, y: string)
    requires Gives(self, c, y)
    ensures Gives(self, Count(c, a, more), y)
  {
    hide IdAt;
    var d := Count(c, a, more);
    var i :| GivesAt(self, c.asked, i, y) || GivesAt(self, c.drops, i, y);
    assert GivesAt(self, d.asked, i, y) || GivesAt(self, d.drops, i, y);
  }

  lemma GivesNew(self: string, c: Counters, a: N.Action, more: seq<I.Request>, i: nat)
    requires i < |more|
    ensures Gives(self, Count(c, a, more), IdAt(self, more[i], |Counter(c, a)| + i + 1))
  {
    hide IdAt;
    var d, k, y := Count(c, a, more), |Counter(c, a)| + i, IdAt(self, more[i], |Counter(c, a)| + i + 1);
    assert Counter(d, a)[k] == more[i];
    assert GivesAt(self, d.asked, k, y) || GivesAt(self, d.drops, k, y);
  }

  lemma GivenOldOrNew(self: string, c: Counters, a: N.Action, more: seq<I.Request>, y: string)
    requires Gives(self, Count(c, a, more), y)
    ensures Gives(self, c, y) || exists i :: 0 <= i < |more| && y == IdAt(self, more[i], |Counter(c, a)| + i + 1)
  {
    hide IdAt;
    var d, base := Count(c, a, more), |Counter(c, a)|;
    var k: nat :| GivesAt(self, d.asked, k, y) || GivesAt(self, d.drops, k, y);
    if !GivesAt(self, c.asked, k, y) && !GivesAt(self, c.drops, k, y) {
      assert base <= k && Counter(d, a)[k] == more[k - base];
      assert y == IdAt(self, more[k - base], base + (k - base) + 1);
    }
  }

  /** An action that goes through: the ids rumored are again those given out. */
  lemma BookNext(s: System, book: Book, x: Ask, boots: map<NodeId, C.Node>)
    requires Ready(s) && Inv(s, boots) && BookOk(s, book) && OfClient(s, x.action) && Draws(s, book, x)
    requires Happens(s, x.action)
    ensures BookOk(Step(s, x.action), Next(s, book, x))
  {
    hide *;
    var a, r, after := x.action, Step(s, x.action), Next(s, book, x);
    LocalNames(s, x, boots);
    ClientParts(s, a);
    DrawnParts(s, book, x);
    NextIs(s, book, x);
    BookParts(s, book);
    NamesParts(s, r);
    forall id | id in r.cluster.rumored ensures exists n, y :: Origin(r, after, id, n, y) {
      if id in s.cluster.rumored {
        var n, y := OriginOf(s, book, id);
        OriginParts(s, book, id, n, y);
        if n == a.n { GivesMore(s.chats[n].self, book[n], a.action, x.requests, y); }
        OriginFrom(r, after, id, n, y);
      } else {
        var i := StampOf(a.stamps, id);
        DrawnAt(s, book, x, i);
        GivesNew(s.chats[a.n].self, book[a.n], a.action, x.requests, i);
        OriginFrom(r, after, id, a.n, a.stamps[i].id);
      }
    }
    forall n | n in after && n in r.chats ensures Used(r, after, n) {
      if n == a.n { UsedHere(s, book, x, r); } else { UsedElsewhere(s, book, r, after, n); }
    }
    forall n | n in after ensures CountersOk(after[n]) {
      if n == a.n {
        forall i | 0 <= i < |x.requests| ensures Sound(x.requests[i]) { DrawnAt(s, book, x, i); }
        CountOk(book[n], a.action, x.requests);
      }
    }
    BookFrom(r, after);
  }

  lemma NextIs(s: System, book: Book, x: Ask)
    requires OfClient(s, x.action) && x.action.Local? && x.action.n in book
    ensures Next(s, book, x) == book[x.action.n := Count(book[x.action.n], x.action.action, x.requests)]
  {
    hide Count;
  }

  lemma BookParts(s: System, book: Book)
    requires BookOk(s, book)
    ensures book.Keys == s.chats.Keys && (forall n :: n in book ==> CountersOk(book[n]))
  {
    hide Sources, CountersOk, Used;
  }

  lemma NamesParts(s: System, r: System)
    requires SameNames(s, r)
    ensures r.chats.Keys == s.chats.Keys && forall n :: n in s.chats ==> r.chats[n].self == s.chats[n].self
  {}

  lemma OriginFrom(s: System, book: Book, id: Id, n: NodeId, y: string)
    requires n in book && n in s.chats && Gives(s.chats[n].self, book[n], y) && T.Narrow(y) && T.AsBytes(y) == id
    ensures Origin(s, book, id, n, y)
  {
    hide Gives, T.Narrow, T.AsBytes;
  }

  lemma BookFrom(s: System, book: Book)
    requires book.Keys == s.chats.Keys && (forall n :: n in book ==> CountersOk(book[n]))
    requires forall id :: id in s.cluster.rumored ==> exists n, y :: Origin(s, book, id, n, y)
    requires forall n :: n in book && n in s.chats ==> Used(s, book, n)
    ensures BookOk(s, book)
  {
    hide Origin, CountersOk, Used;
  }

  lemma StampOf(stamps: seq<Stamp>, id: Id) returns (i: nat)
    requires id in IdSet(stamps)
    ensures i < |stamps| && T.AsBytes(stamps[i].id) == id
  {
    hide T.AsBytes;
    i :| 0 <= i < |stamps| && T.AsBytes(stamps[i].id) == id;
  }

  lemma InIdSet(stamps: seq<Stamp>, i: nat)
    requires i < |stamps|
    ensures T.AsBytes(stamps[i].id) in IdSet(stamps)
  {
    hide T.AsBytes;
  }

  lemma UsedElsewhere(s: System, book: Book, r: System, after: Book, n: NodeId)
    requires BookOk(s, book) && n in s.chats && n in r.chats && n in book && n in after
    requires r.chats[n].self == s.chats[n].self && after[n] == book[n]
    requires s.cluster.rumored.Keys <= r.cluster.rumored.Keys
    ensures Used(r, after, n)
  {
    hide Gives, T.Narrow, T.AsBytes, Sources, CountersOk;
    assert Used(s, book, n);
  }

  lemma UsedHere(s: System, book: Book, x: Ask, r: System)
    requires BookOk(s, book) && OfClient(s, x.action) && Draws(s, book, x) && x.action.Local? && x.action.n in book
    requires x.action.n in s.chats && x.action.n in r.chats && x.action.n in Next(s, book, x)
    requires r.chats[x.action.n].self == s.chats[x.action.n].self
    requires r.cluster.rumored.Keys == s.cluster.rumored.Keys + IdSet(x.action.stamps)
    ensures Used(r, Next(s, book, x), x.action.n)
  {
    hide *;
    var a := x.action;
    NextIs(s, book, x);
    forall y | Gives(r.chats[a.n].self, Next(s, book, x)[a.n], y)
      ensures T.Narrow(y) && T.AsBytes(y) in r.cluster.rumored {
      GivenOldOrNew(s.chats[a.n].self, book[a.n], a.action, x.requests, y);
      if Gives(s.chats[a.n].self, book[a.n], y) {
        UsedAt(s, book, a.n, y);
      } else {
        var i :| 0 <= i < |x.requests|
            && y == IdAt(s.chats[a.n].self, x.requests[i], |Counter(book[a.n], a.action)| + i + 1);
        DrawnAt(s, book, x, i);
        InIdSet(a.stamps, i);
      }
    }
    UsedFrom(r, Next(s, book, x), a.n);
  }

  lemma UsedFrom(s: System, book: Book, n: NodeId)
    requires n in s.chats && n in book
    requires forall y :: Gives(s.chats[n].self, book[n], y) ==> T.Narrow(y) && T.AsBytes(y) in s.cluster.rumored
    ensures Used(s, book, n)
  {
    hide Gives, T.Narrow, T.AsBytes;
  }

  lemma CountOk(c: Counters, a: N.Action, more: seq<I.Request>)
    requires CountersOk(c) && forall i :: 0 <= i < |more| ==> Sound(more[i])
    ensures CountersOk(Count(c, a, more))
  {
    hide Sound;
  }

  /** Counters only go on. */
  lemma {:induction false} BookGrows(s: System, book: Book, xs: seq<Ask>, n: NodeId)
    requires Ready(s) && n in book
    ensures n in BookAfter(s, book, xs)
    ensures var c, d := book[n], BookAfter(s, book, xs)[n]; c.asked <= d.asked && c.drops <= d.drops
    decreases |xs|
  {
    hide Step;
    if xs != [] { BookGrows(Step(s, xs[0].action), Next(s, book, xs[0]), xs[1..], n); }
  }

  lemma ClashStays(c: Counters, d: Counters)
    requires !NoClash(c) && c.asked <= d.asked && c.drops <= d.drops
    ensures !NoClash(d)
  {
    var i :| 0 <= i < |c.asked| && i < |c.drops| && c.asked[i] == c.drops[i];
    assert d.asked[i] == d.drops[i];
  }

  lemma ClashCounts(c: Counters, a: N.Action, more: seq<I.Request>)
    requires NoClash(c)
    ensures NoClash(Count(c, a, more)) <==> !Clash(c, a, more)
  {
    if Clash(c, a, more) {
      var i := ClashAt(c, a, more);
      ClashCounted(c, a, more, |Counter(c, a)| + i);
    }
    if !NoClash(Count(c, a, more)) { CountedClash(c, a, more); }
  }

  lemma ClashCounted(c: Counters, a: N.Action, more: seq<I.Request>, k: nat)
    requires |Counter(c, a)| <= k < |Other(c, a)| && k - |Counter(c, a)| < |more|
    requires Other(c, a)[k] == more[k - |Counter(c, a)|]
    ensures !NoClash(Count(c, a, more))
  {
    var d := Count(c, a, more);
    assert d.asked[k] == d.drops[k];
  }

  lemma CountedClash(c: Counters, a: N.Action, more: seq<I.Request>)
    requires NoClash(c) && !NoClash(Count(c, a, more))
    ensures Clash(c, a, more)
  {
    var d, base := Count(c, a, more), |Counter(c, a)|;
    var k: nat :| k < |d.asked| && k < |d.drops| && d.asked[k] == d.drops[k];
    assert base <= k;
    assert Other(c, a)[base + (k - base)] == more[k - base];
  }

  ghost predicate NoneClash(book: Book) { forall n :: n in book ==> NoClash(book[n]) }

  lemma {:induction false} HappenIff(s: System, book: Book, xs: seq<Ask>, boots: map<NodeId, C.Node>)
    requires Ready(s) && Inv(s, boots) && BookOk(s, book) && NamesApart(s) && DrawnRun(s, book, xs) && NoneClash(book)
    ensures AllHappen(s, xs) <==> NoneClash(BookAfter(s, book, xs))
    decreases |xs|
  {
    hide *;
    RunUnfolds(s, book, xs);
    if xs != [] {
      var x := xs[0];
      var r, after := Step(s, x.action), Next(s, book, x);
      StepInv(s, x.action, boots);
      if OfClient(s, x.action) {
        ClientParts(s, x.action);
        DrawnParts(s, book, x);
        NewIff(s, book, x);
        NextIs(s, book, x);
        NoneAt(book, x.action.n);
        ClashCounts(book[x.action.n], x.action.action, x.requests);
        HappensIff(s, x.action);
        if Happens(s, x.action) {
          LocalNames(s, x, boots);
          SameApart(s, r);
          BookNext(s, book, x, boots);
          NoneNext(book, x.action.n, after);
          HappenIff(r, after, xs[1..], boots);
        } else {
          BookGrows(r, after, xs[1..], x.action.n);
          ClashStays(after[x.action.n], BookAfter(r, after, xs[1..])[x.action.n]);
          SomeClash(BookAfter(r, after, xs[1..]), x.action.n);
        }
      } else {
        NextSame(s, book, x);
        GossipNames(s, x.action, boots);
        BookSame(s, r, book);
        SameApart(s, r);
        HappenIff(r, after, xs[1..], boots);
      }
    }
  }

  lemma RunUnfolds(s: System, book: Book, xs: seq<Ask>)
    requires Ready(s)
    ensures xs == [] ==> BookAfter(s, book, xs) == book && AllHappen(s, xs)
    ensures xs != [] ==>
              var r, after := Step(s, xs[0].action), Next(s, book, xs[0]);
              && BookAfter(s, book, xs) == BookAfter(r, after, xs[1..])
              && (AllHappen(s, xs) <==> Happens(s, xs[0].action) && AllHappen(r, xs[1..]))
              && (DrawnRun(s, book, xs) <==> Draws(s, book, xs[0]) && DrawnRun(r, after, xs[1..]))
  {
    hide Step, Next, Happens, Draws;
  }

  lemma StepInv(s: System, a: Action, boots: map<NodeId, C.Node>)
    requires Ready(s) && Inv(s, boots)
    ensures Inv(Step(s, a), boots)
  {
    hide *;
    match a
    case Local(n, action, stamps, reached) => LocalKeeps(s, n, action, stamps, reached, boots);
    case Gossip(step, guest) => GossipKeeps(s, step, guest, boots);
  }

  lemma HappensIff(s: System, a: Action)
    requires OfClient(s, a) && a.Local? && a.n in s.chats
    requires Fitting(s.chats[a.n].self, E.Emitted(s.chats[a.n], a.action), a.stamps)
    ensures Happens(s, a) <==> NewIds(s.cluster.rumored, a.stamps)
  {
    hide Fitting, NewIds, E.Emitted;
  }

  lemma NextSame(s: System, book: Book, x: Ask)
    requires !OfClient(s, x.action)
    ensures Next(s, book, x) == book && Happens(s, x.action)
  {}

  lemma NoneAt(book: Book, n: NodeId)
    requires NoneClash(book) && n in book
    ensures NoClash(book[n])
  {
    hide NoClash;
  }

  lemma SomeClash(book: Book, n: NodeId)
    requires n in book && !NoClash(book[n])
    ensures !NoneClash(book)
  {
    hide NoClash;
  }

  lemma NoneNext(book: Book, n: NodeId, after: Book)
    requires NoneClash(book) && n in book && n in after && after == book[n := after[n]] && NoClash(after[n])
    ensures NoneClash(after)
  {
    hide NoClash;
  }

  /** Counters that have not been asked yet. */
  function NoBook(s: System): (r: Book) { map n | n in s.chats :: Counters([], []) }

  /** From a start, nodes whose names are apart draw all ids from their counters. Then every client's action goes
      through, its events under new ids, exactly when no node's two counters were ever asked for the same LOGOUT, same
      user and second, under the same number. */
  lemma IdsAreNewIff(s: System, xs: seq<Ask>)
    requires Start(s) && NamesApart(s) && DrawnRun(s, NoBook(s), xs)
    ensures AllHappen(s, xs) <==> NoneClash(BookAfter(s, NoBook(s), xs))
  {
    StartBook(s);
    hide *;
    StartReady(s);
    StartInv(s);
    HappenIff(s, NoBook(s), xs, s.chats);
  }

  lemma StartBook(s: System)
    requires Start(s)
    ensures BookOk(s, NoBook(s)) && NoneClash(NoBook(s))
  {
    assert s.cluster.rumored == map[];
    hide *;
    forall n | n in NoBook(s) ensures CountersOk(NoBook(s)[n]) && NoClash(NoBook(s)[n]) { EmptyCounters(s, n); }
    forall n | n in NoBook(s) && n in s.chats ensures Used(s, NoBook(s), n) { NothingUsed(s, n); }
    NoBookKeys(s);
    BookFrom(s, NoBook(s));
    NoneFrom(NoBook(s));
  }

  lemma NoBookKeys(s: System)
    ensures NoBook(s).Keys == s.chats.Keys
  {}

  lemma EmptyCounters(s: System, n: NodeId)
    requires n in NoBook(s)
    ensures CountersOk(NoBook(s)[n]) && NoClash(NoBook(s)[n]) && NoBook(s)[n] == Counters([], [])
  {}

  lemma NothingUsed(s: System, n: NodeId)
    requires n in NoBook(s) && n in s.chats
    ensures Used(s, NoBook(s), n)
  {
    EmptyCounters(s, n);
    hide NoBook, T.Narrow, T.AsBytes, IdAt;
  }

  lemma NoneFrom(book: Book)
    requires forall n :: n in book ==> NoClash(book[n])
    ensures NoneClash(book)
  {
    hide NoClash;
  }
}
