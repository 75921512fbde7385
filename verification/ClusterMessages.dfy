/** Messages in the cluster of chat nodes: which nodes end up with a message some client sent, and which never do. */
module ClusterMessages {
  import opened ChatCluster
  import PacketCodec
  import L = GossipLog
  import G = GossipCluster
  import GossipPayload
  import C = ChatNode
  import N = NodeRuns
  import S = NodeShapes
  import M = NodeMessages
  import T = EventText
  import E = NodeEvents
  import Bytes

  // ---------------------------------------------------------------- where a pushed message comes from

  /** An entry that settles message x: the node sent it itself, or a peer's event found room and sender known. */
  ghost predicate SettlesMessage(boot: C.Node, h: seq<Entry>, i: nat, x: string)
  {
    && i < |h| && (h[i].Own? || h[i].Peer?) && h[i].event.MessageEvent? && h[i].event.id == x
    && (h[i].Own? || M.Knows(N.Run(boot, ActionsOf(h[..i])), h[i].event.user, h[i].event.room))
  }

  ghost predicate Sourced(chat: C.Node, boot: C.Node, h: seq<Entry>)
  {
    forall x :: chat.pushed[x] > 0 ==> exists i :: SettlesMessage(boot, h, i, x)
  }

  ghost predicate AllSourced(s: System, boots: map<NodeId, C.Node>)
  {
    forall n :: n in boots && n in s.chats && n in s.history ==> Sourced(s.chats[n], boots[n], s.history[n])
  }

  lemma SettledStays(boot: C.Node, h: seq<Entry>, longer: seq<Entry>, i: nat, x: string)
    requires SettlesMessage(boot, h, i, x) && h <= longer
    ensures SettlesMessage(boot, longer, i, x)
  {
    hide N.Run, ActionsOf, M.Knows;
    assert longer[..i] == h[..i];
  }

  lemma SourcedNext(chat: C.Node, next: C.Node, boot: C.Node, h: seq<Entry>, longer: seq<Entry>)
    requires Sourced(chat, boot, h) && h <= longer
    requires forall x :: next.pushed[x] > chat.pushed[x] ==> exists i :: SettlesMessage(boot, longer, i, x)
    ensures Sourced(next, boot, longer)
  {
    hide SettlesMessage;
    forall x | next.pushed[x] > 0 ensures exists i :: SettlesMessage(boot, longer, i, x) {
      if chat.pushed[x] > 0 {
        var i :| SettlesMessage(boot, h, i, x);
        SettledStays(boot, h, longer, i, x);
      }
    }
  }

  /** The history after an action's rumors: every event is in it, and nothing else has changed. */
  lemma {:induction false} RumorHistory(s: System, n: NodeId, events: seq<C.Event>, stamps: seq<Stamp>,
                                        reached: set<NodeId>)
    requires Ready(s) && n in s.chats && |stamps| == |events|
    ensures var r := RumorAll(s, n, events, stamps, reached);
            && s.chats.Keys == s.history.Keys == r.history.Keys && r.chats == s.chats && s.history[n] <= r.history[n]
            && (forall m :: m in s.history && m != n ==> r.history[m] == s.history[m])
            && forall i :: 0 <= i < |events| ==> Own(T.AsBytes(stamps[i].id), events[i]) in r.history[n]
    decreases |events|
  {
    hide RumorOne, T.AsBytes;
    if events != [] {
      var m := RumorOne(s, n, events[0], stamps[0], reached);
      RumorIs(s, n, events[0], stamps[0], reached);
      RumorReady(s, n, events[0], stamps[0], reached);
      RumorHistory(m, n, events[1..], stamps[1..], reached);
      var r := RumorAll(s, n, events, stamps, reached);
      assert r == RumorAll(m, n, events[1..], stamps[1..], reached);
      var own := Own(T.AsBytes(stamps[0].id), events[0]);
      assert r.history[n][|s.history[n]|] == own;
      forall i | 0 <= i < |events| ensures Own(T.AsBytes(stamps[i].id), events[i]) in r.history[n] {
        if i > 0 { assert events[i] == events[1..][i - 1] && stamps[i] == stamps[1..][i - 1]; }
      }
    }
  }

  lemma SentIsEmitted(n: C.Node, a: N.Action, x: string)
    requires M.Sends(n, a, x)
    ensures |E.Emitted(n, a)| == 1 && E.Emitted(n, a)[0].MessageEvent? && E.Emitted(n, a)[0].id == x
  {}

  lemma LocalSourced(s: System, n: NodeId, action: N.Action, stamps: seq<Stamp>, reached: set<NodeId>,
                     boots: map<NodeId, C.Node>)
    requires Ready(s) && AllSourced(s, boots) && forall m :: m in s.chats ==> M.Ledger(s.chats[m])
    ensures AllSourced(Step(s, Local(n, action, stamps, reached)), boots)
  {
    hide *;
    if n in s.chats && !action.DoPeer? {
      LocalIs(s, n, action, stamps, reached);
      var events := E.Emitted(s.chats[n], action);
      if Usable(s, n, events, stamps) {
        Lengths(s, n, events, stamps);
        NoteIs(s, n, action);
        var told := Note(s, n, Client(action)).(chats := s.chats[n := N.Step(s.chats[n], action)]);
        RumorHistory(told, n, events, stamps, reached);
        var r := RumorAll(told, n, events, stamps, reached);
        if n in boots {
          SourcedOf(s, boots, n);
          ClientSourced(s.chats[n], action, events, stamps, boots[n], s.history[n], r.history[n]);
        }
        SourcedIf(s, r, boots, n);
      }
    } else {
      NothingHappens(s, n, action, stamps, reached);
    }
  }

  lemma NoteIs(s: System, n: NodeId, action: N.Action)
    requires Ready(s) && n in s.chats
    ensures n in s.history && s.history.Keys == s.chats.Keys
    ensures Note(s, n, Client(action)).history == s.history[n := s.history[n] + [Client(action)]]
  {}

  lemma SourcedIf(s: System, r: System, boots: map<NodeId, C.Node>, n: NodeId)
    requires AllSourced(s, boots) && n in r.chats && n in r.history
    requires (n in boots ==> Sourced(r.chats[n], boots[n], r.history[n]))
    requires s.chats.Keys == r.chats.Keys && s.history.Keys == r.history.Keys
    requires forall m :: m in s.chats && m != n ==> r.chats[m] == s.chats[m]
    requires forall m :: m in s.history && m != n ==> r.history[m] == s.history[m]
    ensures AllSourced(r, boots)
  {
    hide Sourced;
  }

  lemma ClientSourced(chat: C.Node, action: N.Action, events: seq<C.Event>, stamps: seq<Stamp>, boot: C.Node,
                      h: seq<Entry>, longer: seq<Entry>)
    requires M.Ledger(chat) && Sourced(chat, boot, h) && h <= longer && !action.DoPeer?
    requires events == E.Emitted(chat, action) && |stamps| == |events|
    requires forall i :: 0 <= i < |events| ==> Own(T.AsBytes(stamps[i].id), events[i]) in longer
    ensures Sourced(N.Step(chat, action), boot, longer)
  {
    hide M.Ledger, N.Step, Sourced, M.Sends, E.Emitted, T.AsBytes;
    var next := N.Step(chat, action);
    forall x | next.pushed[x] > chat.pushed[x] ensures exists i :: SettlesMessage(boot, longer, i, x) {
      M.StepPushes(chat, action, x);
      SentIsEmitted(chat, action, x);
      var own := Own(T.AsBytes(stamps[0].id), events[0]);
      var i :| 0 <= i < |longer| && longer[i] == own;
      assert SettlesMessage(boot, longer, i, x);
    }
    SourcedNext(chat, next, boot, h, longer);
  }

  lemma GossipSourced(s: System, a: G.Action, guest: C.User, boots: map<NodeId, C.Node>)
    requires Inv(s, boots) && Ready(s) && AllSourced(s, boots) && forall m :: m in s.chats ==> M.Ledger(s.chats[m])
    ensures AllSourced(Step(s, Gossip(a, guest)), boots)
  {
    hide G.Inv, G.Step, G.Coherent, Applies, L.IdOf, ToldAt, Meant, N.Step, T.Meaning, Inv, Sourced, M.Ledger;
    InvParts(s, boots);
    if !a.Rumor? && Applies(s.cluster, a) {
      Delivers(s.cluster, a);
      GossipFrame(s.cluster, a);
      var p, n := a.envelope.packet, a.envelope.dst;
      MeantAt(s.cluster.rumored, s.emitted, L.IdOf(p));
      var event := s.emitted[L.IdOf(p)];
      assert ToldAt(s, boots, n);
      ToldIs(s, boots, n);
      PeerSourced(s.chats[n], boots[n], s.history[n], s.cluster.nodes[n].applied, s.emitted, L.IdOf(p), event, guest);
    }
  }

  lemma PeerSourced(chat: C.Node, boot: C.Node, h: seq<Entry>, applied: seq<Id>, emitted: map<Id, C.Event>,
                    id: Id, e: C.Event, guest: C.User)
    requires M.Ledger(chat) && Sourced(chat, boot, h) && Told(chat, boot, h, applied, emitted)
    ensures Sourced(N.Step(chat, N.DoPeer(e, guest)), boot, h + [Peer(id, e, guest)])
  {
    ToldIds(chat, boot, h, applied, emitted);
    hide M.Ledger, N.Step, N.Run, Sourced, Told, ActionsOf, M.Knows;
    var next, longer := N.Step(chat, N.DoPeer(e, guest)), h + [Peer(id, e, guest)];
    forall x | next.pushed[x] > chat.pushed[x] ensures exists i :: SettlesMessage(boot, longer, i, x) {
      M.StepPushes(chat, N.DoPeer(e, guest), x);
      assert longer[..|h|] == h;
      assert SettlesMessage(boot, longer, |h|, x);
    }
    SourcedNext(chat, next, boot, h, longer);
  }

  lemma ToldIds(chat: C.Node, boot: C.Node, h: seq<Entry>, applied: seq<Id>, emitted: map<Id, C.Event>)
    requires Told(chat, boot, h, applied, emitted)
    ensures chat == N.Run(boot, ActionsOf(h)) && applied == IdsOf(h)
  {
    hide N.Run;
  }

  lemma InvLedger(s: System, boots: map<NodeId, C.Node>, n: NodeId)
    requires Inv(s, boots) && n in s.chats && M.Ledger(boots[n])
    ensures M.Ledger(s.chats[n])
  {
    InvParts(s, boots);
    hide Inv, G.Inv, Meant, Told, S.Core, M.Ledger, N.Run;
    assert ToldAt(s, boots, n);
    ToldIds(s.chats[n], boots[n], s.history[n], s.cluster.nodes[n].applied, s.emitted);
    M.RunLedger(boots[n], ActionsOf(s.history[n]), "");
  }

  lemma {:induction false} RunSourced(s: System, actions: seq<Action>, boots: map<NodeId, C.Node>)
    requires Ready(s) && Inv(s, boots) && AllSourced(s, boots) && forall n :: n in boots ==> M.Ledger(boots[n])
    ensures AllSourced(RunAll(s, actions), boots)
    decreases |actions|
  {
    hide Inv, Step, AllSourced, M.Ledger;
    if actions != [] {
      assert s.chats.Keys == boots.Keys by { InvParts(s, boots); }
      forall n | n in s.chats ensures M.Ledger(s.chats[n]) { InvLedger(s, boots, n); }
      match actions[0] {
        case Local(n, action, stamps, reached) =>
          LocalKeeps(s, n, action, stamps, reached, boots);
          LocalSourced(s, n, action, stamps, reached, boots);
        case Gossip(step, guest) =>
          GossipKeeps(s, step, guest, boots);
          GossipSourced(s, step, guest, boots);
      }
      RunSourced(Step(s, actions[0]), actions[1..], boots);
    }
  }

  // ---------------------------------------------------------------- replication

  /** Entry i is about id, and the node sent that message itself or knew its room and its sender at that point. */
  ghost predicate Settles(boot: C.Node, h: seq<Entry>, i: nat, id: Id, e: C.Event)
    requires e.MessageEvent?
  {
    && i < |h| && IdOfEntry(h[i]) == [id]
    && (h[i].Own? || M.Knows(N.Run(boot, ActionsOf(h[..i])), e.user, e.room))
  }

  /** The node's history deletes no room. */
  ghost predicate KeepsRooms(h: seq<Entry>)
  {
    forall i :: 0 <= i < |h| ==> forall a :: a in ActionOf(h[i]) ==> !M.Deletes(a)
  }

  /** Replication, in any run of the cluster: a message some client sent has been pushed to a node's local room
      exactly when the node sent it itself or knew its room and its sender at one of the times it applied the id,
      however often the id came back. Where no room is deleted it is then in the node's table and has been pushed
      exactly once; otherwise it is not there. */
  lemma MessageReplicated(s: System, actions: seq<Action>, n: NodeId, id: Id)
    requires Start(s) && n in s.chats
    requires var r := RunAll(s, actions); id in r.emitted && r.emitted[id].MessageEvent?
    ensures var r := RunAll(s, actions);
            var e := r.emitted[id];
            && (r.chats[n].pushed[e.id] > 0 <==> exists i :: Settles(s.chats[n], r.history[n], i, id, e))
            && (KeepsRooms(r.history[n]) ==>
                  && (e.id in r.chats[n].db.messages <==> exists i :: Settles(s.chats[n], r.history[n], i, id, e))
                  && r.chats[n].pushed[e.id] == if e.id in r.chats[n].db.messages then 1 else 0)
  {
    hide *;
    StartReady(s);
    NodeIsFold(s, actions, n);
    var r, boot := RunAll(s, actions), s.chats[n];
    var h, e := r.history[n], r.emitted[id];
    assert Sourced(r.chats[n], boot, h) by { SourcedAt(s, actions, n); }
    BootedLaws(s, n);
    ToldIds(r.chats[n], boot, h, r.cluster.nodes[n].applied, r.emitted);
    if r.chats[n].pushed[e.id] > 0 {
      var i := SourceOf(r.chats[n], boot, h, e.id);
      SourceIs(r.chats[n], boot, h, r.cluster, n, r.emitted, i, id);
    }
    if i :| Settles(boot, h, i, id, e) {
      EntryMeans(r.chats[n], boot, h, r.cluster.nodes[n].applied, r.emitted, i, id, e);
      EntryPushes(boot, h, i, id, e);
    }
    if KeepsRooms(h) {
      NoDeletes(h);
      M.PushedAtMostOnce(boot, ActionsOf(h), e.id);
    }
  }

  lemma BootedLaws(s: System, n: NodeId)
    requires Start(s) && n in s.chats
    ensures M.Ledger(s.chats[n]) && s.chats[n].dropped == multiset{} && s.chats[n].pushed == multiset{}
  {
    assert s.chats[n].pushed == multiset{};
    hide N.Boot, M.Ledger;
    BootLaws(s.chats[n]);
  }

  lemma SourcedAt(s: System, actions: seq<Action>, n: NodeId)
    requires Start(s) && Ready(s) && n in s.chats
    ensures n in RunAll(s, actions).history
    ensures Sourced(RunAll(s, actions).chats[n], s.chats[n], RunAll(s, actions).history[n])
  {
    hide *;
    StartInv(s);
    forall m | m in s.chats ensures M.Ledger(s.chats[m]) && s.chats[m].pushed == multiset{} { BootedLaws(s, m); }
    NothingPushed(s);
    RunSourced(s, actions, s.chats);
    RunInv(s, actions, s.chats);
    InvParts(RunAll(s, actions), s.chats);
    SourcedOf(RunAll(s, actions), s.chats, n);
  }

  lemma SourcedOf(s: System, boots: map<NodeId, C.Node>, n: NodeId)
    requires AllSourced(s, boots) && n in boots && n in s.chats && n in s.history
    ensures Sourced(s.chats[n], boots[n], s.history[n])
  {}

  lemma NothingPushed(s: System)
    requires forall n :: n in s.chats ==> s.chats[n].pushed == multiset{}
    ensures AllSourced(s, s.chats)
  {
    hide SettlesMessage;
  }

  lemma SourceOf(chat: C.Node, boot: C.Node, h: seq<Entry>, x: string) returns (i: nat)
    requires Sourced(chat, boot, h) && chat.pushed[x] > 0
    ensures SettlesMessage(boot, h, i, x)
  {
    i :| SettlesMessage(boot, h, i, x);
  }

  /** Messages are named after their ids, so an entry about message e.id is an entry about its id. */
  lemma SourceIs(chat: C.Node, boot: C.Node, h: seq<Entry>, c: G.Cluster, n: NodeId, emitted: map<Id, C.Event>, i: nat,
                 id: Id)
    requires n in c.nodes && Told(chat, boot, h, c.nodes[n].applied, emitted) && Meant(c.rumored, emitted)
    requires id in emitted && emitted[id].MessageEvent? && SettlesMessage(boot, h, i, emitted[id].id)
    ensures Settles(boot, h, i, id, emitted[id])
  {
    hide N.Run, ActionsOf, Meant, M.Knows;
    var known := h[i].id;
    assert EntryOk(h[i], N.Run(boot, ActionsOf(h[..i])), emitted);
    NamedById(c.rumored, emitted, known);
    NamedById(c.rumored, emitted, id);
    SameText(known, id);
  }

  lemma NamedById(rumored: map<Id, PacketCodec.Packet>, emitted: map<Id, C.Event>, id: Id)
    requires Meant(rumored, emitted) && id in emitted && emitted[id].MessageEvent?
    ensures emitted[id].id == T.AsText(id)
  {
    hide T.Meaning, L.IdOf, T.AsText;
    assert T.Meaning(rumored[id]) == Bytes.Some(emitted[id]);
    NamedByPacket(rumored[id], emitted[id]);
  }

  lemma NamedByPacket(p: PacketCodec.Packet, e: C.Event)
    requires T.Meaning(p) == Bytes.Some(e) && e.MessageEvent?
    ensures e.id == T.AsText(L.IdOf(p))
  {
    GossipPayload.EventIdAgrees(p.message);
    hide GossipPayload.Decode, GossipPayload.EventId, T.AsText;
  }

  lemma SameText(a: Id, b: Id)
    requires T.AsText(a) == T.AsText(b)
    ensures a == b
  {
    assert forall i :: 0 <= i < |a| ==> a[i] == T.AsText(a)[i] as int == b[i];
  }

  lemma {:induction false} SplitActions(h: seq<Entry>, i: nat) returns (more: seq<N.Action>)
    requires i < |h|
    ensures ActionsOf(h) == ActionsOf(h[..i]) + ActionOf(h[i]) + more
    decreases |h|
  {
    var k := |h| - 1;
    more := [];
    if i < k {
      more := SplitActions(h[..k], i);
      assert h[..k][..i] == h[..i];
      more := more + ActionOf(h[k]);
    }
  }

  lemma {:induction false} NoDeletes(h: seq<Entry>)
    requires KeepsRooms(h)
    ensures forall a :: a in ActionsOf(h) ==> !M.Deletes(a)
  {
    if h != [] {
      var k := |h| - 1;
      assert KeepsRooms(h[..k]) by {
        forall i | 0 <= i < k ensures forall a :: a in ActionOf(h[..k][i]) ==> !M.Deletes(a) {
          assert h[..k][i] == h[i];
        }
      }
      NoDeletes(h[..k]);
    }
  }

  lemma EntryMeans(chat: C.Node, boot: C.Node, h: seq<Entry>, applied: seq<Id>, emitted: map<Id, C.Event>, i: nat,
                   id: Id, e: C.Event)
    requires Told(chat, boot, h, applied, emitted) && id in emitted && e == emitted[id] && e.MessageEvent?
    requires Settles(boot, h, i, id, e)
    ensures || (h[i].Own? && e.id in N.Run(boot, ActionsOf(h[..i])).db.messages)
            || (h[i].Peer? && h[i].event == e)
  {
    hide N.Run, ActionsOf, M.Knows;
    assert EntryOk(h[i], N.Run(boot, ActionsOf(h[..i])), emitted);
  }

  lemma EntryPushes(boot: C.Node, h: seq<Entry>, i: nat, id: Id, e: C.Event)
    requires M.Ledger(boot) && e.MessageEvent? && Settles(boot, h, i, id, e)
    requires || (h[i].Own? && e.id in N.Run(boot, ActionsOf(h[..i])).db.messages)
             || (h[i].Peer? && h[i].event == e)
    ensures N.Run(boot, ActionsOf(h)).pushed[e.id] > 0
  {
    hide N.Run, M.Ledger, M.Knows, N.Step;
    var more := SplitActions(h, i);
    var before := N.Run(boot, ActionsOf(h[..i]));
    M.RunLedger(boot, ActionsOf(h[..i]), e.id);
    N.RunAppend(boot, ActionsOf(h[..i]), ActionOf(h[i]));
    N.RunAppend(boot, ActionsOf(h[..i]) + ActionOf(h[i]), more);
    var after := N.Run(before, ActionOf(h[i]));
    if h[i].Own? {
      N.RunOne(before, N.DoDisconnect(0));
    } else {
      N.RunOne(before, N.DoPeer(e, h[i].guest));
      M.StepPushes(before, N.DoPeer(e, h[i].guest), e.id);
    }
    M.RunLedger(boot, ActionsOf(h[..i]) + ActionOf(h[i]), e.id);
    M.PushesStay(after, more, e.id);
  }

  // ---------------------------------------------------------------- messages that come too early

  lemma {:induction false} RumorEmitted(s: System, n: NodeId, events: seq<C.Event>, stamps: seq<Stamp>,
                                        reached: set<NodeId>, id: Id)
    requires Ready(s) && n in s.chats && |stamps| == |events| && id in s.emitted
    requires forall i :: 0 <= i < |stamps| ==> T.AsBytes(stamps[i].id) != id
    ensures var r := RumorAll(s, n, events, stamps, reached); id in r.emitted && r.emitted[id] == s.emitted[id]
    decreases |events|
  {
    hide RumorOne, T.AsBytes;
    if events != [] {
      RumorIs(s, n, events[0], stamps[0], reached);
      RumorReady(s, n, events[0], stamps[0], reached);
      forall i | 0 <= i < |stamps[1..]| ensures T.AsBytes(stamps[1..][i].id) != id {
        assert stamps[1..][i] == stamps[i + 1];
      }
      RumorEmitted(RumorOne(s, n, events[0], stamps[0], reached), n, events[1..], stamps[1..], reached, id);
    }
  }

  /** While n has the id of a message in its window, no step stores or pushes that message there. */
  lemma SeenStops(s: System, a: Action, n: NodeId, id: Id, boots: map<NodeId, C.Node>)
    requires Inv(s, boots) && Ready(s) && n in s.chats && M.Ledger(s.chats[n])
    requires id in s.emitted && s.emitted[id].MessageEvent? && id in s.cluster.nodes[n].log.seen
    ensures var r, e := Step(s, a), s.emitted[id];
            id in r.emitted && r.emitted[id] == e && r.chats[n].pushed[e.id] == s.chats[n].pushed[e.id]
  {
    hide *;
    InvParts(s, boots);
    match a {
      case Local(m, action, stamps, reached) => LocalStops(s, m, action, stamps, reached, n, id);
      case Gossip(step, guest) => GossipStops(s, step, guest, n, id);
    }
  }

  lemma LocalStops(s: System, m: NodeId, action: N.Action, stamps: seq<Stamp>, reached: set<NodeId>, n: NodeId, id: Id)
    requires Ready(s) && n in s.chats && M.Ledger(s.chats[n]) && Meant(s.cluster.rumored, s.emitted)
    requires id in s.emitted && s.emitted[id].MessageEvent?
    ensures var r, e := Step(s, Local(m, action, stamps, reached)), s.emitted[id];
            id in r.emitted && r.emitted[id] == e && r.chats[n].pushed[e.id] == s.chats[n].pushed[e.id]
  {
    hide *;
    if m in s.chats && !action.DoPeer? {
      LocalIs(s, m, action, stamps, reached);
      var events := E.Emitted(s.chats[m], action);
      if Usable(s, m, events, stamps) {
        Lengths(s, m, events, stamps);
        NoteKeeps(s, m, action);
        var told := Note(s, m, Client(action)).(chats := s.chats[m := N.Step(s.chats[m], action)]);
        StampsAreNew(s, m, events, stamps, id);
        RumorEmitted(told, m, events, stamps, reached, id);
        if m == n { NotSentAgain(s, n, action, stamps, id); }
      }
    } else {
      NothingHappens(s, m, action, stamps, reached);
    }
  }

  lemma NoteKeeps(s: System, n: NodeId, action: N.Action)
    requires Ready(s) && n in s.chats
    ensures n in s.history && Note(s, n, Client(action)).emitted == s.emitted
  {}

  lemma StampsAreNew(s: System, n: NodeId, events: seq<C.Event>, stamps: seq<Stamp>, id: Id)
    requires n in s.chats && Usable(s, n, events, stamps) && Meant(s.cluster.rumored, s.emitted) && id in s.emitted
    ensures forall i :: 0 <= i < |stamps| ==> T.AsBytes(stamps[i].id) != id
  {
    hide Fitting, T.Meaning, L.IdOf, T.AsBytes;
  }

  /** A client cannot send a message of that id, as ids are new. */
  lemma NotSentAgain(s: System, n: NodeId, action: N.Action, stamps: seq<Stamp>, id: Id)
    requires n in s.chats && M.Ledger(s.chats[n]) && Meant(s.cluster.rumored, s.emitted) && !action.DoPeer?
    requires Usable(s, n, E.Emitted(s.chats[n], action), stamps) && id in s.emitted && s.emitted[id].MessageEvent?
    ensures N.Step(s.chats[n], action).pushed[s.emitted[id].id] == s.chats[n].pushed[s.emitted[id].id]
  {
    hide *;
    var events, x := E.Emitted(s.chats[n], action), s.emitted[id].id;
    M.StepPushes(s.chats[n], action, x);
    M.OnlyPeersArrive(s.chats[n], action, x);
    if M.Sends(s.chats[n], action, x) {
      SentIsEmitted(s.chats[n], action, x);
      StampsAreNew(s, n, events, stamps, id);
      Lengths(s, n, events, stamps);
      NamedById(s.cluster.rumored, s.emitted, id);
      SentNamed(s, n, events, stamps);
      T.TextBack(stamps[0].id);
      SameText(T.AsBytes(stamps[0].id), id);
      assert false;
    }
  }

  lemma SentNamed(s: System, n: NodeId, events: seq<C.Event>, stamps: seq<Stamp>)
    requires n in s.chats && Usable(s, n, events, stamps) && |events| == |stamps| == 1 && events[0].MessageEvent?
    ensures events[0].id == stamps[0].id && T.Narrow(stamps[0].id)
  {
    hide NewIds, T.Narrow, T.RumorOf;
  }

  lemma GossipStops(s: System, a: G.Action, guest: C.User, n: NodeId, id: Id)
    requires Ready(s) && n in s.chats && M.Ledger(s.chats[n]) && G.Inv(s.cluster) && Meant(s.cluster.rumored, s.emitted)
    requires id in s.emitted && s.emitted[id].MessageEvent? && id in s.cluster.nodes[n].log.seen
    ensures var r, e := Step(s, Gossip(a, guest)), s.emitted[id];
            id in r.emitted && r.emitted[id] == e && r.chats[n].pushed[e.id] == s.chats[n].pushed[e.id]
  {
    hide G.Inv, G.Step, G.Coherent, Applies, L.IdOf, Meant, N.Step, T.Meaning, M.Ledger, M.Arrives, M.Sends;
    if !a.Rumor? && Applies(s.cluster, a) {
      Delivers(s.cluster, a);
      GossipFrame(s.cluster, a);
      var p := a.envelope.packet;
      MeantAt(s.cluster.rumored, s.emitted, L.IdOf(p));
      if a.envelope.dst == n {
        NewIdApplies(s.cluster, a, id);
        OtherMessage(s.cluster.rumored, s.emitted, s.chats[n], L.IdOf(p), id, guest);
      }
    }
  }

  lemma NewIdApplies(c: G.Cluster, a: G.Action, id: Id)
    requires Applies(c, a) && a.Deliver? && a.envelope.dst in c.nodes && id in c.nodes[a.envelope.dst].log.seen
    ensures L.IdOf(a.envelope.packet) != id
  {
    hide L.IdOf;
  }

  lemma OtherMessage(rumored: map<Id, PacketCodec.Packet>, emitted: map<Id, C.Event>, chat: C.Node, other: Id, id: Id,
                     guest: C.User)
    requires Meant(rumored, emitted) && M.Ledger(chat) && other in emitted && id in emitted && emitted[id].MessageEvent?
    requires other != id
    ensures N.Step(chat, N.DoPeer(emitted[other], guest)).pushed[emitted[id].id] == chat.pushed[emitted[id].id]
  {
    hide Meant, N.Step, M.Ledger, T.AsText, M.Knows;
    M.StepPushes(chat, N.DoPeer(emitted[other], guest), emitted[id].id);
    NamedById(rumored, emitted, id);
    if emitted[other].MessageEvent? {
      NamedById(rumored, emitted, other);
      if T.AsText(other) == T.AsText(id) { SameText(other, id); }
    }
  }

  /** The id stays in n's window all along the run. */
  ghost predicate InWindow(s: System, actions: seq<Action>, n: NodeId, id: Id)
    requires Ready(s)
    decreases |actions|
  {
    && n in s.cluster.nodes && id in s.cluster.nodes[n].log.seen
    && (actions == [] || InWindow(Step(s, actions[0]), actions[1..], n, id))
  }

  lemma {:induction false} WindowHolds(s: System, actions: seq<Action>, n: NodeId, id: Id, boots: map<NodeId, C.Node>)
    requires Ready(s) && Inv(s, boots) && n in boots && M.Ledger(boots[n]) && n in s.chats
    requires id in s.emitted && s.emitted[id].MessageEvent? && InWindow(s, actions, n, id)
    ensures var r, e := RunAll(s, actions), s.emitted[id];
            n in r.chats && M.Ledger(r.chats[n]) && r.chats[n].pushed[e.id] == s.chats[n].pushed[e.id]
    decreases |actions|
  {
    hide Inv, Step, M.Ledger;
    InvLedger(s, boots, n);
    if actions != [] {
      SeenStops(s, actions[0], n, id, boots);
      match actions[0] {
        case Local(m, action, stamps, reached) => LocalKeeps(s, m, action, stamps, reached, boots);
        case Gossip(step, guest) => GossipKeeps(s, step, guest, boots);
      }
      WindowHolds(Step(s, actions[0]), actions[1..], n, id, boots);
    }
  }

  /** A message a node applied without knowing its room or its sender, and so did not push, is not pushed or stored
      there as long as its id is in the window, whatever the node learns meanwhile. */
  lemma SeenIsFinal(s: System, before: seq<Action>, more: seq<Action>, n: NodeId, id: Id)
    requires Start(s) && n in s.chats
    requires var r := RunAll(s, before); id in r.emitted && r.emitted[id].MessageEvent? && InWindow(r, more, n, id)
    ensures var r := RunAll(s, before);
            var e, d := r.emitted[id], RunAll(r, more);
            && d.chats[n].pushed[e.id] == r.chats[n].pushed[e.id]
            && (r.chats[n].pushed[e.id] == 0 ==> e.id !in d.chats[n].db.messages)
  {
    hide *;
    StartReady(s);
    StartInv(s);
    RunInv(s, before, s.chats);
    BootedLaws(s, n);
    var r := RunAll(s, before);
    WindowHolds(r, more, n, id, s.chats);
    var d, x := RunAll(r, more), r.emitted[id].id;
    if x in d.chats[n].db.messages { M.StoredIsPushed(d.chats[n], x); }
  }
}
