/** The event log as GossipManager keeps it: three fields updated in place, proved to follow the
    value-level log of module GossipLog. */
module GossipStore {
  import opened Bytes
  import opened Seqs
  import opened PacketCodec
  import opened GossipLog

  class EventLog {
    var seenEvents: set<Id>
    var recentEventIds: seq<Id>
    var eventLog: map<Id, Packet>
    ghost var applied: seq<Id>  // every id whose event was applied here, oldest first

    ghost function State(): (l: Log)
      reads this
    {
      Log(seenEvents, recentEventIds, eventLog)
    }

    ghost predicate Valid()
      reads this
    {
      GossipLog.Valid(State()) && History(State(), applied)
    }

    constructor ()
      ensures State() == EMPTY && applied == [] && Valid()
    {
      seenEvents, recentEventIds, eventLog, applied := {}, [], map[], [];
    }

    /** rememberEventLocked: file the event, then drop the oldest ids above the cap. The caller has
        already put the id into the seen set. */
    method RememberEventLocked(id: Id, event: Packet, ghost before: Log)
      requires GossipLog.Valid(before) && id == IdOf(event) && Fresh(before, event)
      requires seenEvents == before.seen + {id} && recentEventIds == before.recent && eventLog == before.events
      modifies this`seenEvents, this`recentEventIds, this`eventLog
      ensures Log(seenEvents, recentEventIds, eventLog) == Record(before, event)
    {
      hide *;
      ghost var all := before.recent + [id];
      ghost var stored := before.events[id := event];
      RecordStart(before, event);
      eventLog := eventLog[id := event];
      recentEventIds := recentEventIds + [id];
      ghost var k := 0;
      assert all[0..] == all;
      while |recentEventIds| > MAX_EVENT_LOG
        invariant k == 0 || |recentEventIds| >= MAX_EVENT_LOG
        invariant 0 <= k <= |all| && recentEventIds == all[k..]
        invariant seenEvents == Elems(recentEventIds)
        invariant eventLog == Restrict(stored, recentEventIds)
      {
        EvictOldest(stored, all, k);
        var oldest := recentEventIds[0];
        recentEventIds := recentEventIds[1..];
        eventLog := eventLog - {oldest};
        seenEvents := seenEvents - {oldest};
        k := k + 1;
      }
      RecordEnd(before, event, k);
    }

    /** The part shared by rumor and by an incoming EVENT: false when the event is to be ignored, true
        when it was recorded and must be applied. */
    method Accept(event: Packet) returns (apply: bool)
      requires Valid() && event.kind == GOSSIP_EVENT
      modifies this
      ensures Valid()
      ensures apply <==> old(Fresh(State(), event))
      ensures State() == Offer(old(State()), event)
      ensures applied == Applied(old(State()), event, old(applied))
    {
      OfferValid(State(), event);
      OfferHistory(State(), event, applied);
      var id := IdOf(event);
      if id == [] || id in seenEvents {
        return false;
      }
      ghost var before := State();
      seenEvents := seenEvents + {id};
      RememberEventLocked(id, event, before);
      applied := applied + [id];
      return true;
    }

    /** rumor, up to sending: the packet to send to the peers and apply here, or None when the event has no
        id or is already in the log. */
    method Rumor(self: bytes, event: Packet) returns (sent: Option<Packet>)
      requires Valid()
      modifies this
      ensures Valid()
      ensures State() == Offer(old(State()), Outgoing(self, event))
      ensures applied == Applied(old(State()), Outgoing(self, event), old(applied))
      ensures var from := if event.sender == [] then self else event.sender;
              var to := if event.receiver == [] then [42] else event.receiver;
              var id := IdOf(event);
              sent == if id != [] && id !in old(seenEvents)
                      then Some(event.(kind := 9, sender := from, receiver := to)) else None
    {
      var out := event.(kind := GOSSIP_EVENT);
      if out.sender == [] {
        out := out.(sender := self);
      }
      if out.receiver == [] {
        out := out.(receiver := STAR);
      }
      var apply := Accept(out);
      sent := if apply then Some(out) else None;
    }

    /** buildDigestLocked. */
    method BuildDigestLocked() returns (out: bytes)
      requires Valid()
      ensures out == DigestText(State())
    {
      NoEmptyIds(State());
      out := DigestOf(recentEventIds);
    }

    /** The ids of a digest this node has not seen, read piece by piece. */
    method MissingIds(text: bytes) returns (missing: seq<Id>)
      ensures missing == Unseen(State(), Pieces(text, BAR))
    {
      hide Unseen, Pieces, Find, Rest;
      ghost var l := State();
      missing := [];
      var start := 0;
      RestEnds(text, 0);
      while start < |text|
        invariant 0 <= start <= |text| + 1
        invariant Unseen(l, Pieces(text, BAR)) == missing + Unseen(l, Pieces(Rest(text, start), BAR))
        decreases |text| + 1 - start
      {
        MissingStep(l, text, start);
        var len := Find(text[start..], BAR);
        var id := text[start..start + len];
        if id != [] && id !in seenEvents {
          missing := missing + [id];
        }
        start := start + len + 1;
      }
      RestDone(l, text, start);
    }

    /** The stored events a pull asks for, in the order asked. */
    method AnswerPull(text: bytes) returns (replies: seq<Packet>)
      ensures replies == Lookup(State(), Pieces(text, BAR))
    {
      hide Lookup, Pieces, Find, Rest;
      ghost var l := State();
      replies := [];
      var start := 0;
      RestEnds(text, 0);
      while start < |text|
        invariant 0 <= start <= |text| + 1
        invariant Lookup(l, Pieces(text, BAR)) == replies + Lookup(l, Pieces(Rest(text, start), BAR))
        decreases |text| + 1 - start
      {
        AnswerStep(l, text, start);
        var len := Find(text[start..], BAR);
        var id := text[start..start + len];
        if id != [] && id in eventLog {
          replies := replies + [eventLog[id].(kind := GOSSIP_EVENT)];
        }
        start := start + len + 1;
      }
      RestDone(l, text, start);
    }

    /** handlePeer on a packet of a registered peer. */
    method HandlePeerPacket(self: bytes, now: u64, packet: Packet) returns (replies: seq<Packet>, apply: bool)
      requires Valid()
      modifies this
      ensures Valid()
      ensures (State(), replies) == React(old(State()), self, now, packet)
      ensures apply <==> packet.kind == GOSSIP_EVENT && old(Fresh(State(), packet))
      ensures applied == if apply then old(applied) + [IdOf(packet)] else old(applied)
    {
      replies, apply := [], false;
      if packet.kind == GOSSIP_EVENT {
        apply := Accept(packet);
      } else if packet.kind == GOSSIP_DIGEST {
        var missing := MissingIds(packet.message);
        if missing != [] {
          var message := JoinIds(missing);
          replies := [Packet(GOSSIP_PULL, self, packet.sender, [], message, now, 0)];
        }
      } else if packet.kind == GOSSIP_PULL {
        replies := AnswerPull(packet.message);
      }
    }
  }

  lemma {:induction false} JoinSnoc(ps: seq<bytes>, p: bytes, sep: byte)
    ensures Join(ps + [p], sep) == if ps == [] then p else Join(ps, sep) + [sep] + p
  {
    if |ps| > 0 {
      JoinSnoc(ps[1..], p, sep);
      assert (ps + [p])[1..] == ps[1..] + [p];
    }
  }

  /** The loop of buildDigestLocked: a bar goes before every id but the first, told by the text being empty so far. */
  method DigestOf(ids: seq<Id>) returns (out: bytes)
    requires forall i :: 0 <= i < |ids| ==> ids[i] != []
    ensures out == Join(ids, BAR)
  {
    hide Join;
    out := [];
    var i := 0;
    JoinNone(BAR);
    assert ids[..0] == [];
    while i < |ids|
      invariant 0 <= i <= |ids|
      invariant out == Join(ids[..i], BAR)
      invariant out == [] <==> i == 0
    {
      JoinSnoc(ids[..i], ids[i], BAR);
      assert ids[..i + 1] == ids[..i] + [ids[i]];
      if out != [] {
        out := out + [BAR];
      }
      out := out + ids[i];
      i := i + 1;
    }
    assert ids[..i] == ids;
  }

  lemma JoinNone(sep: byte)
    ensures Join([], sep) == []
  {}

  lemma NoEmptyIds(l: Log)
    requires GossipLog.Valid(l)
    ensures forall i :: 0 <= i < |l.recent| ==> l.recent[i] != []
  {
    hide IdOf;
    forall i | 0 <= i < |l.recent| ensures l.recent[i] != [] {
      assert l.recent[i] in l.events && Filed(l.recent[i], l.events[l.recent[i]]);
    }
  }

  method JoinIds(ids: seq<Id>) returns (message: bytes)
    ensures message == Join(ids, BAR)
  {
    message := [];
    var i := 0;
    while i < |ids|
      invariant 0 <= i <= |ids|
      invariant message == Join(ids[..i], BAR)
    {
      JoinSnoc(ids[..i], ids[i], BAR);
      assert ids[..i + 1] == ids[..i] + [ids[i]];
      if i > 0 {
        message := message + [BAR];
      }
      message := message + ids[i];
      i := i + 1;
    }
    assert ids[..i] == ids;
  }

  // ---------------------------------------------------------------- recording

  lemma RecordStart(before: Log, event: Packet)
    requires GossipLog.Valid(before) && Fresh(before, event)
    ensures var all := before.recent + [IdOf(event)];
            && NoDup(all)
            && before.seen + {IdOf(event)} == Elems(all)
            && before.events[IdOf(event) := event] == Restrict(before.events[IdOf(event) := event], all)
  {
    hide IdOf;
  }

  lemma EvictOldest(stored: map<Id, Packet>, all: seq<Id>, k: nat)
    requires k < |all| && NoDup(all)
    ensures Elems(all[k..]) - {all[k]} == Elems(all[k + 1..])
    ensures Restrict(stored, all[k..]) - {all[k]} == Restrict(stored, all[k + 1..])
  {
    assert all[k..] == [all[k]] + all[k + 1..];
    var rest := all[k + 1..];
    forall i | 0 <= i < |rest| ensures rest[i] != all[k] {
      assert rest[i] == all[k + 1 + i];
    }
  }

  lemma RecordEnd(before: Log, event: Packet, k: nat)
    requires var all := before.recent + [IdOf(event)];
             && k <= |all| && |all[k..]| <= MAX_EVENT_LOG
             && (k == 0 || |all[k..]| >= MAX_EVENT_LOG)
    ensures var all := before.recent + [IdOf(event)];
            var stored := before.events[IdOf(event) := event];
            Log(Elems(all[k..]), all[k..], Restrict(stored, all[k..])) == Record(before, event)
  {
    hide IdOf, Restrict, Elems;
    assert (before.recent + [IdOf(event)])[k..] == Last(before.recent + [IdOf(event)], MAX_EVENT_LOG);
  }

  // ---------------------------------------------------------------- reading pieces

  lemma RestDone(l: Log, text: bytes, start: nat)
    requires start >= |text|
    ensures Pieces(Rest(text, start), BAR) == [] && Unseen(l, []) == [] && Lookup(l, []) == []
  {
    NothingAsked(l);
    PiecesNil(BAR);
    RestEnds(text, start);
  }

  lemma BarStep(s: bytes)
    ensures var i := Find(s, BAR);
            Pieces(s, BAR) == NonEmpty([s[..i]]) + Pieces(Behind(s, i), BAR)
  {
    PiecesStep(s, BAR);
  }

  lemma RestStep(text: bytes, start: nat)
    requires start < |text|
    ensures var len := Find(text[start..], BAR);
            && start + len <= |text|
            && Pieces(Rest(text, start), BAR)
            == NonEmpty([text[start..start + len]]) + Pieces(Rest(text, start + len + 1), BAR)
  {
    hide *;
    var len := Find(text[start..], BAR);
    BarStep(text[start..]);
    RestIs(text, start, len);
  }

  lemma MissingStep(l: Log, text: bytes, start: nat)
    requires start < |text|
    ensures var len := Find(text[start..], BAR);
            && start + len <= |text|
            && Unseen(l, Pieces(Rest(text, start), BAR))
            == Wanted(l, text[start..start + len]) + Unseen(l, Pieces(Rest(text, start + len + 1), BAR))
  {
    hide *;
    RestStep(text, start);
    var id := text[start..start + Find(text[start..], BAR)];
    UnseenAppend(l, NonEmpty([id]), Pieces(Rest(text, start + Find(text[start..], BAR) + 1), BAR));
    UnseenOne(l, id);
  }

  lemma AnswerStep(l: Log, text: bytes, start: nat)
    requires start < |text|
    ensures var len := Find(text[start..], BAR);
            && start + len <= |text|
            && Lookup(l, Pieces(Rest(text, start), BAR))
            == Held(l, text[start..start + len]) + Lookup(l, Pieces(Rest(text, start + len + 1), BAR))
  {
    hide *;
    RestStep(text, start);
    var id := text[start..start + Find(text[start..], BAR)];
    LookupAppend(l, NonEmpty([id]), Pieces(Rest(text, start + Find(text[start..], BAR) + 1), BAR));
    LookupOne(l, id);
  }

  lemma {:induction false} UnseenAppend(l: Log, a: seq<Id>, b: seq<Id>)
    ensures Unseen(l, a + b) == Unseen(l, a) + Unseen(l, b)
  {
    hide *;
    if a == [] {
      NothingAsked(l);
      assert a + b == b;
    } else {
      UnseenAppend(l, a[1..], b);
      FirstAsked(l, a);
      FirstAsked(l, a + b);
      assert (a + b)[1..] == a[1..] + b && (a + b)[0] == a[0];
    }
  }

  lemma NothingAsked(l: Log)
    ensures Unseen(l, []) == [] && Lookup(l, []) == []
  {}

  lemma FirstAsked(l: Log, ids: seq<Id>)
    requires ids != []
    ensures Unseen(l, ids) == (if ids[0] in l.seen then [] else [ids[0]]) + Unseen(l, ids[1..])
    ensures Lookup(l, ids) ==
            (if ids[0] in l.events then [l.events[ids[0]].(kind := GOSSIP_EVENT)] else []) + Lookup(l, ids[1..])
  {}

  /** What one piece of a digest, or of a pull, contributes. */
  function Wanted(l: Log, id: Id): (r: seq<Id>) { if id != [] && id !in l.seen then [id] else [] }
  function Held(l: Log, id: Id): (r: seq<Packet>)
  {
    if id != [] && id in l.events then [l.events[id].(kind := GOSSIP_EVENT)] else []
  }

  lemma UnseenOne(l: Log, id: Id)
    ensures Unseen(l, NonEmpty([id])) == Wanted(l, id)
  {
    NonEmptyOne(id);
    assert [id][1..] == [];
  }

  lemma {:induction false} LookupAppend(l: Log, a: seq<Id>, b: seq<Id>)
    ensures Lookup(l, a + b) == Lookup(l, a) + Lookup(l, b)
  {
    hide *;
    if a == [] {
      NothingAsked(l);
      assert a + b == b;
    } else {
      LookupAppend(l, a[1..], b);
      FirstAsked(l, a);
      FirstAsked(l, a + b);
      assert (a + b)[1..] == a[1..] + b && (a + b)[0] == a[0];
    }
  }

  lemma LookupOne(l: Log, id: Id)
    ensures Lookup(l, NonEmpty([id])) == Held(l, id)
  {
    NonEmptyOne(id);
    assert [id][1..] == [];
  }
}
