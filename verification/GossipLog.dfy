/** One node's gossip event log: the seen set, the FIFO of recent ids and the stored events, with the
    reactions to RUMOR, EVENT, DIGEST and PULL. */
module GossipLog {
  import opened Bytes
  import opened Seqs
  import opened PacketCodec
  import opened GossipPayload

  const MAX_EVENT_LOG: nat := 256
  const BAR: byte := 124  // '|', the separator of digests and pulls
  const STAR: bytes := [42]

  type Id = bytes

  datatype Log = Log(seen: set<Id>, recent: seq<Id>, events: map<Id, Packet>)

  const EMPTY: Log := Log({}, [], map[])

  function IdOf(p: Packet): (id: Id) { EventId(p.message) }

  /** The three structures agree, hold no id twice and stay within the cap; every stored event is
      filed under its own nonempty id. */
  ghost predicate Valid(l: Log)
  {
    && l.seen == Elems(l.recent)
    && l.events.Keys == l.seen
    && NoDup(l.recent)
    && |l.recent| <= MAX_EVENT_LOG
    && forall id :: id in l.events ==> Filed(id, l.events[id])
  }

  predicate Filed(id: Id, p: Packet) { id != [] && IdOf(p) == id && p.kind == GOSSIP_EVENT }

  function Restrict(m: map<Id, Packet>, ids: seq<Id>): (r: map<Id, Packet>)
  {
    map x | x in m && x in ids :: m[x]
  }

  /** Recording an event keeps the ids recorded most recently, and nothing but their events. */
  function Record(l: Log, p: Packet): (r: Log)
  {
    var recent := Last(l.recent + [IdOf(p)], MAX_EVENT_LOG);
    Log(Elems(recent), recent, Restrict(l.events[IdOf(p) := p], recent))
  }

  /** An event takes effect only when it has an id that is not in the log. */
  predicate Fresh(l: Log, p: Packet) { IdOf(p) != [] && IdOf(p) !in l.seen }

  function Offer(l: Log, p: Packet): (r: Log)
  {
    if Fresh(l, p) then Record(l, p) else l
  }

  function OfferAll(l: Log, ps: seq<Packet>): (r: Log)
    decreases |ps|
  {
    if ps == [] then l else OfferAll(Offer(l, ps[0]), ps[1..])
  }

  /** The packet a rumor stores and sends. */
  function Outgoing(self: bytes, event: Packet): (r: Packet)
  {
    event.(kind := GOSSIP_EVENT,
           sender := if event.sender == [] then self else event.sender,
           receiver := if event.receiver == [] then STAR else event.receiver)
  }

  function DigestText(l: Log): (r: bytes) { Join(l.recent, BAR) }

  function Unseen(l: Log, ids: seq<Id>): (r: seq<Id>)
    ensures forall x :: x in r <==> x in ids && x !in l.seen
  {
    if ids == [] then []
    else (if ids[0] in l.seen then [] else [ids[0]]) + Unseen(l, ids[1..])
  }

  function Lookup(l: Log, ids: seq<Id>): (r: seq<Packet>)
  {
    if ids == [] then []
    else (if ids[0] in l.events then [l.events[ids[0]].(kind := GOSSIP_EVENT)] else []) + Lookup(l, ids[1..])
  }

  /** What a registered peer's packet does to the log, and the packets sent back. */
  function React(l: Log, self: bytes, now: u64, p: Packet): (r: (Log, seq<Packet>))
  {
    if p.kind == GOSSIP_EVENT then (Offer(l, p), [])
    else if p.kind == GOSSIP_DIGEST then
      var missing := Unseen(l, Pieces(p.message, BAR));
      (l, if missing == [] then []
          else [Packet(GOSSIP_PULL, self, p.sender, [], Join(missing, BAR), now, 0)])
    else if p.kind == GOSSIP_PULL then (l, Lookup(l, Pieces(p.message, BAR)))
    else (l, [])
  }

  // ---------------------------------------------------------------- invariants

  lemma LastIsSuffix<T>(s: seq<T>, n: nat)
    ensures forall x :: x in Last(s, n) ==> x in s
    ensures NoDup(s) ==> NoDup(Last(s, n))
  {
    var r := Last(s, n);
    if NoDup(s) && |s| > n {
      forall i, j | 0 <= i < j < |r| ensures r[i] != r[j] {
        assert s[|s| - n + i] != s[|s| - n + j];
      }
    }
  }

  lemma OfferValid(l: Log, p: Packet)
    requires Valid(l) && p.kind == GOSSIP_EVENT
    ensures Valid(Offer(l, p))
    ensures Fresh(l, p) ==> IdOf(p) in Offer(l, p).seen && Offer(l, p).events[IdOf(p)] == p
    ensures Offer(l, p).seen <= l.seen + {IdOf(p)}
    ensures forall id :: id in Offer(l, p).events && id in l.events ==> Offer(l, p).events[id] == l.events[id]
  {
    if Fresh(l, p) {
      hide IdOf;
      var id := IdOf(p);
      var all := l.recent + [id];
      var r := Record(l, p);
      assert NoDup(all);
      LastIsSuffix(all, MAX_EVENT_LOG);
      assert r.recent[|r.recent| - 1] == id;
      assert Elems(all) == l.seen + {id};
      assert r.events.Keys == r.seen;
    }
  }

  /** Below the cap nothing is evicted: recording an id adds exactly that id. */
  lemma OfferGrows(l: Log, p: Packet)
    requires Valid(l) && p.kind == GOSSIP_EVENT
    requires |l.seen + {IdOf(p)}| <= MAX_EVENT_LOG
    ensures Fresh(l, p) ==> Offer(l, p).seen == l.seen + {IdOf(p)}
    ensures l.seen <= Offer(l, p).seen
  {
    if Fresh(l, p) {
      hide IdOf;
      var all := l.recent + [IdOf(p)];
      assert NoDup(all);
      assert Elems(all) == l.seen + {IdOf(p)};
      NoDupCardinality(all);
      assert Last(all, MAX_EVENT_LOG) == all;
    }
  }

  // ---------------------------------------------------------------- the deduplication window

  /** The ids applied so far: the log holds the last 256 of them, and an id comes back only after 256
      other applications. */
  ghost predicate History(l: Log, applied: seq<Id>)
  {
    && l.recent == Last(applied, MAX_EVENT_LOG)
    && Spaced(applied)
  }

  ghost predicate Spaced(applied: seq<Id>)
  {
    forall i, j :: 0 <= i < j < |applied| && applied[i] == applied[j] ==> j - i > MAX_EVENT_LOG
  }

  function Applied(l: Log, p: Packet, applied: seq<Id>): (r: seq<Id>)
  {
    if Fresh(l, p) then applied + [IdOf(p)] else applied
  }

  lemma OfferHistory(l: Log, p: Packet, applied: seq<Id>)
    requires Valid(l) && History(l, applied)
    ensures History(Offer(l, p), Applied(l, p, applied))
  {
    if Fresh(l, p) {
      hide IdOf;
      var id := IdOf(p);
      var after := applied + [id];
      var window := Last(applied, MAX_EVENT_LOG);
      forall i | |applied| - |window| <= i < |applied| ensures applied[i] != id {
        assert applied[i] == window[i - (|applied| - |window|)];
      }
      assert Last(Last(applied, MAX_EVENT_LOG) + [id], MAX_EVENT_LOG) == Last(after, MAX_EVENT_LOG);
    }
  }

  /** Between two applications of one id lie 256 applications of pairwise different other ids. */
  lemma SpacedMeansDistinct(applied: seq<Id>, i: nat, j: nat)
    requires Spaced(applied) && i < j < |applied| && applied[i] == applied[j]
    ensures j - MAX_EVENT_LOG > i
    ensures var between := applied[j - MAX_EVENT_LOG..j];
            |between| == MAX_EVENT_LOG && |Elems(between)| == MAX_EVENT_LOG && applied[i] !in between
  {
    var between := applied[j - MAX_EVENT_LOG..j];
    forall x, y | 0 <= x < y < |between| ensures between[x] != between[y] {
      assert between[x] == applied[j - MAX_EVENT_LOG + x] && between[y] == applied[j - MAX_EVENT_LOG + y];
    }
    NoDupCardinality(between);
    forall x | 0 <= x < |between| ensures between[x] != applied[j] {
      assert between[x] == applied[j - MAX_EVENT_LOG + x];
    }
  }

  // ---------------------------------------------------------------- anti-entropy

  ghost predicate Clean(id: Id) { id != [] && BAR !in id }

  /** The ids a digest offers: its bar-free ids, plus fragments of ids that contain the bar. */
  lemma DigestOffers(l: Log, x: Id)
    requires Valid(l)
    ensures x in Pieces(DigestText(l), BAR) ==> Clean(x)
    ensures x in l.seen ==> (x in Pieces(DigestText(l), BAR) <==> BAR !in x)
  {
    PiecesClean(DigestText(l), BAR);
    hide Join, Pieces, IdOf;
    PiecesJoin(l.recent, BAR);
    if x in l.seen && BAR !in x {
      assert x in l.events && Filed(x, l.events[x]);
      PiecesOne(x, BAR);
      AllPiecesMember(l.recent, BAR, x, x);
    }
  }

  lemma {:induction false} LookupAnswers(l: Log, ids: seq<Id>)
    requires Valid(l)
    ensures forall p :: p in Lookup(l, ids) ==> IdOf(p) in ids && IdOf(p) in l.events && l.events[IdOf(p)] == p
    ensures forall x :: x in ids && x in l.events ==> l.events[x] in Lookup(l, ids)
  {
    if ids != [] {
      LookupAnswers(l, ids[1..]);
      assert ids == [ids[0]] + ids[1..];
      var x := ids[0];
      if x in l.events {
        assert Filed(x, l.events[x]);
        assert l.events[x].(kind := GOSSIP_EVENT) == l.events[x];
      }
    }
  }

  /** Delivering events one after the other, with room for all of them, adds exactly their ids and
      files each new id with the event delivered for it. */
  lemma {:induction false} OfferAllAdds(l: Log, ps: seq<Packet>, source: map<Id, Packet>)
    requires Valid(l)
    requires forall p :: p in ps ==> From(source, p)
    requires |l.seen + source.Keys| <= MAX_EVENT_LOG
    ensures Valid(OfferAll(l, ps))
    ensures OfferAll(l, ps).seen == l.seen + Ids(ps)
    ensures Extends(l, OfferAll(l, ps), source)
    decreases |ps|
  {
    hide *;
    if ps == [] {
      OfferNone(l, source);
    } else {
      var p := ps[0];
      var next := Offer(l, p);
      OfferOne(l, p, source);
      OfferAllAdds(next, ps[1..], source);
      ExtendsTrans(l, next, OfferAll(next, ps[1..]), source);
      IdsCons(ps);
      assert OfferAll(l, ps) == OfferAll(next, ps[1..]) by { OfferAllCons(l, ps); }
    }
  }

  lemma OfferNone(l: Log, source: map<Id, Packet>)
    requires Valid(l)
    ensures OfferAll(l, []) == l && Ids([]) == {} && Extends(l, l, source)
  {}

  lemma OfferAllCons(l: Log, ps: seq<Packet>)
    requires ps != []
    ensures OfferAll(l, ps) == OfferAll(Offer(l, ps[0]), ps[1..])
  {}

  function Ids(ps: seq<Packet>): (r: set<Id>) { set p | p in ps :: IdOf(p) }

  ghost predicate From(source: map<Id, Packet>, p: Packet)
  {
    IdOf(p) in source && source[IdOf(p)] == p && Filed(IdOf(p), p)
  }

  /** r keeps every event of l, and its other events come from source. */
  ghost predicate Extends(l: Log, r: Log, source: map<Id, Packet>)
  {
    && l.seen <= r.seen
    && l.events.Keys == l.seen && r.events.Keys == r.seen <= l.seen + source.Keys
    && (forall id :: id in l.seen ==> r.events[id] == l.events[id])
    && (forall id :: id in r.seen && id !in l.seen ==> r.events[id] == source[id])
  }

  lemma IdsCons(ps: seq<Packet>)
    requires ps != []
    ensures Ids(ps) == {IdOf(ps[0])} + Ids(ps[1..])
  {
    hide IdOf;
    assert ps == [ps[0]] + ps[1..];
  }

  lemma ExtendsTrans(a: Log, b: Log, c: Log, source: map<Id, Packet>)
    requires Extends(a, b, source) && Extends(b, c, source)
    ensures Extends(a, c, source)
  {}

  lemma OfferOne(l: Log, p: Packet, source: map<Id, Packet>)
    requires Valid(l) && From(source, p) && |l.seen + source.Keys| <= MAX_EVENT_LOG
    ensures Valid(Offer(l, p))
    ensures Offer(l, p).seen == l.seen + {IdOf(p)}
    ensures Offer(l, p).seen + source.Keys == l.seen + source.Keys
    ensures Extends(l, Offer(l, p), source)
  {
    hide IdOf, Record;
    SubsetCard(l.seen + {IdOf(p)}, l.seen + source.Keys);
    OfferValid(l, p);
    OfferGrows(l, p);
    ValidKeys(l);
    ValidKeys(Offer(l, p));
    hide Valid, Offer, Fresh;
  }

  lemma SubsetCard<T>(a: set<T>, b: set<T>)
    requires a <= b
    ensures |a| <= |b|
  {
    assert b == a + (b - a);
  }

  /** The log of b after b has pulled from a everything a's digest offers. */
  function Exchange(a: Log, b: Log): (r: Log)
  {
    var missing := Unseen(b, Pieces(DigestText(a), BAR));
    OfferAll(b, Lookup(a, Pieces(Join(missing, BAR), BAR)))
  }

  /** The pull request names exactly the missing ids. */
  lemma PullNames(a: Log, b: Log)
    requires Valid(a)
    ensures var missing := Unseen(b, Pieces(DigestText(a), BAR));
            Pieces(Join(missing, BAR), BAR) == missing
  {
    PiecesClean(DigestText(a), BAR);
    PiecesJoinClean(Unseen(b, Pieces(DigestText(a), BAR)), BAR);
  }

  /** A complete digest, pull and event exchange, whatever the ids contain: b gains exactly the bar-free
      ids of a, with a's events, and loses nothing. */
  lemma ExchangeResult(a: Log, b: Log)
    requires Valid(a) && Valid(b)
    requires |a.seen + b.seen| <= MAX_EVENT_LOG
    ensures Valid(Exchange(a, b))
    ensures Exchange(a, b).seen == b.seen + BarFree(a.seen)
    ensures Extends(b, Exchange(a, b), a.events)
  {
    hide IdOf, Pieces, DigestText, Valid;
    var missing := Unseen(b, Pieces(DigestText(a), BAR));
    PullNames(a, b);
    PulledIds(a, b);
    var replies := Lookup(a, missing);
    assert b.seen + a.events.Keys == a.seen + b.seen by {
      assert a.events.Keys == a.seen by { ValidKeys(a); }
    }
    OfferAllAdds(b, replies, a.events);
  }

  function BarFree(ids: set<Id>): (r: set<Id>) { set x | x in ids && BAR !in x }

  lemma ValidKeys(l: Log)
    requires Valid(l)
    ensures l.events.Keys == l.seen
  {}

  /** What a answers to b's pull: the events of a's bar-free ids that b lacks. */
  lemma PulledIds(a: Log, b: Log)
    requires Valid(a)
    ensures var replies := Lookup(a, Unseen(b, Pieces(DigestText(a), BAR)));
            b.seen + Ids(replies) == b.seen + BarFree(a.seen) && forall p :: p in replies ==> From(a.events, p)
  {
    hide IdOf, Pieces, DigestText, Lookup;
    var missing := Unseen(b, Pieces(DigestText(a), BAR));
    var replies := Lookup(a, missing);
    LookupAnswers(a, missing);
    forall p | p in replies ensures From(a.events, p) {
      assert Filed(IdOf(p), a.events[IdOf(p)]);
    }
    forall x ensures x in b.seen + Ids(replies) <==> x in b.seen + BarFree(a.seen) {
      DigestOffers(a, x);
      if x in BarFree(a.seen) && x !in b.seen {
        assert x in missing;
        assert a.events[x] in replies && Filed(x, a.events[x]);
      }
    }
  }

  /** An exchange leaves b with everything a holds exactly when every id b lacked is bar-free. */
  lemma ExchangeHealsIff(a: Log, b: Log)
    requires Valid(a) && Valid(b)
    requires |a.seen + b.seen| <= MAX_EVENT_LOG
    ensures a.seen <= Exchange(a, b).seen <==> forall x :: x in a.seen && x !in b.seen ==> BAR !in x
  {
    hide Exchange, Valid;
    ExchangeResult(a, b);
  }

  function ExchangeTimes(a: Log, b: Log, times: nat): (r: Log)
    decreases times
  {
    if times == 0 then b else ExchangeTimes(a, Exchange(a, b), times - 1)
  }

  /** The ids a pull can be answered with are pieces between bars. */
  lemma AnswersAreClean(l: Log, text: bytes)
    requires Valid(l)
    ensures forall p :: p in Lookup(l, Pieces(text, BAR)) ==> BAR !in IdOf(p) && p.kind == GOSSIP_EVENT
  {
    hide IdOf, Pieces, Lookup;
    PiecesClean(text, BAR);
    LookupAnswers(l, Pieces(text, BAR));
    forall p | p in Lookup(l, Pieces(text, BAR)) ensures BAR !in IdOf(p) && p.kind == GOSSIP_EVENT {
      assert Filed(IdOf(p), l.events[IdOf(p)]);
    }
  }

  lemma {:induction false} OfferAllWithin(l: Log, ps: seq<Packet>, x: Id)
    requires Valid(l) && x !in l.seen && forall p :: p in ps ==> IdOf(p) != x && p.kind == GOSSIP_EVENT
    ensures Valid(OfferAll(l, ps)) && x !in OfferAll(l, ps).seen
    decreases |ps|
  {
    hide Valid, IdOf, Offer;
    if ps != [] {
      assert ps[0] in ps;
      OfferValid(l, ps[0]);
      OfferAllWithin(Offer(l, ps[0]), ps[1..], x);
    }
  }

  /** An id with a bar in it is never delivered by an exchange, however often b pulls from a. */
  lemma {:induction false} BarIdNeverHeals(a: Log, b: Log, x: Id, times: nat)
    requires Valid(a) && Valid(b) && BAR in x && x !in b.seen
    ensures x !in ExchangeTimes(a, b, times).seen
    decreases times
  {
    hide Exchange, Valid, IdOf;
    if times > 0 {
      NotPulled(a, b, x);
      BarIdNeverHeals(a, Exchange(a, b), x, times - 1);
    }
  }

  lemma NotPulled(a: Log, b: Log, x: Id)
    requires Valid(a) && Valid(b) && BAR in x && x !in b.seen
    ensures Valid(Exchange(a, b)) && x !in Exchange(a, b).seen
  {
    hide Valid, IdOf, Pieces, Lookup, Unseen, OfferAll, DigestText;
    var pull := Join(Unseen(b, Pieces(DigestText(a), BAR)), BAR);
    AnswersAreClean(a, pull);
    OfferAllWithin(b, Lookup(a, Pieces(pull, BAR)), x);
  }
}
