/** Gossip events as packets: how a node writes the event it rumors, and what a node takes a packet for. Text is the
    bytes of a std::string, one character each. */
module EventText {
  import opened Bytes
  import opened PacketCodec
  import opened GossipPayload
  import opened ChatNode
  import opened Decimal
  import opened EventIds
  import RoomDirectory
  import L = GossipLog

  // ---------------------------------------------------------------- text and bytes

  predicate Narrow(s: string) { |s| < TWO32 && forall c :: c in s ==> c as int < 256 }

  function AsBytes(s: string): (r: bytes)
    ensures |r| == |s| && forall i :: 0 <= i < |s| ==> r[i] == (s[i] as int) % 256
  {
    seq(|s|, i requires 0 <= i < |s| => (s[i] as int) % 256)
  }

  function AsText(b: bytes): (r: string)
    ensures |r| == |b| && forall i :: 0 <= i < |b| ==> r[i] == b[i] as char
  {
    seq(|b|, i requires 0 <= i < |b| => b[i] as char)
  }

  lemma TextBack(s: string)
    requires Narrow(s)
    ensures AsText(AsBytes(s)) == s
  {
    var r := AsText(AsBytes(s));
    forall i | 0 <= i < |s| ensures r[i] == s[i] { assert s[i] in s; }
  }

  lemma {:induction false} DigitsShort(n: nat)
    ensures |Digits(n)| <= n + 1
  {
    if n >= 10 { DigitsShort(n / 10); }
  }

  /** The ids of short names fit. */
  lemma IdNarrow(self: string, kind: string, user: string, time: nat, number: nat)
    requires Narrow(self) && Narrow(kind) && Narrow(user) && time < 1000 && number < 1000
    requires |self| + |kind| + |user| < 0x8000_0000
    ensures Narrow(MakeId(self, kind, user, time, number)) && MakeId(self, kind, user, time, number) != ""
  {
    DigitsShort(time);
    DigitsShort(number);
    var id := MakeId(self, kind, user, time, number);
    assert |Text(time)| <= 1000 && |Text(number)| <= 1000;
    hide MakeId, Text, Digits;
    IdChars(self, kind, user, time, number, '-');
    forall c | c in id ensures c as int < 256 { IdChars(self, kind, user, time, number, c); }
  }

  // ---------------------------------------------------------------- reading

  /** std::stoll succeeds. */
  predicate IsTime(s: string)
  {
    match Scan(s)
    case None => false
    case Some(n) => n.magnitude < 0x8000_0000_0000_0000 || (n.negative && n.magnitude == 0x8000_0000_0000_0000)
  }

  /** What applyEvent takes five fields and a room for; None when the event has no effect whatever the tables say. */
  function MeaningOf(kind: string, id: string, user: string, content: string, field5: string,
                     room: string): (e: Option<Event>)
  {
    if kind == "LOGIN" then Some(LoginEvent(user, content))
    else if kind == "RECONNECT" then Some(ReconnectEvent(user, content))
    else if kind == "LOGOUT" then Some(LogoutEvent(user))
    else if kind == "USER_CREATED"
      then (if content == "" then None else Some(UserCreatedEvent(User(user, field5, USER))))
    else if kind == "ROOM_CREATED" then Some(RoomCreatedEvent(user, room, RoomDirectory.PrivacyNamed(field5).Private?))
    else if kind == "ROOM_ACL_ADD" then Some(AclAddEvent(user, room, content == "1"))
    else if kind == "ROOM_DELETED" then Some(RoomDeletedEvent(room))
    else if kind == "ROOM_KICK" then Some(KickEvent(user, room))
    else if kind == "ROOM_JOIN" then Some(RoomJoinEvent(user, content, field5, room))
    else if kind == "ROOM_LEAVE" then Some(RoomLeaveEvent(user, if room != "" then room else field5))
    else if kind == "MESSAGE" && IsTime(field5) then Some(MessageEvent(id, user, room))
    else None
  }

  function Meaning(p: Packet): (e: Option<Event>)
  {
    var f :- Decode(p.message);
    MeaningOf(AsText(f.kind), AsText(f.eventId), AsText(f.username), AsText(f.content), AsText(f.field5),
              AsText(p.room))
  }

  // ---------------------------------------------------------------- writing

  /** What a handler passes to rumorEvent. */
  datatype Rumor = Rumor(kind: string, user: string, content: string, field5: string, room: string)

  /** rumorEvent, up to rumoring. */
  function PacketOf(self: string, id: string, r: Rumor, now: u64): (p: Packet)
  {
    Packet(GOSSIP_EVENT, AsBytes(self), L.STAR, AsBytes(r.room),
           Encode(Payload(AsBytes(r.kind), AsBytes(id), AsBytes(r.user), AsBytes(r.content), AsBytes(r.field5))),
           now, 0)
  }

  /** The rumors of the handlers: the event, who caused it, the second, and the text that comes with it (a message's
      content or a new user's password hash). */
  function RumorOf(e: Event, self: string, actor: string, time: int, text: string): (r: Rumor)
  {
    match e
    case LoginEvent(u, _) => Rumor("LOGIN", u, self, Text(time), "")
    case ReconnectEvent(u, _) => Rumor("RECONNECT", u, self, Text(time), "")
    case LogoutEvent(u) => Rumor("LOGOUT", u, self, Text(time), "")
    case UserCreatedEvent(u) => Rumor("USER_CREATED", u.name, text, u.email, "")
    case RoomCreatedEvent(u, room, private) =>
      Rumor("ROOM_CREATED", u, RoomDirectory.TypeName(RoomDirectory.Other),
            RoomDirectory.PrivacyName(if private then RoomDirectory.Private else RoomDirectory.Public), room)
    case AclAddEvent(u, room, creator) => Rumor("ROOM_ACL_ADD", u, if creator then "1" else "0", "", room)
    case RoomDeletedEvent(room) => Rumor("ROOM_DELETED", actor, self, "", room)
    case KickEvent(u, room) => Rumor("ROOM_KICK", u, self, "", room)
    case RoomJoinEvent(u, _, prev, room) => Rumor("ROOM_JOIN", u, self, prev, room)
    case RoomLeaveEvent(u, room) => Rumor("ROOM_LEAVE", u, self, "", room)
    case MessageEvent(_, u, room) => Rumor("MESSAGE", u, text, Text(time), room)
  }

  /** The events a node rumors are about itself: users it places are placed here, new users are plain users with a
      password, a message has the event's id. */
  predicate Honest(e: Event, self: string, id: string, time: int, text: string)
  {
    match e
    case LoginEvent(_, node) => node == self
    case ReconnectEvent(_, node) => node == self
    case RoomJoinEvent(_, node, _, _) => node == self
    case UserCreatedEvent(u) => u.kind == USER && text != ""
    case MessageEvent(x, _, _) => x == id && -0x8000_0000_0000_0000 <= time < 0x8000_0000_0000_0000
    case RoomLeaveEvent(_, room) => room != ""
    case _ => true
  }

  predicate AllNarrow(id: string, r: Rumor)
  {
    Narrow(id) && Narrow(r.kind) && Narrow(r.user) && Narrow(r.content) && Narrow(r.field5) && Narrow(r.room)
  }

  /** A packet is taken for what was written into it. */
  lemma PacketMeans(self: string, id: string, r: Rumor, now: u64)
    requires AllNarrow(id, r)
    ensures Meaning(PacketOf(self, id, r, now)) == MeaningOf(r.kind, id, r.user, r.content, r.field5, r.room)
    ensures L.IdOf(PacketOf(self, id, r, now)) == AsBytes(id)
  {
    hide Encode, Decode, EventId, MeaningOf, AsBytes, AsText, Narrow;
    var f := Payload(AsBytes(r.kind), AsBytes(id), AsBytes(r.user), AsBytes(r.content), AsBytes(r.field5));
    FieldsFit(id, r);
    DecodeIffEncode(Encode(f), f);
    EventIdAgrees(Encode(f));
    TextBack(r.kind);
    TextBack(id);
    TextBack(r.user);
    TextBack(r.content);
    TextBack(r.field5);
    TextBack(r.room);
  }

  lemma FieldsFit(id: string, r: Rumor)
    requires AllNarrow(id, r)
    ensures Fits(Payload(AsBytes(r.kind), AsBytes(id), AsBytes(r.user), AsBytes(r.content), AsBytes(r.field5)))
  {
    hide AsBytes;
  }

  /** The round trip: what a node rumors of an event, any node takes for that event. */
  lemma RumorMeans(e: Event, self: string, id: string, actor: string, time: int, text: string, now: u64)
    requires Honest(e, self, id, time, text) && AllNarrow(id, RumorOf(e, self, actor, time, text))
    ensures Meaning(PacketOf(self, id, RumorOf(e, self, actor, time, text), now)) == Some(e)
    ensures L.IdOf(PacketOf(self, id, RumorOf(e, self, actor, time, text), now)) == AsBytes(id)
  {
    hide Meaning, PacketOf, AllNarrow, L.IdOf;
    PacketMeans(self, id, RumorOf(e, self, actor, time, text), now);
    hide Text;
    if e.MessageEvent? { TimeText(time); }
  }

  lemma TimeText(time: int)
    requires -0x8000_0000_0000_0000 <= time < 0x8000_0000_0000_0000
    ensures IsTime(Text(time))
  {
    hide Scan, Text;
    ScanText(time, "");
    assert Text(time) + "" == Text(time);
  }
}
