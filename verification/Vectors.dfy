/** The texts on concrete data, character for character: what round trips alone would not notice, such as the order of
    fields and the words used. */
module Vectors {
  import opened Bytes
  import W = WebFrame
  import I = EventIds
  import H = ChatHistory
  import D = RoomDirectory
  import S = ServerDirectory
  import N = EndpointRing
  import L = GossipLog
  import T = EventText
  import C = ChatNode
  import X = TextLists
  import Decimal
  import Seqs
  import P = PacketCodec
  import E = HttpHead
  import R = NodeRuns

  // ---------------------------------------------------------------- bytes

  /** The text frame "hi" under the key 1, 2, 3, 4. */
  lemma FrameBytes()
    ensures W.Frame(W.TEXT, [104, 105], Some([1, 2, 3, 4])) == [129, 130, 1, 2, 3, 4, 105, 107]
    ensures W.Decode([129, 130, 1, 2, 3, 4, 105, 107]) == W.Ok(8, W.TEXT, [104, 105])
  {
    assert W.Xor(104, 1) == 105 && W.Xor(105, 2) == 107;
    assert W.Mask([104, 105], [1, 2, 3, 4]) == [105, 107];
    var f := W.Frame(W.TEXT, [104, 105], Some([1, 2, 3, 4]));
    W.DecodeFrameOf(W.TEXT, [104, 105], Some([1, 2, 3, 4]), []);
    assert f + [] == f;
  }

  /** A packet fits when its type is at most 20 and its texts leave room for 29 bytes more within a mebibyte. */
  lemma PacketLimit(p: P.Packet)
    ensures P.Encodable(p) <==>
            p.kind <= 20 && 29 + |p.sender| + |p.receiver| + |p.room| + |p.message| <= 1048576
  {
    P.BodyShape(p);
    var vs := P.Texts(p);
    assert Fields(vs) == Field(vs[0]) + Fields(vs[1..]);
    assert Fields(vs[1..]) == Field(vs[1]) + Fields(vs[1..][1..]);
    assert vs[1..][1..] == vs[2..];
    assert Fields(vs[2..]) == Field(vs[2]) + Fields(vs[2..][1..]);
    assert vs[2..][1..] == vs[3..];
    assert Fields(vs[3..]) == Field(vs[3]) + Fields(vs[3..][1..]);
    var none: seq<bytes> := [];
    assert vs[3..][1..] == none;
  }

  /** A new event goes to the end of the window of 256, and only a full window loses its first id. */
  lemma WindowOf256(l: L.Log, p: P.Packet)
    requires L.Valid(l) && L.IdOf(p) != [] && L.IdOf(p) !in l.seen
    ensures L.Offer(l, p).recent == (if |l.recent| < 256 then l.recent else l.recent[1..]) + [L.IdOf(p)]
  {}

  /** The server reads a head under every cut exactly when there is room in 8192 bytes for it and 1023 bytes more, or
      for everything there is. */
  lemma HeadRoom(s: bytes)
    ensures (forall chunks: seq<bytes> ::
               E.IsCut(chunks) && Seqs.Flatten(chunks) == s ==> E.HeadArrives([], chunks, E.MAX_HTTP_HEADER_BYTES))
       <==> E.HeadEnd(s) <= |s| && (E.HeadEnd(s) + 1023 <= 8192 || |s| <= 8192)
  {
    hide E.HeadArrives, E.IsCut, E.HeadEnd, Seqs.Flatten;
    E.ReadsUnderEveryCut(s, E.MAX_HTTP_HEADER_BYTES);
  }

  // ---------------------------------------------------------------- text

  lemma NumberTexts()
    ensures Decimal.Text(1203) == "1203" && Decimal.Text(-12) == "-12" && Decimal.Text(12) == "12"
    ensures Decimal.Text(0) == "0"
  {
    assert Decimal.Digits(12) == "12";
    assert Decimal.Digits(120) == "120";
  }

  /** Node, kind, user, second, number. */
  lemma EventIdText()
    ensures I.MakeId("n1", "LOGIN", "ann", 1203, 12) == "n1" + "-" + "LOGIN" + "-" + "ann" + "-" + "1203" + "-" + "12"
  {
    NumberTexts();
    hide Decimal.Text;
  }

  /** A line of history; the oldest message, last in the list, comes first. */
  lemma HistoryLines(a: H.Message, b: H.Message)
    requires a.at == 1203
    ensures H.LineOf(a) == "[" + a.author + "]" + "[" + "1203" + "]" + " " + a.content
    ensures H.HistoryText([b, a]) == H.LineOf(a) + "\n" + H.LineOf(b) + "\n"
  {
    NumberTexts();
    hide Decimal.Text;
    assert H.LineOf(a) == "[" + a.author + "]" + "[" + "1203" + "]" + " " + a.content;
    hide H.LineOf;
    assert [b, a][1..] == [a] && [a][1..] == [];
    assert H.HistoryText([a]) == H.HistoryText([]) + H.LineOf(a) + "\n";
  }

  /** Number, name, type and privacy; rooms one after the other with semicolons. */
  lemma RoomTexts(name: string, a: string, b: string)
    ensures D.Serialize(D.Room(1203, name, D.Other, D.Private))
            == "room(" + "1203" + "|" + name + "|" + "Other" + "|" + "PRIVATE" + ")"
    ensures D.Serialize(D.Room(0, name, D.Lobby, D.Public))
            == "room(" + "0" + "|" + name + "|" + "Lobby" + "|" + "PUBLIC" + ")"
    ensures Seqs.Join([a, b], X.SEMI) == a + ";" + b
  {
    NumberTexts();
    hide Decimal.Text;
    RoomIs(1203, "1203", name, D.Other, D.Private);
    RoomIs(0, "0", name, D.Lobby, D.Public);
    assert [a, b][1..] == [b];
    assert Seqs.Join([b], X.SEMI) == b;
  }

  lemma TypeTexts()
    ensures D.TypeName(D.ResearchAndDevelopment) == "R&D" && D.TypeName(D.Production) == "Production"
    ensures D.TypeName(D.Qa) == "QA" && D.TypeName(D.DevOps) == "DevOps" && D.TypeName(D.Security) == "Security"
    ensures D.TypeName(D.Design) == "Design" && D.TypeName(D.Marketing) == "Marketing" && D.TypeName(D.Hr) == "HR"
    ensures D.TypeName(D.Finance) == "Finance" && D.TypeName(D.Legal) == "Legal"
    ensures D.TypeName(D.CustomerSupport) == "Customer Support"
  {}

  lemma RoomIs(id: i32, digits: string, name: string, k: D.RoomType, p: D.Privacy)
    requires Decimal.Text(id) == digits
    ensures D.Serialize(D.Room(id, name, k, p))
            == "room(" + digits + "|" + name + "|" + D.TypeName(k) + "|" + D.PrivacyName(p) + ")"
  {
    hide Decimal.Text, D.TypeName, D.PrivacyName;
  }

  /** The two rooms every node has. */
  lemma SeedRooms(n: C.Node)
    requires R.Boot(n)
    ensures n.known == map["Lobby" := C.Room(1, "Lobby", false), "General" := C.Room(2, "General", false)]
  {}

  /** Node, host and port. */
  lemma EndpointText(node: string, host: string)
    ensures S.Serialize(N.Endpoint(node, host, 1203)) == "endpoint(" + node + "|" + host + "|" + "1203" + ")"
  {
    NumberTexts();
    hide Decimal.Text;
  }

  /** The ids of a digest, the oldest first, with bars between them. */
  lemma DigestBytes(a: bytes, b: bytes)
    ensures L.DigestText(L.Log({a, b}, [a, b], map[])) == a + [124] + b
  {
    var ids: seq<bytes> := [a, b];
    assert ids[1..] == [b];
    assert Seqs.Join([b], L.BAR) == b;
  }

  // ---------------------------------------------------------------- what the handlers rumor

  /** Kind, user, content, fifth field and room of the events about users. */
  lemma UserRumors(u: string, node: string, email: string, hash: string)
    ensures T.RumorOf(C.LoginEvent(u, node), node, "", 1203, "") == T.Rumor("LOGIN", u, node, "1203", "")
    ensures T.RumorOf(C.ReconnectEvent(u, node), node, "", 1203, "") == T.Rumor("RECONNECT", u, node, "1203", "")
    ensures T.RumorOf(C.LogoutEvent(u), node, "", 1203, "") == T.Rumor("LOGOUT", u, node, "1203", "")
    ensures T.RumorOf(C.UserCreatedEvent(C.User(u, email, C.USER)), node, "", 1203, hash)
         == T.Rumor("USER_CREATED", u, hash, email, "")
  {
    NumberTexts();
    hide Decimal.Text;
  }

  /** And of the events about rooms. */
  lemma RoomRumors(u: string, node: string, prev: string, room: string, text: string)
    ensures T.RumorOf(C.RoomCreatedEvent(u, room, true), node, "", 0, "")
            == T.Rumor("ROOM_CREATED", u, "Other", "PRIVATE", room)
    ensures T.RumorOf(C.RoomCreatedEvent(u, room, false), node, "", 0, "")
            == T.Rumor("ROOM_CREATED", u, "Other", "PUBLIC", room)
    ensures T.RumorOf(C.AclAddEvent(u, room, true), node, "", 0, "") == T.Rumor("ROOM_ACL_ADD", u, "1", "", room)
    ensures T.RumorOf(C.AclAddEvent(u, room, false), node, "", 0, "") == T.Rumor("ROOM_ACL_ADD", u, "0", "", room)
    ensures T.RumorOf(C.RoomDeletedEvent(room), node, u, 0, "") == T.Rumor("ROOM_DELETED", u, node, "", room)
    ensures T.RumorOf(C.KickEvent(u, room), node, "", 0, "") == T.Rumor("ROOM_KICK", u, node, "", room)
    ensures T.RumorOf(C.RoomJoinEvent(u, node, prev, room), node, "", 0, "")
            == T.Rumor("ROOM_JOIN", u, node, prev, room)
    ensures T.RumorOf(C.MessageEvent("", u, room), node, "", 1203, text) == T.Rumor("MESSAGE", u, text, "1203", room)
  {
    NumberTexts();
    hide Decimal.Text;
  }

  /** The packet an event travels in: from this node, to everyone, under the room it is about. */
  lemma EventPacket(self: string, id: string, r: T.Rumor, now: u64)
    ensures var p := T.PacketOf(self, id, r, now);
            && p.kind == 9 && p.sender == T.AsBytes(self) && p.receiver == [42] && p.room == T.AsBytes(r.room)
            && p.timestamp == now && p.responseCode == 0
  {}

  /** What a peer may send that no handler rumors. */
  lemma PeerTexts(id: string, u: string, content: string, field5: string, room: string)
    ensures T.MeaningOf("USER_CREATED", id, u, "", field5, room) == None
    ensures content != "1" ==>
            T.MeaningOf("ROOM_ACL_ADD", id, u, content, field5, room) == Some(C.AclAddEvent(u, room, false))
    ensures field5 != "PRIVATE" ==>
              T.MeaningOf("ROOM_CREATED", id, u, content, field5, room) == Some(C.RoomCreatedEvent(u, room, false))
    ensures T.MeaningOf("ROOM_LEAVE", id, u, content, field5, "") == Some(C.RoomLeaveEvent(u, field5))
    ensures T.MeaningOf("", id, u, content, field5, room) == None
  {}

  /** A message counts exactly when its time is one of 64 bits. */
  lemma MessageTexts(id: string, u: string, content: string, at: int, room: string)
    ensures T.MeaningOf("MESSAGE", id, u, content, Decimal.Text(at), room) ==
            if -9223372036854775808 <= at <= 9223372036854775807 then Some(C.MessageEvent(id, u, room)) else None
    ensures T.MeaningOf("MESSAGE", id, u, content, "", room) == None
  {
    hide Decimal.Scan, Decimal.Text;
    Decimal.ScanText(at, "");
    assert Decimal.Text(at) + "" == Decimal.Text(at);
    Decimal.ScanNone("");
  }
}
