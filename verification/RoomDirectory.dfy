/** Room lists as the server writes them and as the console client and the browser read them. */
module RoomDirectory {
  import opened Bytes
  import opened Seqs
  import opened Decimal
  import opened TextLists

  datatype RoomType =
    | ResearchAndDevelopment | Production | Qa | DevOps | Security | Design | Marketing | Hr | Finance
    | Legal | CustomerSupport | Other | Lobby

  datatype Privacy = Public | Private

  datatype Room = Room(id: i32, name: string, kind: RoomType, privacy: Privacy)

  const PREFIX: string := "room("

  function TypeName(k: RoomType): (s: string)
    ensures BAR !in s && SEMI !in s
  {
    match k
    case ResearchAndDevelopment => "R&D"
    case Production => "Production"
    case Qa => "QA"
    case DevOps => "DevOps"
    case Security => "Security"
    case Design => "Design"
    case Marketing => "Marketing"
    case Hr => "HR"
    case Finance => "Finance"
    case Legal => "Legal"
    case CustomerSupport => "Customer Support"
    case Other => "Other"
    case Lobby => "Lobby"
  }

  /** stringToRoomType: an unknown name is Other. */
  function TypeNamed(s: string): (k: RoomType)
    ensures TypeName(k) == s || (k == Other && forall j :: TypeName(j) != s)
  {
    if s == "R&D" then ResearchAndDevelopment
    else if s == "Production" then Production
    else if s == "QA" then Qa
    else if s == "DevOps" then DevOps
    else if s == "Security" then Security
    else if s == "Design" then Design
    else if s == "Marketing" then Marketing
    else if s == "HR" then Hr
    else if s == "Finance" then Finance
    else if s == "Legal" then Legal
    else if s == "Customer Support" then CustomerSupport
    else if s == "Lobby" then Lobby
    else Other
  }

  function PrivacyName(p: Privacy): (s: string)
    ensures BAR !in s && SEMI !in s
  {
    match p
    case Public => "PUBLIC"
    case Private => "PRIVATE"
  }

  /** stringToPrivacy: an unknown name is public. */
  function PrivacyNamed(s: string): (p: Privacy)
    ensures PrivacyName(p) == s || (p == Public && s != "PRIVATE")
  {
    if s == "PRIVATE" then Private else Public
  }

  lemma NamesReadBack(k: RoomType, p: Privacy)
    ensures TypeNamed(TypeName(k)) == k && PrivacyNamed(PrivacyName(p)) == p
  {}

  // ---------------------------------------------------------------- one room

  function Serialize(r: Room): (s: string)
  {
    PREFIX + (Text(r.id) + [BAR] + (r.name + [BAR] + (TypeName(r.kind) + [BAR] + PrivacyName(r.privacy)))) + ")"
  }

  /** The texts between the first three bars; a fourth bar belongs to the last text. */
  function Parts(s: string): (r: Option<(string, string, string, string)>)
  {
    var body :- Body(s, PREFIX);
    var (id, r1) :- Cut(body);
    var (name, r2) :- Cut(r1);
    var (kind, privacy) :- Cut(r2);
    Some((id, name, kind, privacy))
  }

  /** Room::deserialize: None where it throws. */
  function Deserialize(s: string): (r: Option<Room>)
  {
    var (id, name, kind, privacy) :- Parts(s);
    var n :- Stoi(id);
    Some(Room(n, name, TypeNamed(kind), PrivacyNamed(privacy)))
  }

  /** What is read as a room: number, name and type end at the first three bars, and the number must be one. */
  lemma ReadRoomIff(s: string, r: Room)
    ensures Deserialize(s) == Some(r) <==>
            exists id, kind, privacy ::
              && s == RoomText(id, r.name, kind, privacy) && '|' !in id && '|' !in r.name && '|' !in kind
              && Stoi(id) == Some(r.id) && TypeNamed(kind) == r.kind && PrivacyNamed(privacy) == r.privacy
  {
    hide Body, Cut, Stoi, TypeNamed, PrivacyNamed;
    if Deserialize(s) == Some(r) {
      var (id, name, kind, privacy) := Parts(s).value;
      PartsIff(s, id, name, kind, privacy);
    }
    forall id, kind, privacy |
      && s == RoomText(id, r.name, kind, privacy) && '|' !in id && '|' !in r.name && '|' !in kind
      && Stoi(id) == Some(r.id) && TypeNamed(kind) == r.kind && PrivacyNamed(privacy) == r.privacy
      ensures Deserialize(s) == Some(r)
    {
      PartsIff(s, id, r.name, kind, privacy);
    }
  }

  function RoomText(id: string, name: string, kind: string, privacy: string): (s: string)
  {
    "room(" + id + "|" + name + "|" + kind + "|" + privacy + ")"
  }

  lemma PartsIff(s: string, id: string, name: string, kind: string, privacy: string)
    ensures Parts(s) == Some((id, name, kind, privacy)) <==>
            s == RoomText(id, name, kind, privacy) && BAR !in id && BAR !in name && BAR !in kind
  {
    hide Body, Cut;
    var r2 := kind + [BAR] + privacy;
    var r1 := name + [BAR] + r2;
    var body := id + [BAR] + r1;
    assert RoomText(id, name, kind, privacy) == PREFIX + body + ")";
    BodyIff(s, PREFIX, body);
    if BAR !in id && BAR !in name && BAR !in kind {
      CutAt(id, r1);
      CutAt(name, r2);
      CutAt(kind, privacy);
    }
  }

  /** Whatever it is read from, a name has no bar, and no character the text does not have. */
  lemma PartsClean(s: string)
    requires Parts(s).Some?
    ensures BAR !in Parts(s).value.1
    ensures SEMI !in s ==> SEMI !in Parts(s).value.1
  {
    hide Body, Cut;
    var body := Body(s, PREFIX).value;
    if SEMI !in s { BodyMembers(s, PREFIX, SEMI); }
    var (id, r1) := Cut(body).value;
    var (name, r2) := Cut(r1).value;
    assert forall c :: c in name ==> c in r1;
    assert forall c :: c in r1 ==> c in body;
  }

  lemma PartsOf(r: Room)
    requires BAR !in r.name
    ensures Parts(Serialize(r)) == Some((Text(r.id), r.name, TypeName(r.kind), PrivacyName(r.privacy)))
  {
    hide Body, Cut, Text, TypeName, PrivacyName;
    var r2 := TypeName(r.kind) + [BAR] + PrivacyName(r.privacy);
    var r1 := r.name + [BAR] + r2;
    BodyOf(PREFIX, Text(r.id) + [BAR] + r1);
    CutAt(Text(r.id), r1);
    CutAt(r.name, r2);
    CutAt(TypeName(r.kind), PrivacyName(r.privacy));
  }

  /** A room survives the trip exactly when its name has no bar. */
  lemma RoomRoundTripIff(r: Room)
    ensures Deserialize(Serialize(r)) == Some(r) <==> BAR !in r.name
  {
    hide Parts, Serialize, Stoi, Text, TypeName, TypeNamed, PrivacyName, PrivacyNamed;
    if BAR !in r.name {
      PartsOf(r);
      StoiText(r.id);
      NamesReadBack(r.kind, r.privacy);
    }
    if Parts(Serialize(r)).Some? {
      PartsClean(Serialize(r));
    }
  }

  lemma SerializeClean(r: Room)
    requires SEMI !in r.name
    ensures SEMI !in Serialize(r) && Serialize(r) != ""
  {
    hide Text, TypeName, PrivacyName;
    assert SEMI !in Text(r.id);
    assert SEMI !in PREFIX && SEMI !in ")";
  }

  // ---------------------------------------------------------------- lists

  ghost predicate CleanNames(rooms: seq<Room>)
  {
    forall r :: r in rooms ==> BAR !in r.name && SEMI !in r.name
  }

  /** A room list survives the trip exactly when no name has a bar or a semicolon. */
  lemma ListRoundTripIff(rooms: seq<Room>)
    ensures ReadList(WriteList(rooms, Serialize), Deserialize) == rooms <==> CleanNames(rooms)
  {
    hide ReadList, WriteList, Serialize, Deserialize;
    var text := WriteList(rooms, Serialize);
    if CleanNames(rooms) {
      forall r | r in rooms
        ensures Deserialize(Serialize(r)) == Some(r) && Serialize(r) != "" && SEMI !in Serialize(r) {
        RoomRoundTripIff(r);
        SerializeClean(r);
      }
      ReadWritten(rooms, Serialize, Deserialize);
    }
    forall r | r in ReadList(text, Deserialize) ensures BAR !in r.name && SEMI !in r.name {
      ReadFrom(text, Deserialize, r);
      var p :| p != "" && SEMI !in p && Deserialize(p) == Some(r);
      RoomNameClean(p);
    }
  }

  lemma RoomNameClean(p: string)
    requires Deserialize(p).Some? && SEMI !in p
    ensures BAR !in Deserialize(p).value.name && SEMI !in Deserialize(p).value.name
  {
    hide Parts, Stoi, TypeNamed, PrivacyNamed;
    PartsClean(p);
  }

  /** serializeList. */
  method SerializeList(rooms: seq<Room>) returns (out: string)
    ensures out == WriteList(rooms, Serialize)
    ensures ReadList(out, Deserialize) == rooms <==> CleanNames(rooms)
  {
    hide WriteList, Serialize, ReadList, Deserialize;
    out := "";
    var i := 0;
    assert rooms[..0] == [] && WriteList([], Serialize) == "" by { WriteNone(Serialize); }
    while i < |rooms|
      invariant 0 <= i <= |rooms|
      invariant out == WriteList(rooms[..i], Serialize)
    {
      WriteSnoc(rooms, i, Serialize);
      if i > 0 {
        out := out + [SEMI];
      }
      out := out + Serialize(rooms[i]);
      i := i + 1;
    }
    assert rooms[..i] == rooms;
    ListRoundTripIff(rooms);
  }

  /** deserializeList: exactly the rooms of the readable pieces, in order. */
  method DeserializeList(text: string) returns (rooms: seq<Room>)
    ensures rooms == ReadList(text, Deserialize)
  {
    hide ReadList, Deserialize, Find;
    rooms := [];
    if text == "" {
      ReadOne("", Deserialize);
      return;
    }
    var start := 0;
    assert text[0..] == text;
    while start <= |text|
      invariant 0 <= start <= |text|
      invariant ReadList(text, Deserialize) == rooms + ReadList(text[start..], Deserialize)
      decreases |text| - start
    {
      ReadStep(text, start, Deserialize);
      var len := Find(text[start..], SEMI);
      var piece := text[start..start + len];
      if piece != "" {
        var room := Deserialize(piece);
        if room.Some? {
          rooms := rooms + [room.value];
        }
      }
      if start + len == |text| {
        return;
      }
      start := start + len + 1;
    }
  }

  // ---------------------------------------------------------------- the browser

  datatype JsRoom = JsRoom(id: int, name: string, kind: string, privacy: string)

  /** parseRoom, with Number() restricted to integers as a parameter. */
  function ParseRoom(s: string, number: string -> Option<int>): (r: Option<JsRoom>)
  {
    var (id, name, kind, privacy) :- Parts(s);
    var n :- number(id);
    Some(JsRoom(n, name, kind, privacy))
  }

  function RoomParser(number: string -> Option<int>): (one: string -> Option<JsRoom>)
  {
    s => ParseRoom(s, number)
  }

  function JsOf(r: Room): (j: JsRoom)
  {
    JsRoom(r.id, r.name, TypeName(r.kind), PrivacyName(r.privacy))
  }

  /** On a list the server wrote with clean names, the browser reads the rooms the client reads. */
  lemma BrowserReadsList(rooms: seq<Room>, number: string -> Option<int>)
    requires forall r :: r in rooms ==> number(Text(r.id)) == Some(r.id)
    ensures var jsRooms := ReadList(WriteList(rooms, Serialize), RoomParser(number));
            jsRooms == Described(rooms) <==> CleanNames(rooms)
  {
    hide ReadAll, Printed, Serialize, Parts, JsOf, Pieces;
    var one := RoomParser(number);
    var text := WriteList(rooms, Serialize);
    if CleanNames(rooms) {
      BrowserReads(rooms, number);
      PiecesJoinClean(Printed(rooms, Serialize), SEMI);
    }
    forall j: JsRoom | j in ReadList(text, one) ensures BAR !in j.name && SEMI !in j.name {
      ReadFrom(text, one, j);
      var p :| p != "" && SEMI !in p && one(p) == Some(j);
      PartsClean(p);
    }
    DescribedNames(rooms);
  }

  function Described(rooms: seq<Room>): (r: seq<JsRoom>)
  {
    if rooms == [] then [] else [JsOf(rooms[0])] + Described(rooms[1..])
  }

  lemma {:induction false} DescribedNames(rooms: seq<Room>)
    ensures forall r :: r in rooms ==> JsOf(r) in Described(rooms) && JsOf(r).name == r.name
  {
    if rooms != [] {
      DescribedNames(rooms[1..]);
      assert rooms == [rooms[0]] + rooms[1..];
    }
  }

  lemma {:induction false} BrowserReads(rooms: seq<Room>, number: string -> Option<int>)
    requires CleanNames(rooms) && forall r :: r in rooms ==> number(Text(r.id)) == Some(r.id)
    ensures ReadAll(Printed(rooms, Serialize), RoomParser(number)) == Described(rooms)
    ensures forall p :: p in Printed(rooms, Serialize) ==> p != "" && SEMI !in p
  {
    hide Serialize, Parts, Text;
    if rooms != [] {
      assert rooms == [rooms[0]] + rooms[1..];
      assert rooms[0] in rooms;
      PartsOf(rooms[0]);
      SerializeClean(rooms[0]);
      BrowserReads(rooms[1..], number);
      var ps := Printed(rooms, Serialize);
      assert ps[1..] == Printed(rooms[1..], Serialize) && ps[0] == Serialize(rooms[0]);
      assert ps == [ps[0]] + ps[1..];
    }
  }

  /** parseRoomList: exactly the rooms of the readable pieces, in order. */
  method ParseRoomList(text: string, number: string -> Option<int>) returns (rooms: seq<JsRoom>)
    ensures rooms == ReadList(text, RoomParser(number))
  {
    hide Split, NonEmpty, ReadAll, Parts;
    rooms := [];
    if text == "" {
      ReadOne("", RoomParser(number));
      return;
    }
    var pieces := Split(text, SEMI);
    var i := 0;
    assert pieces[0..] == pieces;
    while i < |pieces|
      invariant 0 <= i <= |pieces|
      invariant ReadAll(NonEmpty(pieces), RoomParser(number))
                == rooms + ReadAll(NonEmpty(pieces[i..]), RoomParser(number))
    {
      PieceStep(pieces, i, RoomParser(number));
      if pieces[i] != "" {
        var room := ParseRoom(pieces[i], number);
        if room.Some? {
          rooms := rooms + [room.value];
        }
      }
      i := i + 1;
    }
    assert pieces[i..] == [];
    assert ReadAll(NonEmpty<char>([]), RoomParser(number)) == [] by { PieceEnd(RoomParser(number)); }
  }
}
