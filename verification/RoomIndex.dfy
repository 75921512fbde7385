/** The room index: which sockets sit in which room, over every interleaving of opening, joining (with
    rollback), leaving, creating, deleting and removing. */
module RoomIndex {
  import opened ChatNode

  predicate Sits(members: map<string, set<Socket>>, k: Socket, name: string)
  {
    name in members && k in members[name]
  }

  ghost predicate KnownOk(known: map<string, Room>)
  {
    && (forall name :: name in known ==> known[name].name == name)
    && LOBBY.name in known && known[LOBBY.name] == LOBBY
    && GENERAL.name in known && known[GENERAL.name] == GENERAL
  }

  ghost predicate NoEmptyRoom(n: Node)
  {
    forall name :: name in n.members ==> name in n.known && n.members[name] != {}
  }

  ghost predicate OwnRoom(n: Node)
  {
    forall k, name :: Sits(n.members, k, name) ==> k in n.sessions && n.sessions[k].room.name == name
  }

  ghost predicate RoomsKnown(n: Node)
  {
    forall k :: k in n.sessions ==> InKnownRoom(n, n.sessions[k])
  }

  predicate InKnownRoom(n: Node, s: Session)
  {
    s.room.name in n.known && n.known[s.room.name] == s.room
  }

  ghost predicate AtHome(n: Node)
  {
    forall k :: k in n.sessions && n.sessions[k].room != LOBBY ==> Sits(n.members, k, n.sessions[k].room.name)
  }

  /** Every member set is nonempty and belongs to a known room, each socket sits only in the room of its
      session, every session's room is a known room, and a session outside the Lobby sits in its room. */
  ghost predicate Index(n: Node)
  {
    KnownOk(n.known) && NoEmptyRoom(n) && OwnRoom(n) && RoomsKnown(n) && AtHome(n)
  }

  /** Every session's socket, except perhaps those in but, sits in the room of its session. */
  ghost predicate Seated(n: Node, but: set<Socket>)
  {
    forall k :: k in n.sessions && k !in but ==> Sits(n.members, k, n.sessions[k].room.name)
  }

  // ---------------------------------------------------------------- one socket

  lemma UnseatSits(members: map<string, set<Socket>>, k: Socket, name: string)
    ensures forall j, x :: Sits(Unseat(members, k, name), j, x) <==> Sits(members, j, x) && !(j == k && x == name)
    ensures forall x :: x in Unseat(members, k, name) ==> x in members
    ensures (forall x :: x in members ==> members[x] != {}) ==>
            forall x :: x in Unseat(members, k, name) ==> Unseat(members, k, name)[x] != {}
  {
    var r := Unseat(members, k, name);
    forall j, x ensures Sits(r, j, x) <==> Sits(members, j, x) && !(j == k && x == name) {
      if x == name && Sits(members, j, x) && j != k { assert j in members[name] - {k}; }
    }
  }

  lemma SeatSits(members: map<string, set<Socket>>, k: Socket, name: string)
    ensures forall j, x :: Sits(Seat(members, k, name), j, x) <==> Sits(members, j, x) || (j == k && x == name)
    ensures forall x :: x in Seat(members, k, name) ==> x in members || x == name
    ensures (forall x :: x in members ==> members[x] != {}) ==>
            forall x :: x in Seat(members, k, name) ==> Seat(members, k, name)[x] != {}
  {
    assert k in Seat(members, k, name)[name];
  }

  lemma MoveSits(n: Node, k: Socket, name: string, room: Room)
    requires k in n.sessions && OwnRoom(n) && NoEmptyRoom(n) && name in n.known
    ensures var r := Move(n, k, name, room);
            && NoEmptyRoom(r)
            && forall j, x :: Sits(r.members, j, x) <==> if j == k then x == name else Sits(n.members, j, x)
  {
    var prev := n.sessions[k].room.name;
    UnseatSits(n.members, k, prev);
    SeatSits(Unseat(n.members, k, prev), k, name);
    hide Unseat, Seat;
  }

  lemma MoveIndex(n: Node, k: Socket, name: string, but: set<Socket>)
    requires Index(n) && k in n.sessions && name in n.known
    ensures Index(Move(n, k, name, n.known[name]))
    ensures Seated(n, but) ==> Seated(Move(n, k, name, n.known[name]), but - {k})
  {
    MoveSits(n, k, name, n.known[name]);
    hide Unseat, Seat, Sits;
  }

  /** Joining keeps the index in every outcome: unknown room, success, and rollback of a failed write. */
  lemma JoinIndex(n: Node, k: Socket, roomName: string, fault: Fault, but: set<Socket>)
    requires Index(n) && k in n.sessions
    ensures Index(JoinRoom(n, k, roomName, fault).0)
    ensures Seated(n, but) ==> Seated(JoinRoom(n, k, roomName, fault).0, but)
    ensures JoinRoom(n, k, roomName, fault).1 && Seated(n, but) ==> Seated(JoinRoom(n, k, roomName, fault).0, but - {k})
  {
    var name := NameOr(roomName, LOBBY.name);
    if name in n.known {
      hide Move, Sits;
      MoveIndex(n, k, name, but);
      var moved := Move(n, k, name, n.known[name]);
      var back := n.sessions[k].room.name;
      assert InKnownRoom(n, n.sessions[k]);
      assert moved.sessions[k].room.name == name && moved.known == n.known && k in moved.sessions by {
        MovedRoom(n, k, name);
      }
      MoveIndex(moved, k, back, but - {k});
      JoinOutcomes(n, k, roomName, fault);
      var r := JoinRoom(n, k, roomName, fault);
      hide JoinRoom, Index, Seated;
      RowsIndex(moved, r.0.db.membership);
      RowsIndex(Move(moved, k, back, n.known[back]), r.0.db.membership);
      SeatedLess(moved, but - {k}, but);
      SeatedLess(Move(moved, k, back, n.known[back]), but - {k} - {k}, but);
    }
  }

  lemma SeatedLess(n: Node, a: set<Socket>, b: set<Socket>)
    requires a <= b
    ensures Seated(n, a) ==> Seated(n, b)
  {}

  lemma MovedRoom(n: Node, k: Socket, name: string)
    requires k in n.sessions && name in n.known && n.known[name].name == name
    ensures var m := Move(n, k, name, n.known[name]);
            k in m.sessions && m.sessions[k].room.name == name && m.known == n.known
  {}

  /** A join ends in the new room, or back in the old one, with some membership rows. */
  lemma JoinOutcomes(n: Node, k: Socket, roomName: string, fault: Fault)
    requires k in n.sessions && NameOr(roomName, LOBBY.name) in n.known && InKnownRoom(n, n.sessions[k])
    requires KnownOk(n.known)
    ensures var name, back := NameOr(roomName, LOBBY.name), n.sessions[k].room.name;
            var moved, r := Move(n, k, name, n.known[name]), JoinRoom(n, k, roomName, fault);
            && k in moved.sessions
            && (r.1 ==> r.0 == WithRows(moved, r.0.db.membership))
            && (!r.1 ==> r.0 == WithRows(Move(moved, k, back, n.known[back]), r.0.db.membership))
  {
    hide Seat, Unseat;
  }

  /** The tables other than rooms play no part in the index. */
  lemma RowsIndex(n: Node, m: Rows)
    ensures Index(WithRows(n, m)) <==> Index(n)
    ensures forall but :: Seated(WithRows(n, m), but) <==> Seated(n, but)
  {}

  lemma LeaveIndex(n: Node, k: Socket, ok: bool, but: set<Socket>)
    requires Index(n) && k in n.sessions
    ensures Index(LeaveAll(n, k, ok))
    ensures Seated(n, but) ==> Seated(LeaveAll(n, k, ok), but + {k})
  {
    UnseatSits(n.members, k, n.sessions[k].room.name);
    hide Unseat, Sits;
  }

  lemma OpenIndex(n: Node, k: Socket, guest: User)
    requires Index(n) && k !in n.sessions
    ensures Index(Open(n, k, guest))
    ensures Seated(n, {}) ==> Seated(Open(n, k, guest), {})
  {
    var r := Opened(n, k, guest);
    assert Index(r) && (Seated(n, {}) ==> Seated(r, {k}));
    JoinIndex(r, k, LOBBY.name, NoFault, {k});
    hide JoinRoom, Index, Seated;
    assert {k} - {k} == {};
    assert JoinRoom(r, k, LOBBY.name, NoFault).1 by { JoinsLobby(r, k); }
  }

  /** The Lobby can always be joined by a guest. */
  lemma JoinsLobby(n: Node, k: Socket)
    requires Index(n) && k in n.sessions && !n.sessions[k].auth
    ensures JoinRoom(n, k, LOBBY.name, NoFault) == (Move(n, k, LOBBY.name, LOBBY), true)
  {}

  lemma RemoveIndex(n: Node, k: Socket)
    requires Index(n)
    ensures Index(Remove(n, k))
    ensures Seated(n, {}) ==> Seated(Remove(n, k), {})
  {
    if k in n.sessions {
      UnseatSits(n.members, k, n.sessions[k].room.name);
      hide Unseat, Sits, ClearRows;
      var out := n.(sessions := n.sessions - {k}, members := Unseat(n.members, k, n.sessions[k].room.name));
      assert Index(out);
    }
  }

  lemma CreateIndex(n: Node, name: string, private: bool, email: string, ok: bool)
    requires Index(n)
    ensures Index(CreateRoom(n, name, private, email, ok).0)
    ensures Seated(n, {}) ==> Seated(CreateRoom(n, name, private, email, ok).0, {})
  {
    hide CreateRoom, Sits;
    CreateShape(n, name, private, email, ok);
  }

  lemma CreateShape(n: Node, name: string, private: bool, email: string, ok: bool)
    ensures var (r, made) := CreateRoom(n, name, private, email, ok);
            && r.sessions == n.sessions && r.members == n.members
            && r.known == if made then n.known[name := Room(n.db.nextRoom, name, private)] else n.known
    ensures CreateRoom(n, name, private, email, ok).1 ==> name !in n.known
  {}

  // ---------------------------------------------------------------- deleting a room

  lemma ForgetSits(n: Node, name: string)
    requires OwnRoom(n) && NoEmptyRoom(n) && KnownOk(n.known) && Deletable(n, name)
    ensures var r := ForgetRoom(n, name);
            && NoEmptyRoom(r)
            && forall j, x :: Sits(r.members, j, x) <==>
                 if j in Sitting(n, name) then x == LOBBY.name else Sits(n.members, j, x)
  {
    var r := ForgetRoom(n, name);
    var moved := Sitting(n, name);
    forall j, x ensures Sits(r.members, j, x) <==> if j in moved then x == LOBBY.name else Sits(n.members, j, x) {
      if j in moved { assert Sits(n.members, j, name); }
      if Sits(n.members, j, x) && j in moved { assert x == name; }
      if Sits(n.members, j, name) { assert j in moved; }
    }
  }

  lemma DeletedShape(n: Node, name: string, ok: bool)
    requires DeleteRoom(n, name, ok).1
    ensures var r := DeleteRoom(n, name, ok).0;
            && Deletable(n, name)
            && r.members == ForgetRoom(n, name).members
            && r.known == ForgetRoom(n, name).known == n.known - {name}
            && r.sessions.Keys == n.sessions.Keys
            && forall k :: k in n.sessions ==>
                 r.sessions[k] == if k in Sitting(n, name) then n.sessions[k].(room := LOBBY) else n.sessions[k]
  {}

  lemma SittingSits(n: Node, name: string)
    ensures forall k :: k in Sitting(n, name) <==> Sits(n.members, k, name)
  {}

  /** A room deletion whose database delete goes through keeps the index. */
  lemma DeleteIndex(n: Node, name: string, ok: bool)
    requires Index(n)
    requires DeleteRoom(n, name, ok).1
    ensures Index(DeleteRoom(n, name, ok).0)
    ensures Seated(n, {}) ==> Seated(DeleteRoom(n, name, ok).0, {})
  {
    hide DeleteRoom, ForgetRoom, Sits, Sitting;
    DeletedShape(n, name, ok);
    ForgetSits(n, name);
    SittingSits(n, name);
    var r := DeleteRoom(n, name, ok).0;
    assert NoEmptyRoom(r);
    forall k | k in r.sessions ensures InKnownRoom(r, r.sessions[k]) {
      assert InKnownRoom(n, n.sessions[k]);
      assert n.sessions[k].room.name == name ==> Sits(n.members, k, name);
    }
    assert RoomsKnown(r);
    hide InKnownRoom, NoEmptyRoom;
    assert OwnRoom(r);
  }

  lemma NotDeleted(n: Node, name: string)
    requires !Deletable(n, name)
    ensures DeleteRoom(n, name, true) == (n, false)
  {}

  /** When the database refuses, the index survives exactly when nobody was in the room. */
  lemma DeleteFaultIff(n: Node, name: string, ok: bool)
    requires Index(n) && Deletable(n, name) && !DeleteRoom(n, name, ok).1
    ensures Index(DeleteRoom(n, name, ok).0) <==> Sitting(n, name) == {}
  {
    var r := DeleteRoom(n, name, ok).0;
    assert r == ForgetRoom(n, name);
    ForgetSits(n, name);
    if Sitting(n, name) != {} {
      var k :| k in Sitting(n, name);
      assert Sits(n.members, k, name);
      assert n.sessions[k].room.name == name;
      assert !InKnownRoom(r, r.sessions[k]);
    } else {
      forall k | k in r.sessions ensures InKnownRoom(r, r.sessions[k]) {
        assert InKnownRoom(n, n.sessions[k]);
        assert n.sessions[k].room.name == name ==> Sits(n.members, k, name);
      }
      assert OwnRoom(r) by {
        forall j, x | Sits(r.members, j, x) ensures j in r.sessions && r.sessions[j].room.name == x {
          assert Sits(n.members, j, x);
        }
      }
    }
  }

  // ---------------------------------------------------------------- runs

  datatype RoomAction =
    | DoOpen(k: Socket, guest: User)
    | DoJoin(k: Socket, room: string, fault: Fault)
    | DoLeaveAll(k: Socket, ok: bool)
    | DoCreate(room: string, private: bool, email: string, ok: bool)
    | DoDelete(room: string)
    | DoRemove(k: Socket)

  predicate CanDo(n: Node, a: RoomAction)
  {
    match a
    case DoOpen(k, _) => k !in n.sessions
    case DoJoin(k, _, _) => k in n.sessions
    case DoLeaveAll(k, _) => k in n.sessions
    case DoDelete(room) => Deletable(n, room) ==> DeleteRoom(n, room, true).1
    case _ => true
  }

  function Do(n: Node, a: RoomAction): (r: Node)
  {
    if !CanDo(n, a) then n else
    match a
    case DoOpen(k, guest) => Open(n, k, guest)
    case DoJoin(k, room, fault) => JoinRoom(n, k, room, fault).0
    case DoLeaveAll(k, ok) => LeaveAll(n, k, ok)
    case DoCreate(room, private, email, ok) => CreateRoom(n, room, private, email, ok).0
    case DoDelete(room) => DeleteRoom(n, room, true).0
    case DoRemove(k) => Remove(n, k)
  }

  function DoAll(n: Node, actions: seq<RoomAction>): (r: Node)
    decreases |actions|
  {
    if actions == [] then n else DoAll(Do(n, actions[0]), actions[1..])
  }

  /** The index holds after every interleaving of the room operations. */
  lemma {:induction false} RunsKeepIndex(n: Node, actions: seq<RoomAction>)
    requires Index(n)
    ensures Index(DoAll(n, actions))
    decreases |actions|
  {
    if actions != [] {
      var a := actions[0];
      assert Index(Do(n, a)) by {
        hide Index, JoinRoom, LeaveAll, CreateRoom, DeleteRoom, Open, Remove;
        if CanDo(n, a) {
          match a
          case DoOpen(k, guest) => OpenIndex(n, k, guest);
          case DoJoin(k, room, fault) => JoinIndex(n, k, room, fault, {});
          case DoLeaveAll(k, ok) => LeaveIndex(n, k, ok, {});
          case DoCreate(room, private, email, ok) => CreateIndex(n, room, private, email, ok);
          case DoDelete(room) => if Deletable(n, room) { DeleteIndex(n, room, true); } else { NotDeleted(n, room); }
          case DoRemove(k) => RemoveIndex(n, k);
        }
      }
      hide Index, Do;
      RunsKeepIndex(Do(n, a), actions[1..]);
    }
  }
}
