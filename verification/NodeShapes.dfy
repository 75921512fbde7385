/** What each packet and each event does to a well-formed node, in closed form. */
module NodeShapes {
  import opened ChatNode
  import opened RoomIndex

  ghost predicate IdsOk(n: Node)
  {
    && 3 <= n.db.nextRoom && "" !in n.known
    && (forall id :: id in n.db.rooms ==> id < n.db.nextRoom)
    && (forall name :: name in n.known ==> RoomRow(n, n.known[name]))
  }

  predicate RoomRow(n: Node, room: Room)
  {
    1 <= room.id && room.id in n.db.rooms && n.db.rooms[room.id] == room.name
  }

  ghost predicate UsersOk(users: map<string, User>)
  {
    && "" !in users
    && (forall u :: u in users ==> users[u].name == u)
    && (forall u, v :: u in users && v in users && users[u].email == users[v].email ==> u == v)
  }

  predicate Registered(n: Node, s: Session)
  {
    s.auth ==> s.user.name in n.db.users && n.db.users[s.user.name] == s.user
  }

  ghost predicate Logins(n: Node)
  {
    forall k :: k in n.sessions ==> Registered(n, n.sessions[k])
  }

  predicate SameLogin(s: Session, t: Session) { s.auth && t.auth && s.user.email == t.user.email }

  ghost predicate Single(sessions: map<Socket, Session>)
  {
    forall j, k :: j in sessions && k in sessions && SameLogin(sessions[j], sessions[k]) ==> j == k
  }

  /** The index is sound, room and user rows are consistent, logged-in sessions belong to registered users
      and no two of them to the same user. */
  ghost predicate Core(n: Node)
  {
    && Index(n) && Seated(n, {}) && IdsOk(n) && UsersOk(n.db.users) && Logins(n) && Single(n.sessions)
    && n.self != ""
  }

  // ---------------------------------------------------------------- joining

  /** The rows of u after moving from one room to another. */
  function Rejoin(m: Rows, u: string, from: int, to: int, node: string): (r: Rows)
  {
    SetRow(if from == to then m else ClearRow(m, u, from), u, to, node)
  }

  lemma RejoinTwice(m: Rows, u: string, from: int, to: int, node: string)
    ensures Rejoin(Rejoin(m, u, from, to, node), u, from, to, node) == Rejoin(m, u, from, to, node)
  {}

  /** Distinct known rooms have distinct ids. */
  lemma IdsDiffer(n: Node, a: string, b: string)
    requires IdsOk(n) && KnownOk(n.known) && a in n.known && b in n.known
    ensures n.known[a].id == n.known[b].id <==> a == b
  {
    assert RoomRow(n, n.known[a]) && RoomRow(n, n.known[b]);
  }

  /** What a successful join leaves behind. */
  function Joined(n: Node, k: Socket, name: string): (r: Node)
    requires k in n.sessions && name in n.known
  {
    var s := n.sessions[k];
    var moved := Move(n, k, name, n.known[name]);
    if s.auth then WithRows(moved, Rejoin(n.db.membership, s.user.name, s.room.id, n.known[name].id, n.self)) else moved
  }

  lemma JoinSucceeds(n: Node, k: Socket, roomName: string)
    requires k in n.sessions && NameOr(roomName, LOBBY.name) in n.known
    requires n.sessions[k].auth ==> CanSetRow(n.db, n.sessions[k].user.name, n.known[NameOr(roomName, LOBBY.name)].id)
    ensures JoinRoom(n, k, roomName, NoFault) == (Joined(n, k, NameOr(roomName, LOBBY.name)), true)
  {
    hide Move, SetRoom, Seat, Unseat;
  }

  /** The ROOM_JOIN event a node rumors after a join writes what the join already wrote. */
  lemma JoinEventRepeats(n: Node, u: string, prev: Room, name: string, m: Rows)
    requires IdsOk(n) && KnownOk(n.known) && name in n.known && u != "" && n.self != "" && u in n.db.users
    requires prev.name in n.known && n.known[prev.name] == prev
    requires n.db.membership == Rejoin(m, u, prev.id, n.known[name].id, n.self)
    ensures ApplyRoomJoin(n, u, n.self, prev.name, name) == n
  {
    IdsDiffer(n, prev.name, name);
    RejoinTwice(m, u, prev.id, n.known[name].id, n.self);
  }

  // ---------------------------------------------------------------- core facts of the building blocks

  /** Tables that carry neither rooms nor users do not matter to the core. */
  lemma TablesCore(n: Node, r: Node)
    requires Core(n)
    requires r.self == n.self && r.sessions == n.sessions && r.known == n.known && r.members == n.members
    requires r.db.users == n.db.users && r.db.rooms == n.db.rooms && r.db.nextRoom == n.db.nextRoom
    ensures Core(r)
  {}

  /** A ROOM_JOIN event writes membership rows and nothing else. */
  lemma JoinEventFrame(n: Node, u: string, node: string, prev: string, room: string)
    ensures var r := ApplyRoomJoin(n, u, node, prev, room); r == n.(db := n.db.(membership := r.db.membership))
  {
    hide ClearRow, SetRow;
    var name := NameOr(room, LOBBY.name);
    if u != "" && node != "" && name in n.known {
      var cleared := if prev != "" && prev != name && prev in n.known
                     then ClearRow(n.db.membership, u, n.known[prev].id) else n.db.membership;
      assert ApplyRoomJoin(n, u, node, prev, room)
          == WithRows(n, if u in n.db.users then SetRow(cleared, u, n.known[name].id, node) else cleared);
      hide ApplyRoomJoin;
    }
  }

  lemma SetUserCore(n: Node, k: Socket, u: User, auth: bool)
    requires Core(n) && k in n.sessions
    requires auth ==> u.name in n.db.users && n.db.users[u.name] == u && !HasSession(n, u)
    ensures Core(SetUser(n, k, u, auth))
  {
    hide Sits, InKnownRoom, RoomRow;
    var r := SetUser(n, k, u, auth);
    assert Index(r) && Seated(r, {}) && IdsOk(r) by {
      assert RoomsKnown(r) by {
        forall j | j in r.sessions ensures InKnownRoom(r, r.sessions[j]) {
          assert InKnownRoom(n, n.sessions[j]);
          SameRoomKnown(n, r, n.sessions[j], r.sessions[j]);
        }
      }
      assert forall name :: name in n.known ==> RoomRow(n, n.known[name]) ==> RoomRow(r, r.known[name]) by {
        forall name | name in n.known ensures RoomRow(n, n.known[name]) ==> RoomRow(r, r.known[name]) {
          SameRow(n, r, n.known[name]);
        }
      }
    }
  }

  lemma SameRoomKnown(n: Node, r: Node, s: Session, t: Session)
    requires r.known == n.known && s.room == t.room
    ensures InKnownRoom(n, s) <==> InKnownRoom(r, t)
  {}

  lemma SameRow(n: Node, r: Node, room: Room)
    requires r.db.rooms == n.db.rooms
    ensures RoomRow(n, room) <==> RoomRow(r, room)
  {}

  lemma MoveCore(n: Node, k: Socket, name: string)
    requires Core(n) && k in n.sessions && name in n.known
    ensures Core(Move(n, k, name, n.known[name]))
  {
    hide Index, Seated, Move;
    MoveIndex(n, k, name, {});
    MoveFrame(n, k, name, n.known[name]);
    assert {} - {k} == {};
  }

  lemma JoinedCore(n: Node, k: Socket, name: string)
    requires Core(n) && k in n.sessions && name in n.known
    ensures Core(Joined(n, k, name))
  {
    hide Core, Move;
    MoveCore(n, k, name);
    TablesCore(Move(n, k, name, n.known[name]), Joined(n, k, name));
  }

  lemma UserAddedCore(n: Node, u: User)
    requires Core(n) && CanCreateUser(n.db, u) && u.name != ""
    ensures Core(n.(db := n.db.(users := n.db.users[u.name := u])))
    ensures !HasSession(n, u)
  {
    hide Index, Seated;
    var r := n.(db := n.db.(users := n.db.users[u.name := u]));
    assert Index(r) && Seated(r, {}) by { TablesIndex(n, r); }
    forall k | k in n.sessions ensures Registered(r, r.sessions[k]) {
      assert Registered(n, n.sessions[k]);
    }
    forall name | name in r.known ensures RoomRow(r, r.known[name]) { assert RoomRow(n, n.known[name]); }
  }

  lemma TablesIndex(n: Node, r: Node)
    requires Index(n) && r.sessions == n.sessions && r.known == n.known && r.members == n.members
    ensures Index(r) && (Seated(n, {}) ==> Seated(r, {}))
  {}

  lemma MoveFrame(n: Node, k: Socket, name: string, room: Room)
    requires k in n.sessions
    ensures var r := Move(n, k, name, room);
            && r.self == n.self && r.known == n.known && r.db == n.db && r.pushed == n.pushed && r.dropped == n.dropped
            && r.sessions == n.sessions[k := n.sessions[k].(room := room)]
  {
    hide Seat, Unseat;
  }

  lemma OpenIs(n: Node, k: Socket, guest: User)
    requires Index(n) && k !in n.sessions
    ensures Open(n, k, guest) == Move(Opened(n, k, guest), k, LOBBY.name, LOBBY)
  {
    hide Sits, Move;
    assert Index(Opened(n, k, guest));
    JoinsLobby(Opened(n, k, guest), k);
    hide JoinRoom;
  }

  lemma OpenCore(n: Node, k: Socket, guest: User)
    requires Core(n) && k !in n.sessions
    ensures Core(Open(n, k, guest))
  {
    hide Index, Seated, Move, Open;
    OpenIndex(n, k, guest);
    OpenIs(n, k, guest);
    MoveFrame(Opened(n, k, guest), k, LOBBY.name, LOBBY);
  }

  lemma RemoveFrame(n: Node, k: Socket)
    ensures var r := Remove(n, k);
            && r.self == n.self && r.known == n.known && r.sessions == n.sessions - {k}
            && r.db.users == n.db.users && r.db.rooms == n.db.rooms && r.db.nextRoom == n.db.nextRoom
  {
    hide Unseat, ClearRows;
  }

  lemma RemoveCore(n: Node, k: Socket)
    requires Core(n)
    ensures Core(Remove(n, k))
  {
    hide Index, Seated, Remove;
    RemoveIndex(n, k);
    RemoveFrame(n, k);
  }

  lemma CreateFrame(n: Node, name: string, private: bool, email: string)
    ensures var (r, made) := CreateRoom(n, name, private, email, true);
            && r.self == n.self && r.sessions == n.sessions && r.members == n.members
            && r.db.users == n.db.users && r.db.online == n.db.online && r.db.membership == n.db.membership
            && (made ==> name !in n.known && r.known == n.known[name := Room(n.db.nextRoom, name, private)])
            && (made ==> r.db.rooms == n.db.rooms[n.db.nextRoom := name] && r.db.nextRoom == n.db.nextRoom + 1)
            && (!made ==> r == n)
  {}

  lemma CreateCore(n: Node, name: string, private: bool, email: string)
    requires Core(n) && name != ""
    ensures Core(CreateRoom(n, name, private, email, true).0)
  {
    hide Index, Seated, CreateRoom;
    CreateIndex(n, name, private, email, true);
    CreateFrame(n, name, private, email);
    var (r, made) := CreateRoom(n, name, private, email, true);
    if made {
      forall x | x in r.known ensures RoomRow(r, r.known[x]) {
        if x in n.known { assert RoomRow(n, n.known[x]); }
      }
    }
  }

  /** Nothing but a missing or seed room stops a deletion when the database works. */
  lemma DeleteSucceeds(n: Node, name: string)
    requires Core(n) && Deletable(n, name)
    ensures DeleteRoom(n, name, true).1
  {
    hide ForgetRoom, DropRoom, UsersOf, Index, Seated;
    assert KnownOk(n.known) by { CoreKnown(n); }
    assert RoomRow(n, n.known[name]) && RoomRow(n, n.known[LOBBY.name]) && RoomRow(n, n.known[GENERAL.name]);
    IdsDiffer(n, name, LOBBY.name);
    IdsDiffer(n, name, GENERAL.name);
  }

  lemma CoreKnown(n: Node)
    requires Core(n)
    ensures KnownOk(n.known)
  {}

  lemma DeleteFrame(n: Node, name: string)
    requires DeleteRoom(n, name, true).1
    ensures var r := DeleteRoom(n, name, true).0;
            && r.self == n.self && r.db.users == n.db.users && r.db.nextRoom == n.db.nextRoom
            && r.db.online == n.db.online
            && name in n.known && r.db.rooms == n.db.rooms - {n.known[name].id}
  {
    hide UsersOf;
  }

  lemma DeleteCore(n: Node, name: string)
    requires Core(n) && Deletable(n, name)
    ensures Core(DeleteRoom(n, name, true).0)
  {
    hide DeleteRoom, Index, Seated, ForgetRoom, Sitting;
    DeleteSucceeds(n, name);
    DeletedShape(n, name, true);
    DeleteIndex(n, name, true);
    DeleteFrame(n, name);
    CoreKnown(n);
    var r := DeleteRoom(n, name, true).0;
    forall x | x in r.known ensures RoomRow(r, r.known[x]) {
      assert RoomRow(n, n.known[x]);
      IdsDiffer(n, x, name);
    }
    forall k | k in r.sessions ensures Registered(r, r.sessions[k]) { assert Registered(n, n.sessions[k]); }
    forall j, k | j in r.sessions && k in r.sessions && SameLogin(r.sessions[j], r.sessions[k]) ensures j == k {
      assert SameLogin(n.sessions[j], n.sessions[k]);
    }
  }

  /** By the email of a user or by its name, at most one session is found. */
  lemma OneLogin(n: Node, j: Socket, k: Socket)
    requires Core(n) && j in n.sessions && k in n.sessions && n.sessions[j].auth && n.sessions[k].auth
    ensures n.sessions[j].user.name == n.sessions[k].user.name <==> j == k
    ensures n.sessions[j].user.name != ""
  {
    hide Index, Seated;
    assert Registered(n, n.sessions[j]) && Registered(n, n.sessions[k]);
    if n.sessions[j].user.name == n.sessions[k].user.name { assert SameLogin(n.sessions[j], n.sessions[k]); }
  }

  lemma NoSession(n: Node, name: string)
    requires Core(n) && name in n.db.users
    ensures HasSession(n, n.db.users[name]) <==> LoggedInAs(n, name) != {}
  {
    hide Index, Seated;
    var u := n.db.users[name];
    if HasSession(n, u) {
      var k :| k in n.sessions && n.sessions[k].auth && n.sessions[k].user.email == u.email;
      assert Registered(n, n.sessions[k]);
      assert k in LoggedInAs(n, name);
    }
    if LoggedInAs(n, name) != {} {
      var k :| k in LoggedInAs(n, name);
      assert Registered(n, n.sessions[k]);
    }
  }
}
