/** On a well-formed node every packet and event comes down to a few moves: what the handlers write twice,
    once directly and once through the event they rumor, they write the same way both times. */
module NodePackets {
  import opened ChatNode
  import opened RoomIndex
  import opened NodeShapes

  lemma CoreIndex(n: Node)
    requires Core(n)
    ensures Index(n) && Seated(n, {}) && IdsOk(n) && UsersOk(n.db.users) && n.self != ""
    ensures LOBBY.name in n.known && n.known[LOBBY.name] == LOBBY
  {}

  lemma CoreSession(n: Node, k: Socket)
    requires Core(n) && k in n.sessions
    ensures Registered(n, n.sessions[k]) && InKnownRoom(n, n.sessions[k]) && Sits(n.members, k, n.sessions[k].room.name)
    ensures n.sessions[k].auth ==> n.sessions[k].user.name != ""
    ensures RoomRow(n, n.sessions[k].room)
  {
    assert Registered(n, n.sessions[k]) && InKnownRoom(n, n.sessions[k]);
  }

  lemma CoreRoom(n: Node, name: string)
    requires Core(n) && name in n.known
    ensures n.known[name].name == name && n.known[name].id in n.db.rooms && name != ""
  {
    assert RoomRow(n, n.known[name]);
  }

  /** A join followed by the ROOM_JOIN event it rumors. */
  lemma JoinThenEvent(n: Node, k: Socket, roomName: string)
    requires Core(n) && k in n.sessions && NameOr(roomName, LOBBY.name) in n.known
    ensures var name := NameOr(roomName, LOBBY.name);
            JoinRoom(n, k, roomName, NoFault) == (Joined(n, k, name), true)
    ensures var name, s := NameOr(roomName, LOBBY.name), n.sessions[k];
            s.auth ==> forall r: Node :: SameRooms(r, Joined(n, k, name)) ==>
              ApplyRoomJoin(r, s.user.name, n.self, s.room.name, name) == r
  {
    hide Core, Move;
    var name, s := NameOr(roomName, LOBBY.name), n.sessions[k];
    CoreIndex(n);
    CoreSession(n, k);
    CoreRoom(n, name);
    JoinSucceeds(n, k, roomName);
    MoveFrame(n, k, name, n.known[name]);
    if s.auth {
      var j := Joined(n, k, name);
      hide JoinRoom, Index, Rejoin;
      forall r: Node | SameRooms(r, j) ensures ApplyRoomJoin(r, s.user.name, n.self, s.room.name, name) == r {
        assert IdsOk(r) by { IdsSame(n, r); }
        assert KnownOk(r.known);
        hide IdsOk, KnownOk, UsersOk;
        JoinEventRepeats(r, s.user.name, s.room, name, n.db.membership);
      }
    }
  }

  /** r has the rooms, users and membership rows of j. */
  ghost predicate SameRooms(r: Node, j: Node)
  {
    && r.self == j.self && r.known == j.known && r.db.rooms == j.db.rooms && r.db.nextRoom == j.db.nextRoom
    && r.db.users == j.db.users && r.db.membership == j.db.membership
  }

  lemma IdsSame(n: Node, r: Node)
    requires IdsOk(n) && r.known == n.known && r.db.rooms == n.db.rooms && r.db.nextRoom == n.db.nextRoom
    ensures IdsOk(r)
  {
    forall name | name in r.known ensures RoomRow(r, r.known[name]) { assert RoomRow(n, n.known[name]); }
  }

  // ---------------------------------------------------------------- login

  function LoginRow(online: map<string, string>, u: string, node: string): (r: map<string, string>)
  {
    if u in online && online[u] != node then online else online[u := node]
  }

  /** When a LOGIN is granted: right password, not online, and no session logged in with the user's email. */
  predicate LoginOk(n: Node, name: string, ok: bool)
  {
    && name in n.db.users && ok && name !in n.db.online
    && forall j :: j in n.sessions && n.sessions[j].auth ==> n.sessions[j].user.email != n.db.users[name].email
  }

  lemma LoginOkIs(n: Node, name: string, ok: bool)
    ensures LoginOk(n, name, ok) <==>
              name in n.db.users && ok && name !in n.db.online && !HasSession(n, n.db.users[name])
  {}

  /** When a REGISTER is granted: nothing empty, and neither name nor email taken. */
  predicate RegisterOk(db: Tables, name: string, password: string, email: string)
  {
    && name != "" && password != "" && email != "" && name !in db.users
    && forall x :: x in db.users ==> db.users[x].email != email
  }

  lemma RegisterOkIs(db: Tables, name: string, password: string, email: string)
    ensures RegisterOk(db, name, password, email) <==>
              name != "" && password != "" && email != "" && CanCreateUser(db, User(name, email, USER))
  {}

  /** When a RECONNECT is granted: stored, online, no session here, and the presence is this node's own or its owner is
      not live. */
  predicate ReconnectOk(n: Node, name: string, live: set<string>)
  {
    && name in n.db.users && name in n.db.online && (n.db.online[name] == n.self || n.db.online[name] !in live)
    && forall j :: j in n.sessions && n.sessions[j].auth ==> n.sessions[j].user.email != n.db.users[name].email
  }

  lemma ReconnectOkIs(n: Node, name: string, live: set<string>)
    ensures ReconnectOk(n, name, live) <==> CanReconnect(n, name, live)
  {}

  lemma ReconnectNamed(n: Node, name: string, live: set<string>)
    requires ReconnectOk(n, name, live)
    ensures name in n.db.users
  {}

  /** The room asked for, when there is one and the user may enter it; otherwise the Lobby. */
  function ResumeRoom(n: Node, u: User, requested: string): (r: string)
  {
    if && requested != "" && requested in n.known
       && (n.known[requested].private ==> u.kind == ADMIN || (n.known[requested].id, u.email) in n.db.allow)
    then requested else "Lobby"
  }

  lemma ResumeRoomIs(n: Node, u: User, requested: string)
    ensures ResumeRoom(n, u, requested) == ReconnectRoom(n, u, requested)
  {}

  /** Who may enter a room: anybody a public one, administrators and listed users a private one. */
  predicate EnterOk(n: Node, s: Session, name: string)
  {
    && name in n.known
    && (n.known[name].private ==> s.auth && (s.user.kind == ADMIN || (n.known[name].id, s.user.email) in n.db.allow))
  }

  lemma EnterOkIs(n: Node, s: Session, name: string)
    ensures EnterOk(n, s, name) <==> name in n.known && !Blocked(n, s, n.known[name])
  {}

  /** Administrators may delete any room but the two there always are. */
  predicate DeleteOk(n: Node, s: Session, name: string)
  {
    s.auth && s.user.kind == ADMIN && name in n.known && name != "Lobby" && name != "General"
  }

  lemma DeleteOkIs(n: Node, s: Session, name: string)
    ensures DeleteOk(n, s, name) <==> IsAdmin(s) && Deletable(n, name)
  {}

  lemma AuthenticateIs(n: Node, k: Socket, u: User)
    requires Core(n) && k in n.sessions && u.name in n.db.users && n.db.users[u.name] == u && !HasSession(n, u)
    ensures Authenticate(n, k, u)
         == WithOnline(Joined(SetUser(n, k, u, true), k, LOBBY.name), LoginRow(n.db.online, u.name, n.self))
    ensures Core(Authenticate(n, k, u))
  {
    hide Core, Joined, HasSession;
    SetUserCore(n, k, u, true);
    CoreIndex(n);
    var a := SetUser(n, k, u, true);
    CoreSession(a, k);
    JoinThenEvent(a, k, LOBBY.name);
    JoinedCore(a, k, LOBBY.name);
    JoinedFrame(a, k, LOBBY.name);
    var j := Joined(a, k, LOBBY.name);
    var r := WithOnline(j, LoginRow(n.db.online, u.name, n.self));
    hide JoinRoom, ApplyRoomJoin;
    assert ApplyLogin(j, u.name, n.self) == r;
    assert SameRooms(r, j);
    TablesCore(j, r);
  }

  lemma JoinedFrame(n: Node, k: Socket, name: string)
    requires k in n.sessions && name in n.known
    ensures var j, s := Joined(n, k, name), n.sessions[k];
            && j.self == n.self && j.known == n.known && j.pushed == n.pushed && j.dropped == n.dropped
            && j.sessions == n.sessions[k := s.(room := n.known[name])]
            && j.db == n.db.(membership := if s.auth
                             then Rejoin(n.db.membership, s.user.name, s.room.id, n.known[name].id, n.self)
                                           else n.db.membership)
  {
    hide Move, Rejoin;
    MoveFrame(n, k, name, n.known[name]);
  }

  // ---------------------------------------------------------------- reconnect

  /** The node after the presence row and the membership rows have been claimed. */
  function Claimed(n: Node, k: Socket, u: User): (r: Node)
    requires k in n.sessions
  {
    WithOnline(WithRows(SetUser(n, k, u, true), MoveRows(n.db.membership, u.name, n.self)),
               n.db.online[u.name := n.self])
  }

  function Listed(n: Node, room: Room, email: string): (r: Node)
  {
    if room.private then n else AddAllow(n, room.id, email, false)
  }

  lemma MovedStay(m: Rows, u: string, from: int, to: int, node: string)
    ensures var r := Rejoin(MoveRows(m, u, node), u, from, to, node); MoveRows(r, u, node) == r
  {}

  lemma ReconnectEventRepeats(n: Node, u: string, guest: User)
    requires u != "" && n.self != "" && u in n.db.online && n.db.online[u] == n.self
    requires MoveRows(n.db.membership, u, n.self) == n.db.membership
    ensures ApplyReconnect(n, u, n.self, guest) == n
  {
    assert n.db.online[u := n.self] == n.db.online;
  }

  function Reconnected(n: Node, k: Socket, u: User, room: string): (r: Node)
    requires k in n.sessions && room in n.known
  {
    var j := Joined(Claimed(n, k, u), k, room);
    if room == LOBBY.name then j else Listed(j, n.known[room], u.email)
  }

  lemma ReconnectedFrame(n: Node, k: Socket, u: User, room: string)
    requires Core(n) && k in n.sessions && room in n.known
    requires u.name in n.db.users && n.db.users[u.name] == u && !HasSession(n, u)
    ensures var r, s := Reconnected(n, k, u, room), n.sessions[k];
            && Core(r)
            && JoinRoom(Claimed(n, k, u), k, room, NoFault) == (Joined(Claimed(n, k, u), k, room), true)
            && r.self == n.self && r.known == n.known && r.pushed == n.pushed && r.dropped == n.dropped
            && r.sessions == n.sessions[k := Session(u, n.known[room], true)]
            && r.db.users == n.db.users && r.db.rooms == n.db.rooms && r.db.messages == n.db.messages
            && r.db.online == n.db.online[u.name := n.self]
            && r.db.membership == Rejoin(MoveRows(n.db.membership, u.name, n.self), u.name, s.room.id, n.known[room].id,
                                         n.self)
            && ApplyRoomJoin(r, u.name, n.self, s.room.name, room) == r
  {
    hide Core, Joined, HasSession, Rejoin, MoveRows, JoinRoom, ApplyRoomJoin, Claimed, IdsOk, UsersOk, Index, Seated;
    CoreIndex(n);
    ClaimedCore(n, k, u);
    var c := Claimed(n, k, u);
    CoreRoom(n, room);
    JoinThenEvent(c, k, room);
    JoinedCore(c, k, room);
    JoinedFrame(c, k, room);
    ListedFrame(Joined(c, k, room), n.known[room], u.email);
  }

  lemma ClaimedCore(n: Node, k: Socket, u: User)
    requires Core(n) && k in n.sessions && u.name in n.db.users && n.db.users[u.name] == u && !HasSession(n, u)
    ensures var c := Claimed(n, k, u);
            && Core(c) && c.self == n.self && c.known == n.known && c.pushed == n.pushed && c.dropped == n.dropped
            && c.sessions == n.sessions[k := n.sessions[k].(user := u, auth := true)]
            && c.db == n.db.(membership := MoveRows(n.db.membership, u.name, n.self),
                             online := n.db.online[u.name := n.self])
  {
    hide Core, HasSession, MoveRows;
    SetUserCore(n, k, u, true);
    TablesCore(SetUser(n, k, u, true), Claimed(n, k, u));
  }

  lemma ListedFrame(n: Node, room: Room, email: string)
    requires Core(n)
    ensures var r := Listed(n, room, email); Core(r) && r == n.(db := n.db.(allow := r.db.allow))
  {
    hide Core;
    TablesCore(n, Listed(n, room, email));
  }

  lemma ReconnectIs(n: Node, k: Socket, name: string, requested: string, live: set<string>, guest: User)
    requires Core(n) && k in n.sessions && CanReconnect(n, name, live)
    ensures var u := n.db.users[name];
            var room := ReconnectRoom(n, u, requested);
            && u.name == name && room in n.known
            && Reconnect(n, k, name, requested, live, guest) == Reconnected(n, k, u, room)
    ensures Core(Reconnect(n, k, name, requested, live, guest))
  {
    var u := n.db.users[name];
    var room := ReconnectRoom(n, u, requested);
    CoreIndex(n);
    assert u.name == name != "" && room in n.known;
    hide Core, Index, IdsOk, UsersOk, Joined, HasSession, OwnerLive, ReconnectRoom, Seated;
    ReconnectedFrame(n, k, u, room);
    var r := Reconnected(n, k, u, room);
    MovedStay(n.db.membership, name, n.sessions[k].room.id, n.known[room].id, n.self);
    hide JoinRoom, ApplyRoomJoin, Rejoin, MoveRows;
    ReconnectEventRepeats(r, name, guest);
    hide ApplyReconnect;
  }

  // ---------------------------------------------------------------- logout

  /** The session becomes a guest in the Lobby. */
  function Demoted(n: Node, k: Socket, guest: User): (r: Node)
    requires k in n.sessions
  {
    Move(SetUser(n, k, guest, false), k, LOBBY.name, LOBBY)
  }

  lemma DemotedFrame(n: Node, k: Socket, guest: User)
    requires Core(n) && k in n.sessions
    ensures var r := Demoted(n, k, guest);
            && Core(r)
            && r.self == n.self && r.known == n.known && r.db == n.db && r.pushed == n.pushed && r.dropped == n.dropped
            && r.sessions == n.sessions[k := Session(guest, LOBBY, false)]
  {
    hide Core, Move;
    CoreIndex(n);
    SetUserCore(n, k, guest, false);
    MoveCore(SetUser(n, k, guest, false), k, LOBBY.name);
    MoveFrame(SetUser(n, k, guest, false), k, LOBBY.name, LOBBY);
  }

  /** Leaving every room and then joining the Lobby is moving to the Lobby. */
  lemma LeaveThenLobby(members: map<string, set<Socket>>, k: Socket, from: string)
    requires forall x :: x in members ==> members[x] != {}
    requires forall x :: Sits(members, k, x) ==> x == from
    ensures Seat(Unseat(Unseat(members, k, from), k, LOBBY.name), k, LOBBY.name)
         == Seat(Unseat(members, k, from), k, LOBBY.name)
  {
    if LOBBY.name in members && from == LOBBY.name {
      assert members[LOBBY.name] - {k} - {k} == members[LOBBY.name] - {k};
    } else if LOBBY.name in members {
      assert !Sits(members, k, LOBBY.name);
      assert members[LOBBY.name] - {k} == members[LOBBY.name];
    }
  }

  lemma LogoutIs(n: Node, k: Socket, guest: User)
    requires Core(n) && k in n.sessions
    ensures var s := n.sessions[k];
            Logout(n, k, guest) == if s.auth then ApplyLogout(Demoted(n, k, guest), s.user.name)
              else Demoted(n, k, guest)
    ensures Core(Logout(n, k, guest))
  {
    var s := n.sessions[k];
    CoreSession(n, k);
    LeaveThenLobby(n.members, k, s.room.name) by { hide Sits; }
    DemotedFrame(n, k, guest);
    LogoutMove(n, k, guest);
    hide Core, Demoted, LeaveAll, SetUser, JoinRoom;
    ClearTwice(n.db.membership, s.user.name);
    hide ClearRows;
    if s.auth { TablesCore(Demoted(n, k, guest), ApplyLogout(Demoted(n, k, guest), s.user.name)); }
  }

  lemma ClearTwice(m: Rows, u: string)
    ensures ClearRows(ClearRows(m, u), u) == ClearRows(m, u)
  {}

  lemma LogoutMove(n: Node, k: Socket, guest: User)
    requires k in n.sessions && LOBBY.name in n.known && n.known[LOBBY.name] == LOBBY
    requires Seat(Unseat(Unseat(n.members, k, n.sessions[k].room.name), k, LOBBY.name), k, LOBBY.name)
          == Seat(Unseat(n.members, k, n.sessions[k].room.name), k, LOBBY.name)
    ensures var s := n.sessions[k];
            var left := SetUser(LeaveAll(n, k, true), k, guest, false);
            (JoinRoom(left, k, LOBBY.name, NoFault).0 ==
             if s.auth && s.user.name != "" then WithRows(Demoted(n, k, guest), ClearRows(n.db.membership, s.user.name))
             else Demoted(n, k, guest))
  {
    hide Seat, Unseat, ClearRows;
  }

  // ---------------------------------------------------------------- room packets

  lemma PacketJoinIs(n: Node, k: Socket, roomName: string)
    requires Core(n) && k in n.sessions
    ensures var name, s := NameOr(roomName, LOBBY.name), n.sessions[k];
            (PacketJoin(n, k, roomName) ==
             if name !in n.known || Blocked(n, s, n.known[name]) then n
             else if !s.auth then Joined(n, k, name)
             else Listed(Joined(n, k, name), n.known[name], s.user.email))
    ensures Core(PacketJoin(n, k, roomName))
  {
    hide *;
    var name, s := NameOr(roomName, LOBBY.name), n.sessions[k];
    JoinShape(n, k, roomName);
    if name in n.known {
      CoreRoom(n, name);
      assert NameOr(name, LOBBY.name) == name by { NameStays(name, LOBBY.name); }
      JoinThenEvent(n, k, name);
      JoinedCore(n, k, name);
      ListedSame(Joined(n, k, name), n.known[name], s.user.email);
    }
  }

  lemma NameStays(name: string, default: string)
    requires name != ""
    ensures NameOr(name, default) == name
  {}

  lemma JoinShape(n: Node, k: Socket, roomName: string)
    requires k in n.sessions
    ensures var name, s := NameOr(roomName, LOBBY.name), n.sessions[k];
            PacketJoin(n, k, roomName) ==
            if name !in n.known || Blocked(n, s, n.known[name]) then n else
            var (joined, ok) := JoinRoom(n, k, name, NoFault);
            if !ok || !s.auth then joined
            else ApplyRoomJoin(Listed(joined, n.known[name], s.user.email), s.user.name, n.self, s.room.name, name)
  {
    hide NameOr, Blocked, JoinRoom, ApplyRoomJoin;
  }

  lemma ListedSame(j: Node, room: Room, email: string)
    requires Core(j)
    ensures SameRooms(Listed(j, room, email), j) && Core(Listed(j, room, email))
  {
    hide Core;
    TablesCore(j, Listed(j, room, email));
  }

  lemma PacketLeaveIs(n: Node, k: Socket)
    requires Core(n) && k in n.sessions
    ensures LOBBY.name in n.known
    ensures PacketLeave(n, k) == Joined(n, k, LOBBY.name)
    ensures Core(PacketLeave(n, k))
  {
    hide *;
    CoreIndex(n);
    LobbyNamed();
    JoinThenEvent(n, k, LOBBY.name);
    JoinedCore(n, k, LOBBY.name);
    LeaveShape(n, k);
    RoomsSame(Joined(n, k, LOBBY.name));
  }

  lemma LobbyNamed()
    ensures NameOr(LOBBY.name, LOBBY.name) == LOBBY.name
  {}

  lemma RoomsSame(n: Node)
    ensures SameRooms(n, n)
  {}

  lemma LeaveShape(n: Node, k: Socket)
    requires k in n.sessions
    ensures var s, (joined, ok) := n.sessions[k], JoinRoom(n, k, LOBBY.name, NoFault);
            PacketLeave(n, k) == if ok && s.auth
              then ApplyRoomJoin(joined, s.user.name, n.self, s.room.name, LOBBY.name) else joined
  {
    hide JoinRoom, ApplyRoomJoin;
  }

  lemma PacketCreateIs(n: Node, k: Socket, name: string, private: bool)
    requires Core(n) && k in n.sessions
    ensures var s := n.sessions[k];
            (PacketCreate(n, k, name, private) ==
             if !s.auth || name == "" then n else CreateRoom(n, name, private, s.user.email, true).0)
    ensures Core(PacketCreate(n, k, name, private))
  {
    hide Core, CreateRoom, ApplyRoomCreated;
    var s := n.sessions[k];
    CoreSession(n, k);
    if s.auth && name != "" {
      CreateCore(n, name, private, s.user.email);
      CreateFrame(n, name, private, s.user.email);
      if CreateRoom(n, name, private, s.user.email, true).1 { CreateEventRepeats(n, name, private, s.user); }
    }
  }

  /** The creator of a new room is on its allow list before the event says so again. */
  lemma CreateEventRepeats(n: Node, name: string, private: bool, u: User)
    requires name != "" && u.name in n.db.users && n.db.users[u.name] == u
    requires CreateRoom(n, name, private, u.email, true).1
    ensures var r := CreateRoom(n, name, private, u.email, true).0; ApplyRoomCreated(r, u.name, name, private) == r
  {
    hide CreateRoom;
    CreateFrame(n, name, private, u.email);
    CreatorEntry(n, name, private, u.email);
  }

  lemma CreatorEntry(n: Node, name: string, private: bool, email: string)
    requires CreateRoom(n, name, private, email, true).1
    ensures var r := CreateRoom(n, name, private, email, true).0;
            name in r.known && (email != "" ==> (r.known[name].id, email) in r.db.allow)
  {}

  lemma PacketDeleteIs(n: Node, k: Socket, roomName: string)
    requires Core(n) && k in n.sessions
    ensures var s := n.sessions[k];
            var name := NameOr(roomName, s.room.name);
            (PacketDelete(n, k, roomName) ==
             if !IsAdmin(s) || name == "" || !Deletable(n, name) then n else DeleteRoom(n, name, true).0)
    ensures Core(PacketDelete(n, k, roomName))
  {
    var name := NameOr(roomName, n.sessions[k].room.name);
    if Deletable(n, name) {
      DeleteCore(n, name);
      DeleteSucceeds(n, name);
      DeletedShape(n, name, true);
      var r := DeleteRoom(n, name, true).0;
      assert !Deletable(r, name) by { hide Core, DeleteRoom; }
      NotDeleted(r, name);
    } else {
      NotDeleted(n, name);
    }
    hide Core, DeleteRoom;
  }

  // ---------------------------------------------------------------- several sockets at once

  /** Moving one socket to the Lobby as a set of one. */
  lemma InLobbyOne(members: map<string, set<Socket>>, k: Socket, from: string)
    requires forall x :: x in members ==> members[x] != {}
    requires forall x :: Sits(members, k, x) ==> x == from
    ensures InLobby(members, {k}) == Seat(Unseat(members, k, from), k, LOBBY.name)
  {
    var a, b := InLobby(members, {k}), Seat(Unseat(members, k, from), k, LOBBY.name);
    forall x ensures x in a <==> x in b
             ensures x in a && x in b ==> a[x] == b[x]
    {
      assert x in a ==> a[x] == AfterMove(members, {k}, x);
      if x in members && x != from {
        assert !Sits(members, k, x);
        assert members[x] - {k} == members[x];
      }
    }
  }

  lemma NobodyMoves(members: map<string, set<Socket>>)
    requires forall x :: x in members ==> members[x] != {}
    ensures InLobby(members, {}) == members
  {
    forall x | x in members ensures x in InLobby(members, {}) && InLobby(members, {})[x] == members[x] {
      assert AfterMove(members, {}, x) == members[x];
    }
  }

  lemma SeatsOf(n: Node, k: Socket)
    requires Core(n) && k in n.sessions
    ensures forall x :: x in n.members ==> n.members[x] != {}
    ensures forall x :: Sits(n.members, k, x) ==> x == n.sessions[k].room.name
  {}

  lemma AtMostOne(n: Node, u: string)
    requires Core(n)
    ensures forall j, k :: j in LoggedInAs(n, u) && k in LoggedInAs(n, u) ==> j == k
  {
    forall j, k | j in LoggedInAs(n, u) && k in LoggedInAs(n, u) ensures j == k { OneLogin(n, j, k); }
  }

  /** Applying a RECONNECT to another node logs the user's session here out. */
  lemma ReconnectEventIs(n: Node, u: string, node: string, guest: User)
    requires Core(n) && u != "" && node != "" && node != n.self
    ensures var placed := WithOnline(WithRows(n, MoveRows(n.db.membership, u, node)), n.db.online[u := node]);
            var r := ApplyReconnect(n, u, node, guest);
            && (LoggedInAs(n, u) == {} ==> r == placed)
            && (forall k :: k in LoggedInAs(n, u) ==> r == Demoted(placed, k, guest))
            && Core(r)
  {
    var placed := WithOnline(WithRows(n, MoveRows(n.db.membership, u, node)), n.db.online[u := node]);
    TablesCore(n, placed);
    AtMostOne(n, u);
    hide Core, MoveRows;
    var ks := LoggedInAs(n, u);
    if ks == {} {
      SendNobody(placed, guest);
    } else {
      var k :| k in ks;
      assert ks == {k};
      SendOne(placed, k, guest);
      DemotedFrame(placed, k, guest);
    }
  }

  lemma SendNobody(n: Node, guest: User)
    requires Core(n)
    ensures SendToLobby(n, {}, guest) == n
  {
    NobodyMoves(n.members) by { CoreIndex(n); }
    hide Core, InLobby;
  }

  lemma SendOne(n: Node, k: Socket, guest: User)
    requires Core(n) && k in n.sessions
    ensures SendToLobby(n, {k}, guest) == Demoted(n, k, guest)
  {
    hide Core, InLobby, Seat, Unseat;
    SeatsOf(n, k);
    InLobbyOne(n.members, k, n.sessions[k].room.name);
    assert SendToLobby(n, {k}, guest).sessions == n.sessions[k := Session(guest, LOBBY, false)];
  }

  /** Applying a kick is a join of the Lobby by the kicked user's session, when it sits in the room. */
  lemma KickEventIs(n: Node, u: string, name: string)
    requires Core(n) && u != "" && name != "" && name in n.known
    ensures var cut, r, ks := RemoveAllow(n, name, u), ApplyKick(n, u, name), InRoomAs(n, u, name);
            && LOBBY.name in n.known
            && (ks == {} ==> r == cut)
            && (forall k :: k in ks ==> k in n.sessions && r == Joined(cut, k, LOBBY.name))
            && Core(cut) && Core(r)
  {
    hide Core, Joined, KickToLobby, Index, IdsOk, UsersOk, Seated, RemoveAllow;
    var ks := InRoomAs(n, u, name);
    var cut := CutCore(n, name, u);
    CoreIndex(n);
    AtMostOne(n, u);
    KickIs(n, u, name);
    if ks != {} {
      var k :| k in ks;
      assert ks == {k};
      CoreSession(n, k);
      KickIsJoin(cut, k);
      JoinedCore(cut, k, LOBBY.name);
    }
  }

  lemma KickIs(n: Node, u: string, name: string)
    requires u != "" && name != "" && name in n.known
    ensures ApplyKick(n, u, name) == KickToLobby(RemoveAllow(n, name, u), InRoomAs(n, u, name), u, n.known[name].id)
    ensures KickToLobby(RemoveAllow(n, name, u), {}, u, n.known[name].id) == RemoveAllow(n, name, u)
  {
    hide RemoveAllow, InRoomAs;
  }

  lemma KickIsJoin(n: Node, k: Socket)
    requires Core(n) && k in n.sessions && n.sessions[k].auth
    ensures LOBBY.name in n.known
    ensures KickToLobby(n, {k}, n.sessions[k].user.name, n.sessions[k].room.id) == Joined(n, k, LOBBY.name)
  {
    CoreIndex(n);
    SeatsOf(n, k);
    hide Core, Index;
    InLobbyOne(n.members, k, n.sessions[k].room.name);
    hide InLobby, Seat, Unseat;
    var s := n.sessions[k];
    assert KickToLobby(n, {k}, s.user.name, s.room.id).sessions == n.sessions[k := s.(room := LOBBY)];
  }

  /** A session of the target sits in the room: it joins the Lobby, and the event finds nothing to do. */
  lemma KickFound(n: Node, name: string, target: string, found: Socket)
    requires Core(n) && name in n.known && name != LOBBY.name && target != "" && found in InRoomAs(n, target, name)
    ensures var cut := RemoveAllow(n, name, target);
            && LOBBY.name in n.known
            && ApplyKick(KickOne(cut, found, target, name), target, name) == Joined(cut, found, LOBBY.name)
            && Core(Joined(cut, found, LOBBY.name))
  {
    hide *;
    var cut := CutCore(n, name, target);
    CutSame(n, name, target, found);
    KickOneIs(cut, found, target, name);
    JoinedCore(cut, found, LOBBY.name);
    var j := Joined(cut, found, LOBBY.name);
    NoneLeft(n, cut, found, target, name);
    KickEventIs(j, target, name) by { CoreRoom(n, name); JoinedFrame(cut, found, LOBBY.name); }
    CutTwice(n, cut, j, name, target) by { JoinedFrame(cut, found, LOBBY.name); }
  }

  lemma CutCore(n: Node, name: string, target: string) returns (cut: Node)
    requires Core(n)
    ensures cut == RemoveAllow(n, name, target) && Core(cut) && LOBBY.name in n.known && cut.known == n.known
    ensures cut.sessions == n.sessions && InRoomAs(cut, target, name) == InRoomAs(n, target, name)
    ensures RemoveAllow(cut, name, target) == cut
  {
    hide Core;
    cut := RemoveAllow(n, name, target);
    TablesCore(n, cut);
    CoreKnown(n);
  }

  lemma CutSame(n: Node, name: string, target: string, found: Socket)
    requires found in InRoomAs(n, target, name)
    ensures var cut := RemoveAllow(n, name, target);
            && cut.sessions == n.sessions && cut.known == n.known && cut.db.users == n.db.users
            && found in n.sessions && n.sessions[found].auth
            && n.sessions[found].room.name == name && n.sessions[found].user.name == target
  {}

  lemma KickOneIs(n: Node, k: Socket, target: string, name: string)
    requires Core(n) && k in n.sessions && n.sessions[k].auth
    requires n.sessions[k].room.name == name && n.sessions[k].user.name == target
    ensures LOBBY.name in n.known && KickOne(n, k, target, name) == Joined(n, k, LOBBY.name)
  {
    CoreIndex(n);
    hide Core, Index, Joined, IdsOk, Seated, UsersOk;
    JoinThenEvent(n, k, LOBBY.name);
    hide JoinRoom, ApplyRoomJoin;
    assert SameRooms(Joined(n, k, LOBBY.name), Joined(n, k, LOBBY.name));
  }

  lemma NoneLeft(n: Node, cut: Node, found: Socket, target: string, name: string)
    requires Core(n) && name in n.known && name != LOBBY.name && found in InRoomAs(n, target, name)
    requires cut.sessions == n.sessions && cut.known == n.known && found in n.sessions
    ensures LOBBY.name in n.known && InRoomAs(Joined(cut, found, LOBBY.name), target, name) == {}
  {
    AtMostOne(n, target);
    CoreIndex(n);
    hide Core, Joined, Index, IdsOk, Seated, UsersOk;
    JoinedFrame(cut, found, LOBBY.name);
  }

  lemma CutTwice(n: Node, cut: Node, j: Node, name: string, target: string)
    requires cut == RemoveAllow(n, name, target) && j.known == n.known && name in n.known
    requires j.db.users == n.db.users && j.db.allow == cut.db.allow
    ensures RemoveAllow(j, name, target) == j
  {}

  lemma KickAbsent(n: Node, name: string, target: string)
    requires Core(n) && name in n.known && target != "" && InRoomAs(n, target, name) == {}
    ensures var cut := RemoveAllow(n, name, target);
            ApplyKick(cut, target, name) == cut && Core(cut)
  {
    hide Core, ApplyKick, RemoveAllow, InRoomAs;
    CoreRoom(n, name);
    var cut := CutCore(n, name, target);
    KickEventIs(cut, target, name);
  }

  /** The kick packet: the target's session, if it sits in the room, joins the Lobby; the event the node
      then rumors to itself finds nothing left to do. */
  lemma PacketKickIs(n: Node, k: Socket, roomName: string, target: string, found: Socket)
    requires Core(n) && k in n.sessions
    requires LoggedInAs(n, target) == {} || found in LoggedInAs(n, target)
    ensures var r, name := PacketKick(n, k, roomName, target, found), NameOr(roomName, n.sessions[k].room.name);
            || r == n
            || (name in n.known && r == RemoveAllow(n, name, target) && InRoomAs(n, target, name) == {})
            || (name in n.known && LOBBY.name in n.known && found in InRoomAs(n, target, name)
                && r == Joined(RemoveAllow(n, name, target), found, LOBBY.name))
    ensures Core(PacketKick(n, k, roomName, target, found))
  {
    hide Core, ApplyKick, KickOne, Joined;
    var name := NameOr(roomName, n.sessions[k].room.name);
    if PacketKick(n, k, roomName, target, found) != n {
      AtMostOne(n, target);
      if found in InRoomAs(n, target, name) {
        KickFound(n, name, target, found);
      } else {
        assert InRoomAs(n, target, name) == {};
        KickAbsent(n, name, target);
        KickOther(RemoveAllow(n, name, target), found, target, name);
      }
    }
  }

  lemma KickOther(n: Node, k: Socket, target: string, name: string)
    ensures k in n.sessions && n.sessions[k].room.name != name ==> KickOne(n, k, target, name) == n
  {}
}
