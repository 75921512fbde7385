/** What each packet, connection and disconnection leaves behind, said about the state before and the state after
    without naming the operation, and that every operation does exactly that. */
module NodeOutcomes {
  import opened ChatNode
  import opened RoomIndex
  import opened NodeShapes
  import opened NodePackets
  import opened NodeRuns
  import opened NodePresence
  import opened NodeMembership

  /** Rooms, users and the message counts are untouched. */
  predicate Still(n: Node, r: Node)
  {
    && r.self == n.self && r.known == n.known && r.pushed == n.pushed && r.dropped == n.dropped
    && r.db.rooms == n.db.rooms && r.db.nextRoom == n.db.nextRoom && r.db.messages == n.db.messages
  }

  /** The rows of u are gone, and no others. */
  predicate RowsGo(m: Rows, r: Rows, u: string)
  {
    r == map x | x in m && x.0 != u :: m[x]
  }

  lemma ClearGoes(m: Rows, u: string)
    ensures RowsGo(m, ClearRows(m, u), u)
  {}

  // ---------------------------------------------------------------- connecting and disconnecting

  /** A guest session that sits in the Lobby; the tables are as before. */
  ghost predicate Opens(n: Node, r: Node, k: Socket, guest: User)
  {
    && Still(n, r) && r.db == n.db && r.sessions == n.sessions[k := Session(guest, LOBBY, false)]
    && Sits(r.members, k, LOBBY.name)
  }

  lemma OpenOutcome(n: Node, k: Socket, guest: User)
    requires Core(n) && k !in n.sessions
    ensures Opens(n, Open(n, k, guest), k, guest) && Core(Open(n, k, guest))
  {
    hide Core, Open, Move;
    CoreIndex(n);
    OpenCore(n, k, guest);
    OpenIs(n, k, guest);
    MoveFrame(Opened(n, k, guest), k, LOBBY.name, LOBBY);
    CoreSession(Open(n, k, guest), k);
  }

  /** The session is gone and sits nowhere; a logged-in user is offline without rows. */
  ghost predicate Closes(n: Node, r: Node, k: Socket)
  {
    && Still(n, r) && r.sessions == n.sessions - {k} && (forall name :: !Sits(r.members, k, name))
    && r.db.users == n.db.users && r.db.allow == n.db.allow
    && if k in n.sessions && n.sessions[k].auth
       then r.db.online == n.db.online - {n.sessions[k].user.name}
         && RowsGo(n.db.membership, r.db.membership, n.sessions[k].user.name)
       else r.db == n.db
  }

  lemma RemoveOutcome(n: Node, k: Socket)
    requires Core(n)
    ensures Closes(n, Remove(n, k), k) && Core(Remove(n, k))
  {
    hide Core, ClearRows, RowsGo;
    RemoveCore(n, k);
    RemoveTables(n, k);
    if k in n.sessions {
      RemoveEffect(n, k);
      ClearGoes(n.db.membership, n.sessions[k].user.name);
    }
    hide Remove;
    SitsNowhere(Remove(n, k), k);
  }

  lemma RemoveTables(n: Node, k: Socket)
    ensures Still(n, Remove(n, k)) && Remove(n, k).db.allow == n.db.allow
    ensures k in n.sessions && !n.sessions[k].auth ==> Remove(n, k).db == n.db
    ensures Remove(n, k).sessions == n.sessions - {k}
  {
    hide Unseat, ClearRows;
  }

  lemma SitsNowhere(n: Node, k: Socket)
    requires Core(n) && k !in n.sessions
    ensures forall name :: !Sits(n.members, k, name)
  {}

  // ---------------------------------------------------------------- logging in and out

  /** The session belongs to u and sits in the Lobby; u is online here unless another node holds u's presence, and u's
      row of the room the session came from has become the Lobby row. */
  ghost predicate LogsIn(n: Node, r: Node, k: Socket, u: User)
    requires k in n.sessions
  {
    && Still(n, r) && r.sessions == n.sessions[k := Session(u, LOBBY, true)] && Sits(r.members, k, LOBBY.name)
    && r.db.online == LoginRow(n.db.online, u.name, n.self) && r.db.allow == n.db.allow
    && r.db.membership == Rejoin(n.db.membership, u.name, n.sessions[k].room.id, LOBBY.id, n.self)
  }

  lemma AuthenticateOutcome(n: Node, k: Socket, u: User)
    requires Core(n) && k in n.sessions && u.name in n.db.users && n.db.users[u.name] == u && !HasSession(n, u)
    ensures var r := Authenticate(n, k, u); LogsIn(n, r, k, u) && r.db.users == n.db.users && Core(r)
  {
    hide Core, HasSession, Authenticate, Joined, Rejoin, Index, Seated, IdsOk, UsersOk;
    AuthenticateIs(n, k, u);
    CoreIndex(n);
    JoinedFrame(SetUser(n, k, u, true), k, LOBBY.name);
    CoreSession(Authenticate(n, k, u), k);
  }

  lemma LoginOutcome(n: Node, k: Socket, name: string, ok: bool)
    requires Core(n) && k in n.sessions
    ensures var r := Login(n, k, name, ok);
            && Core(r) && r.db.users == n.db.users
            && if LoginOk(n, name, ok) then LogsIn(n, r, k, n.db.users[name]) else r == n
  {
    LoginOkIs(n, name, ok);
    hide Core, Authenticate, HasSession, LogsIn, LoginOk;
    if LoginOk(n, name, ok) {
      assert n.db.users[name].name == name by { CoreIndex(n); }
      AuthenticateOutcome(n, k, n.db.users[name]);
    }
  }

  lemma RegisterOutcome(n: Node, k: Socket, name: string, password: string, email: string)
    requires Core(n) && k in n.sessions
    ensures var r, u := Register(n, k, name, password, email), User(name, email, USER);
            && Core(r)
            && if RegisterOk(n.db, name, password, email)
               then LogsIn(n, r, k, u) && r.db.users == n.db.users[name := u] else r == n
  {
    RegisterOkIs(n.db, name, password, email);
    hide Core, Authenticate, CanCreateUser, HasSession, RegisterOk;
    var u := User(name, email, USER);
    if RegisterOk(n.db, name, password, email) {
      RegisterReady(n, u);
      AuthenticateOutcome(WithUser(n, u), k, u);
    }
  }

  /** The session is a guest in the Lobby; the user who was logged in is offline without rows. */
  ghost predicate LogsOut(n: Node, r: Node, k: Socket, guest: User)
    requires k in n.sessions
  {
    && Still(n, r) && r.sessions == n.sessions[k := Session(guest, LOBBY, false)] && Sits(r.members, k, LOBBY.name)
    && r.db.users == n.db.users && r.db.allow == n.db.allow
    && if n.sessions[k].auth
       then r.db.online == n.db.online - {n.sessions[k].user.name}
         && RowsGo(n.db.membership, r.db.membership, n.sessions[k].user.name)
       else r.db.online == n.db.online && r.db.membership == n.db.membership
  }

  lemma LogoutOutcome(n: Node, k: Socket, guest: User)
    requires Core(n) && k in n.sessions
    ensures LogsOut(n, Logout(n, k, guest), k, guest) && Core(Logout(n, k, guest))
  {
    hide Core, Demoted, Logout, ClearRows, RowsGo;
    LogoutEffect(n, k, guest);
    LogoutIs(n, k, guest);
    DemotedFrame(n, k, guest);
    CoreSession(Logout(n, k, guest), k);
    ClearGoes(n.db.membership, n.sessions[k].user.name);
  }

  /** The session belongs to u and sits in the room; u is online here, and u's rows are here, the one of the room the
      session came from replaced by that of the room it is in. */
  ghost predicate Resumes(n: Node, r: Node, k: Socket, u: User, room: string)
    requires k in n.sessions && room in n.known
  {
    && Still(n, r) && r.sessions == n.sessions[k := Session(u, n.known[room], true)]
    && Sits(r.members, k, n.known[room].name)
    && r.db.users == n.db.users && r.db.online == n.db.online[u.name := n.self]
    && r.db.allow == (if room == LOBBY.name || n.known[room].private || (n.known[room].id, u.email) in n.db.allow
                      then n.db.allow
                      else n.db.allow[(n.known[room].id, u.email) := false])
    && r.db.membership == Rejoin((map x | x in n.db.membership :: if x.0 == u.name then n.self else n.db.membership[x]),
                                 u.name, n.sessions[k].room.id, n.known[room].id, n.self)
  }

  lemma ReconnectOutcome(n: Node, k: Socket, name: string, requested: string, live: set<string>, guest: User)
    requires Core(n) && k in n.sessions
    ensures var r := Reconnect(n, k, name, requested, live, guest);
            && Core(r)
            && if ReconnectOk(n, name, live)
               then var into := ResumeRoom(n, n.db.users[name], requested);
                    into in n.known && Resumes(n, r, k, n.db.users[name], into)
               else r == n
  {
    ReconnectOkIs(n, name, live);
    if CanReconnect(n, name, live) { ResumeRoomIs(n, n.db.users[name], requested); }
    hide Core, HasSession, OwnerLive, ReconnectOk, ResumeRoom, Reconnected, ReconnectRoom, JoinRoom, ApplyRoomJoin,
      Joined, Claimed, Rejoin, MoveRows;
    if CanReconnect(n, name, live) {
      var u := n.db.users[name];
      var into := ReconnectRoom(n, u, requested);
      ReconnectIs(n, k, name, requested, live, guest);
      ReconnectedFrame(n, k, u, into);
      ReconnectedNext(n, k, u, into);
      hide Reconnect;
      CoreSession(Reconnect(n, k, name, requested, live, guest), k);
    }
  }

  lemma ReconnectedNext(n: Node, k: Socket, u: User, room: string)
    requires k in n.sessions && room in n.known
    ensures Reconnected(n, k, u, room).db.nextRoom == n.db.nextRoom
    ensures Reconnected(n, k, u, room).db.allow ==
            if room == LOBBY.name || n.known[room].private || (n.known[room].id, u.email) in n.db.allow then n.db.allow
            else n.db.allow[(n.known[room].id, u.email) := false]
  {
    hide Joined;
    JoinedFrame(Claimed(n, k, u), k, room);
  }

  // ---------------------------------------------------------------- rooms

  /** A logged-in user who enters a public room is on its list afterwards; nobody else's entry changes. */
  predicate Lists(n: Node, r: Node, s: Session, room: Room)
  {
    r.db.allow == if !s.auth || room.private || (room.id, s.user.email) in n.db.allow then n.db.allow
                  else n.db.allow[(room.id, s.user.email) := false]
  }

  /** The session sits in the named room, and a logged-in user's row has followed. */
  ghost predicate Enters(n: Node, r: Node, k: Socket, name: string)
    requires k in n.sessions && name in n.known
  {
    var s, room := n.sessions[k], n.known[name];
    && Still(n, r) && r.sessions == n.sessions[k := s.(room := room)] && Sits(r.members, k, name)
    && r.db.users == n.db.users && r.db.online == n.db.online
    && r.db.membership == if s.auth then Rejoin(n.db.membership, s.user.name, s.room.id, room.id, n.self)
       else n.db.membership
  }

  lemma JoinedEnters(n: Node, k: Socket, name: string)
    requires Core(n) && k in n.sessions && name in n.known
    ensures Enters(n, Joined(n, k, name), k, name) && Core(Joined(n, k, name))
  {
    hide Core, Joined, Rejoin;
    CoreRoom(n, name);
    JoinedFrame(n, k, name);
    JoinedCore(n, k, name);
    CoreSession(Joined(n, k, name), k);
  }

  lemma JoinOutcome(n: Node, k: Socket, roomName: string)
    requires Core(n) && k in n.sessions
    ensures var r, name, s := PacketJoin(n, k, roomName), NameOr(roomName, LOBBY.name), n.sessions[k];
            && Core(r)
            && if EnterOk(n, s, name) then Enters(n, r, k, name) && Lists(n, r, s, n.known[name]) else r == n
  {
    EnterOkIs(n, n.sessions[k], NameOr(roomName, LOBBY.name));
    hide EnterOk, Core, Joined, PacketJoin, Blocked, Rejoin;
    PacketJoinIs(n, k, roomName);
    var name := NameOr(roomName, LOBBY.name);
    if name in n.known {
      JoinedEnters(n, k, name);
      JoinedFrame(n, k, name);
    }
  }

  lemma LeaveOutcome(n: Node, k: Socket)
    requires Core(n) && k in n.sessions
    ensures LOBBY.name in n.known && Enters(n, PacketLeave(n, k), k, LOBBY.name) && Core(PacketLeave(n, k))
    ensures PacketLeave(n, k).db.allow == n.db.allow
  {
    hide Core, Enters, PacketLeave, Joined;
    PacketLeaveIs(n, k);
    JoinedFrame(n, k, LOBBY.name);
    JoinedEnters(n, k, LOBBY.name);
  }

  /** One new room under the next id; its creator is listed as such unless that entry exists. */
  ghost predicate Creates(n: Node, r: Node, name: string, private: bool, email: string)
  {
    var id := n.db.nextRoom;
    && r == n.(known := n.known[name := Room(id, name, private)], db := r.db)
    && r.db == n.db.(rooms := n.db.rooms[id := name], nextRoom := id + 1, allow := r.db.allow)
    && r.db.allow == if email == "" || (id, email) in n.db.allow then n.db.allow else n.db.allow[(id, email) := true]
  }

  lemma CreateOutcome(n: Node, k: Socket, name: string, private: bool)
    requires Core(n) && k in n.sessions
    ensures var r, s := PacketCreate(n, k, name, private), n.sessions[k];
            && Core(r)
            && if s.auth && name != "" && name !in n.known && name !in n.db.rooms.Values
               then Creates(n, r, name, private, s.user.email)
               else r == n
  {
    hide Core, PacketCreate;
    PacketCreateIs(n, k, name, private);
  }

  predicate InviteOk(n: Node, s: Session, name: string, invitee: string)
  {
    && s.auth && name != "" && invitee != "" && name in n.known && invitee in n.db.users
    && (s.user.kind == ADMIN || (n.known[name].private && Made(n, s.user.email, n.known[name].id)))
  }

  /** The entry that makes this email the room's creator. */
  predicate Made(n: Node, email: string, id: int) { (id, email) in n.db.allow && n.db.allow[(id, email)] }

  lemma ManageIs(n: Node, s: Session, room: Room)
    requires s.auth
    ensures MayManage(n, s, room) <==> s.user.kind == ADMIN || Made(n, s.user.email, room.id)
  {}

  /** One entry on one list, without a creator's rights, unless there is one already. */
  lemma InviteOutcome(n: Node, k: Socket, roomName: string, invitee: string)
    requires Core(n) && k in n.sessions
    ensures var r, s := PacketInvite(n, k, roomName, invitee), n.sessions[k];
            var name := NameOr(roomName, s.room.name);
            && Core(r)
            && if InviteOk(n, s, name, invitee)
               then var x := (n.known[name].id, n.db.users[invitee].email);
                    r == n.(db := n.db.(allow := if x in n.db.allow then n.db.allow else n.db.allow[x := false]))
               else r == n
  {
    var s := n.sessions[k];
    var name := NameOr(roomName, s.room.name);
    if s.auth && name in n.known { ManageIs(n, s, n.known[name]); }
    hide Core, MayManage;
    TablesCore(n, PacketInvite(n, k, roomName, invitee));
  }

  /** A session of the user sits in the room. */
  ghost predicate SitsAs(n: Node, name: string, u: string)
  {
    exists k :: k in n.sessions && SatIn(n.sessions[k], name, u)
  }

  predicate SatIn(s: Session, name: string, u: string) { s.auth && s.user.name == u && s.room.name == name }

  /** The room is gone from memory and tables, and with it exactly its entries, rows and messages; whoever sat in it
      sits in the Lobby, and exactly the logged-in ones of them have gained a Lobby row here. */
  ghost predicate Deletes(n: Node, r: Node, name: string)
    requires name in n.known
  {
    var id := n.known[name].id;
    && r.self == n.self && r.known == n.known - {name} && r.db.rooms == n.db.rooms - {id} && r.db.users == n.db.users
    && r.db.online == n.db.online
    && r.sessions.Keys == n.sessions.Keys
    && (forall k :: k in n.sessions ==>
          r.sessions[k] == if n.sessions[k].room.name == name then n.sessions[k].(room := LOBBY) else n.sessions[k])
    && (forall k :: k in r.sessions ==> Sits(r.members, k, r.sessions[k].room.name))
    && (forall x :: x in r.db.membership <==>
          (x in n.db.membership && x.1 != id) || (x.1 == LOBBY.id && SitsAs(n, name, x.0)))
    && (forall x :: x in r.db.membership ==>
          r.db.membership[x] == if x.1 == LOBBY.id && SitsAs(n, name, x.0) then n.self else n.db.membership[x])
    && r.db.allow == (map x | x in n.db.allow && x.0 != id :: n.db.allow[x])
    && r.db.messages == (map m | m in n.db.messages && n.db.messages[m] != id :: n.db.messages[m])
    && r.pushed == n.pushed && r.dropped == n.dropped + multiset(set m | m in n.db.messages && n.db.messages[m] == id)
  }

  lemma DeleteOutcome(n: Node, k: Socket, roomName: string)
    requires Core(n) && k in n.sessions
    ensures var r, s := PacketDelete(n, k, roomName), n.sessions[k];
            var name := NameOr(roomName, s.room.name);
            && Core(r)
            && if DeleteOk(n, s, name) then Deletes(n, r, name) else r == n
  {
    DeleteOkIs(n, n.sessions[k], NameOr(roomName, n.sessions[k].room.name));
    hide DeleteOk, Core, PacketDelete, DeleteRoom, Deletes;
    PacketDeleteIs(n, k, roomName);
    var name := NameOr(roomName, n.sessions[k].room.name);
    if Deletable(n, name) {
      CoreRoom(n, name);
      RoomDeletes(n, name);
    }
  }

  lemma RoomDeletes(n: Node, name: string)
    requires Core(n) && Deletable(n, name)
    ensures Deletes(n, DeleteRoom(n, name, true).0, name) && Core(DeleteRoom(n, name, true).0)
  {
    hide Core, DeleteRoom, ForgetRoom;
    DeleteCore(n, name);
    DeleteSucceeds(n, name);
    DeletedShape(n, name, true);
    DeleteFrame(n, name);
    LobbyRow(n, name);
    DeleteRows(n, name);
    DropTables(n, name);
    var r := DeleteRoom(n, name, true).0;
    forall k | k in n.sessions ensures k in Sitting(n, name) <==> n.sessions[k].room.name == name {
      SeatedIn(n, k, name);
    }
    forall k | k in r.sessions ensures Sits(r.members, k, r.sessions[k].room.name) { CoreSession(r, k); }
    forall x ensures LobbyRowOf(n, name, x) <==> x.1 == LOBBY.id && SitsAs(n, name, x.0) { EvictedIs(n, name, x); }
    hide LobbyRowOf, SitsAs, Sits, Sitting;
  }

  lemma EvictedIs(n: Node, name: string, x: (string, int))
    requires Core(n)
    ensures LobbyRowOf(n, name, x) <==> x.1 == LOBBY.id && SitsAs(n, name, x.0)
  {
    hide Core, Sitting;
    if SitsAs(n, name, x.0) {
      var k :| k in n.sessions && SatIn(n.sessions[k], name, x.0);
      SeatedIn(n, k, name);
      CoreSession(n, k);
    }
    if LobbyRowOf(n, name, x) {
      var k :| k in Sitting(n, name) && k in n.sessions && n.sessions[k].auth && n.sessions[k].user.name == x.0;
      SeatedIn(n, k, name);
      assert SatIn(n.sessions[k], name, x.0);
    }
  }

  lemma DropTables(n: Node, name: string)
    requires DeleteRoom(n, name, true).1
    ensures var r, id := DeleteRoom(n, name, true).0, n.known[name].id;
            && r.db.allow == (map x | x in n.db.allow && x.0 != id :: n.db.allow[x])
            && r.db.messages == (map m | m in n.db.messages && n.db.messages[m] != id :: n.db.messages[m])
            && r.pushed == n.pushed
            && r.dropped == n.dropped + multiset(set m | m in n.db.messages && n.db.messages[m] == id)
  {
    hide UsersOf, LobbyRows, Sitting;
  }

  lemma SeatedIn(n: Node, k: Socket, name: string)
    requires Core(n) && k in n.sessions
    ensures k in Sitting(n, name) <==> n.sessions[k].room.name == name
  {
    CoreSession(n, k);
    assert k in Sitting(n, name) ==> Sits(n.members, k, name);
  }

  predicate KickOk(n: Node, s: Session, name: string, target: string)
  {
    && s.auth && name != "" && target != "" && name != "Lobby" && target != s.user.name && name in n.known
    && target in n.db.users && (s.user.kind == ADMIN || Made(n, s.user.email, n.known[name].id))
  }

  lemma KickOkIs(n: Node, s: Session, name: string, target: string)
    ensures KickOk(n, s, name, target) <==>
              && s.auth && name != "" && target != "" && name != LOBBY.name && target != s.user.name && name in n.known
              && MayManage(n, s, n.known[name]) && target in n.db.users
  {}

  lemma KickShape(n: Node, k: Socket, roomName: string, target: string, found: Socket)
    requires Core(n) && k in n.sessions
    requires LoggedInAs(n, target) == {} || found in LoggedInAs(n, target)
    ensures var r, s := PacketKick(n, k, roomName, target, found), n.sessions[k];
            var name := NameOr(roomName, s.room.name);
            && Core(r)
            && if KickOk(n, s, name, target)
               then && (n.known[name].id, n.db.users[target].email) !in r.db.allow && InRoomAs(r, target, name) == {}
                    && LOBBY.name in n.known && r.db.allow == RemoveAllow(n, name, target).db.allow
                    && if found in InRoomAs(n, target, name)
                       then Enters(RemoveAllow(n, name, target), r, found, LOBBY.name)
                       else r == RemoveAllow(n, name, target)
               else r == n
  {
    var s := n.sessions[k];
    var name := NameOr(roomName, s.room.name);
    KickOkIs(n, s, name, target);
    hide Core, ApplyKick, KickOne, Joined, MayManage, Enters, KickOk;
    PacketKickIs(n, k, roomName, target, found);
    if KickOk(n, s, name, target) { KickDone(n, k, name, target, found); }
  }

  /** The target is off the list, and its session, if it sat in the room, sits in the Lobby. */
  lemma KickOutcome(n: Node, k: Socket, roomName: string, target: string, found: Socket)
    requires Core(n) && k in n.sessions
    requires LoggedInAs(n, target) == {} || found in LoggedInAs(n, target)
    ensures var r, s := PacketKick(n, k, roomName, target, found), n.sessions[k];
            var name := NameOr(roomName, s.room.name);
            && Core(r)
            && if KickOk(n, s, name, target)
               then var cut := Unlisted(n, n.known[name].id, n.db.users[target].email);
                    && LOBBY.name in n.known && r.db.allow == cut.db.allow
                    && (forall j :: j in r.sessions ==> !SatIn(r.sessions[j], name, target))
                    && if found in n.sessions && SatIn(n.sessions[found], name, target)
                       then Enters(cut, r, found, LOBBY.name) else r == cut
               else r == n
  {
    var name := NameOr(roomName, n.sessions[k].room.name);
    KickOkIs(n, n.sessions[k], name, target);
    hide Core, Enters, KickOk, Unlisted, RemoveAllow, InRoomAs, SatIn, PacketKick, LoggedInAs, MayManage;
    KickShape(n, k, roomName, target, found);
    if KickOk(n, n.sessions[k], name, target) {
      UnlistedIs(n, name, target);
      InRoomIs(n, target, name, found);
      NobodySits(PacketKick(n, k, roomName, target, found), target, name);
    }
  }

  /** The entry is gone. */
  function Unlisted(n: Node, id: int, email: string): (r: Node) { n.(db := n.db.(allow := n.db.allow - {(id, email)})) }

  lemma UnlistedIs(n: Node, name: string, target: string)
    requires name in n.known && target in n.db.users
    ensures RemoveAllow(n, name, target) == Unlisted(n, n.known[name].id, n.db.users[target].email)
  {}

  lemma InRoomIs(n: Node, u: string, name: string, j: Socket)
    ensures j in InRoomAs(n, u, name) <==> j in n.sessions && SatIn(n.sessions[j], name, u)
  {}

  lemma NobodySits(n: Node, u: string, name: string)
    requires InRoomAs(n, u, name) == {}
    ensures forall j :: j in n.sessions ==> !SatIn(n.sessions[j], name, u)
  {
    forall j | j in n.sessions ensures !SatIn(n.sessions[j], name, u) { InRoomIs(n, u, name, j); }
  }

  lemma KickDone(n: Node, k: Socket, name: string, target: string, found: Socket)
    requires Core(n) && k in n.sessions && (LoggedInAs(n, target) == {} || found in LoggedInAs(n, target))
    requires KickOk(n, n.sessions[k], name, target)
    ensures name in n.known && target in n.db.users && name != ""
    ensures var r := PacketKick(n, k, name, target, found);
            && (n.known[name].id, n.db.users[target].email) !in r.db.allow && InRoomAs(r, target, name) == {}
            && LOBBY.name in n.known && r.db.allow == RemoveAllow(n, name, target).db.allow
            && if found in InRoomAs(n, target, name) then Enters(RemoveAllow(n, name, target), r, found, LOBBY.name)
               else r == RemoveAllow(n, name, target)
  {
    KickOkIs(n, n.sessions[k], name, target);
    hide Core, ApplyKick, KickOne, Joined, MayManage, Enters, KickOk;
    CoreRoom(n, name);
    CoreIndex(n);
    AtMostOne(n, target);
    var cut := CutCore(n, name, target);
    if found in InRoomAs(n, target, name) {
      KickFound(n, name, target, found);
      NoneLeft(n, cut, found, target, name);
      JoinedFrame(cut, found, LOBBY.name);
      JoinedEnters(cut, found, LOBBY.name);
    } else {
      assert InRoomAs(n, target, name) == {};
      KickAbsent(n, name, target);
      KickOther(cut, found, target, name);
    }
  }

  lemma DeleteSelf(n: Node, name: string)
    ensures DeleteRoom(n, name, true).0.self == n.self
  {
    hide UsersOf, LobbyRows, Sitting, Deletable;
  }

  lemma KickSelf(n: Node, u: string, name: string)
    ensures ApplyKick(n, u, name).self == n.self
  {
    hide InLobby, InRoomAs;
  }

  lemma EventSelf(n: Node, e: Event, guest: User)
    ensures ApplyEvent(n, e, guest).self == n.self
  {
    ApplyEventIs(n, e, guest);
    hide ApplyEvent, DeleteRoom, ApplyKick, InLobby, LoggedInAs, MoveRows, ClearRows, CanCreateUser;
    if e.RoomDeletedEvent? { DeleteSelf(n, e.room); }
    if e.KickEvent? { KickSelf(n, e.user, e.room); }
  }

  // ---------------------------------------------------------------- failing writes

  /** A creation that fails changes nothing. Leaving a room always takes the session to the Lobby and its socket out
      of the room, and takes the user's rows unless clearing them fails. A deletion that fails forgets the room and
      moves its sockets, and leaves sessions and tables alone. */
  lemma FaultOutcome(n: Node, k: Socket, name: string, private: bool, email: string)
    requires Core(n) && k in n.sessions
    ensures CreateRoom(n, name, private, email, false) == (n, false)
    ensures forall ok :: LeavesAll(n, LeaveAll(n, k, ok), k, ok)
    ensures var (r, ok) := DeleteRoom(n, name, false);
            && !ok && r.db == n.db && r.sessions == n.sessions
            && if name in n.known && name != "Lobby" && name != "General"
               then r.known == n.known - {name} && forall j, a :: Sits(r.members, j, a) <==>
                      (a != name && Sits(n.members, j, a)) || (a == "Lobby" && Sits(n.members, j, name))
               else r == n
  {
    CoreIndex(n);
    hide Core, Seated, IdsOk, UsersOk, Index;
    forall ok ensures LeavesAll(n, LeaveAll(n, k, ok), k, ok) { LeaveOutcomes(n, k, ok); }
    if name in n.known && name != "Lobby" && name != "General" { ForgetSits(n, name); }
  }

  ghost predicate LeavesAll(n: Node, r: Node, k: Socket, ok: bool)
    requires k in n.sessions
  {
    var s := n.sessions[k];
    && r.known == n.known && r.sessions == n.sessions[k := s.(room := LOBBY)]
    && (forall j, a :: Sits(r.members, j, a) <==> Sits(n.members, j, a) && !(j == k && a == s.room.name))
    && r.db == n.db.(membership := r.db.membership)
    && if ok && s.auth && s.user.name != "" then RowsGo(n.db.membership, r.db.membership, s.user.name)
       else r.db == n.db
  }

  lemma LeaveOutcomes(n: Node, k: Socket, ok: bool)
    requires k in n.sessions
    ensures LeavesAll(n, LeaveAll(n, k, ok), k, ok)
  {
    UnseatSits(n.members, k, n.sessions[k].room.name);
    hide Unseat, Sits;
  }

  lemma ForgetSits(n: Node, name: string)
    requires name in n.known && name != "Lobby"
    ensures var r := ForgetRoom(n, name);
            && r.db == n.db && r.sessions == n.sessions && r.known == n.known - {name}
            && forall j, a :: Sits(r.members, j, a) <==>
                 (a != name && Sits(n.members, j, a)) || (a == "Lobby" && Sits(n.members, j, name))
  {}

  /** No step changes which node this is. */
  lemma StepSelf(n: Node, a: Action)
    requires Core(n)
    ensures Step(n, a).self == n.self
  {
    hide Core, Step;
    if !Possible(n, a) {
      NotPossible(n, a);
    } else if a.DoPeer? {
      StepIs(n, a);
      EventSelf(n, a.event, a.guest);
    } else if Quiet(a) {
      QuietSteps(n, a);
      hide Relocates;
    } else {
      hide Open, Remove, Login, Register, Reconnect, Logout, PacketDelete, SitsAs, Sits, LoginOk, RegisterOk,
        CanReconnect, ReconnectRoom, Rejoin, MoveRows, ClearRows, LoginRow;
      StepIs(n, a);
      match a
      case DoConnect(k, guest) => OpenOutcome(n, k, guest);
      case DoDisconnect(k) => RemoveOutcome(n, k);
      case DoLogin(k, name, ok) => LoginOutcome(n, k, name, ok);
      case DoRegister(k, name, password, email) => RegisterOutcome(n, k, name, password, email);
      case DoReconnect(k, name, room, live, guest) => ReconnectOutcome(n, k, name, room, live, guest);
      case DoLogout(k, guest) => LogoutOutcome(n, k, guest);
      case DoRoomDelete(k, room) => DeleteOutcome(n, k, room);
      case _ =>
    }
  }
}
