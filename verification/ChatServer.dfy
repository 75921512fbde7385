/** The node as the managers keep it: fields updated in place by the room operations, the session
    bookkeeping, the event application and the packet handlers. The room operations and the loops are proved to take
    the node to the state their value-level counterpart in module ChatNode describes, the handlers to have the outcome
    module NodeOutcomes describes, and processing an action to be the step of module NodeRuns. */
module ChatServer {
  import opened Bytes
  import opened ChatNode
  import opened RoomIndex
  import opened NodeShapes
  import opened NodePackets
  import opened NodeRuns
  import opened NodeOutcomes
  import opened PeerOutcomes
  import opened NodeAccess

  /** One send to each of these sockets but the skipped one. */
  method SendEach(sockets: set<Socket>, skip: Option<Socket>) returns (sent: seq<Socket>)
    ensures multiset(sent) == multiset(Except(sockets, skip))
  {
    hide *;
    sent := [];
    var todo := sockets;
    ghost var done: set<Socket> := {};
    ExceptNone(skip);
    while todo != {}
      invariant done !! todo && done + todo == sockets
      invariant multiset(sent) == multiset(Except(done, skip))
      decreases |todo|
    {
      var k :| k in todo;
      SentStep(done, k, skip);
      if skip != Some(k) {
        sent := sent + [k];
      }
      todo, done := todo - {k}, done + {k};
    }
    assert done == sockets;
  }

  /** broadcast for every room that is still known, one room after the other. */
  method SendRooms(members: map<string, set<Socket>>, known: map<string, Room>, skip: Option<Socket>, ghost n: Node)
    returns (sent: seq<Socket>)
    requires Index(n) && n.members == members && n.known == known
    ensures multiset(sent) == multiset(Except(MembersOf(n, members.Keys), skip))
  {
    hide *;
    sent := [];
    ExceptNone(skip);
    NoRooms(n);
    ghost var done: set<string> := {};
    var todo := members.Keys;
    while todo != {}
      invariant done !! todo && done + todo == members.Keys
      invariant multiset(sent) == multiset(Except(MembersOf(n, done), skip))
      decreases |todo|
    {
      var name :| name in todo;
      MembersStep(n, done, name);
      if name in known {
        var more := SendEach(members[name], skip);
        SittingOf(n, name);
        RoomSent(n, done, name, skip, sent, more);
        sent := sent + more;
      }
      todo, done := todo - {name}, done + {name};
    }
    assert done == members.Keys;
  }

  class Server {
    const nodeId: string
    var sessions: map<Socket, Session>
    var knownRooms: map<string, Room>
    var members: map<string, set<Socket>>
    var db: Tables
    ghost var pushed: multiset<string>
    ghost var dropped: multiset<string>

    ghost function State(): (n: Node)
      reads this
    {
      Node(nodeId, sessions, knownRooms, members, db, pushed, dropped)
    }

    /** Room index, rooms, users and logins are consistent, and no user is logged in twice. */
    ghost predicate Valid()
      reads this
    {
      Core(State())
    }

    /** A booted node over a database that already holds users. */
    constructor (id: string, tables: Tables)
      ensures id != "" && BootTables(tables) ==> Boot(State()) && Valid()
      ensures State() == Node(id, map[], map[LOBBY.name := LOBBY, GENERAL.name := GENERAL], map[], tables, multiset{},
                              multiset{})
    {
      nodeId := id;
      sessions, members, db := map[], map[], tables;
      knownRooms := map[LOBBY.name := LOBBY, GENERAL.name := GENERAL];
      pushed, dropped := multiset{}, multiset{};
    }

    // -------------------------------------------------------------- room manager

    method RemoveSocketLocked(k: Socket, roomName: string)
      modifies this`members
      ensures members == Unseat(old(members), k, roomName)
    {
      if roomName !in members {
        return;
      }
      members := members[roomName := members[roomName] - {k}];
      if members[roomName] == {} {
        members := members - {roomName};
      }
    }

    method Insert(k: Socket, roomName: string)
      modifies this`members
      ensures members == Seat(old(members), k, roomName)
    {
      if roomName !in members {
        members := members[roomName := {}];
      }
      members := members[roomName := members[roomName] + {k}];
    }

    method SetSessionRoom(k: Socket, room: Room)
      requires k in sessions
      modifies this`sessions
      ensures sessions == old(sessions)[k := old(sessions)[k].(room := room)]
    {
      sessions := sessions[k := sessions[k].(room := room)];
    }

    /** The membership writes of a join; true when one of them failed. */
    method PersistJoin(u: string, from: int, to: int, fault: Fault) returns (failed: bool)
      modifies this`db
      ensures failed <==> (fault == ClearFails && from != to) || fault == SetFails || !CanSetRow(old(db), u, to)
      ensures db == old(db).(membership :=
                if fault == ClearFails && from != to then old(db).membership
                else if failed then (if from != to then ClearRow(old(db).membership, u, from) else old(db).membership)
                else Rejoin(old(db).membership, u, from, to, nodeId))
    {
      if from != to {
        if fault == ClearFails {
          return true;
        }
        db := db.(membership := db.membership - {(u, from)});
      }
      if fault == SetFails || u !in db.users || to !in db.rooms {
        return true;
      }
      db := db.(membership := db.membership[(u, to) := nodeId]);
      return false;
    }

    /** RoomManager::joinRoom, with the point at which the database fails as an input. */
    method JoinRoom(roomName: string, k: Socket, fault: Fault) returns (ok: bool)
      requires k in sessions
      modifies this`sessions, this`members, this`db
      ensures (State(), ok) == ChatNode.JoinRoom(old(State()), k, roomName, fault)
      ensures k in sessions
    {
      hide Seat, Unseat;
      var name := if roomName == "" then LOBBY.name else roomName;
      var s := sessions[k];
      if name !in knownRooms {
        return false;
      }
      RemoveSocketLocked(k, s.room.name);
      SetSessionRoom(k, knownRooms[name]);
      Insert(k, name);
      if !s.auth {
        return true;
      }
      var failed := PersistJoin(s.user.name, s.room.id, knownRooms[name].id, fault);
      if failed {
        RollBack(k, name, s.room.name);
      }
      return !failed;
    }

    /** The in-memory half of a failed join: back to the previous room, or to the Lobby when that is gone. */
    method RollBack(k: Socket, from: string, to: string)
      requires k in sessions
      modifies this`sessions, this`members
      ensures members == Seat(Unseat(old(members), k, from), k, if to in knownRooms then to else LOBBY.name)
      ensures sessions
           == old(sessions)[k := old(sessions)[k].(room := if to in knownRooms then knownRooms[to] else LOBBY)]
    {
      hide Seat, Unseat;
      RemoveSocketLocked(k, from);
      if to in knownRooms {
        SetSessionRoom(k, knownRooms[to]);
        Insert(k, to);
      } else {
        SetSessionRoom(k, LOBBY);
        Insert(k, LOBBY.name);
      }
    }

    /** RoomManager::leaveAll on an open session; a failing database call is caught and changes nothing else. */
    method LeaveAll(k: Socket, dbOk: bool)
      requires k in sessions
      modifies this`sessions, this`members, this`db
      ensures State() == ChatNode.LeaveAll(old(State()), k, dbOk)
      ensures k in sessions
    {
      hide Unseat, ClearRows;
      var s := sessions[k];
      RemoveSocketLocked(k, s.room.name);
      SetSessionRoom(k, LOBBY);
      if s.auth && s.user.name != "" && dbOk {
        db := db.(membership := ClearRows(db.membership, s.user.name));
      }
    }

    /** RoomManager::createRoom. */
    method CreateRoom(name: string, private: bool, creatorEmail: string, dbOk: bool) returns (ok: bool)
      modifies this
      ensures (State(), ok) == ChatNode.CreateRoom(old(State()), name, private, creatorEmail, dbOk)
    {
      if name in knownRooms {
        return false;
      }
      if !dbOk || name in db.rooms.Values {
        return false;
      }
      var id := db.nextRoom;
      db := db.(rooms := db.rooms[id := name], nextRoom := id + 1);
      knownRooms := knownRooms[name := Room(id, name, private)];
      if creatorEmail != "" {
        AddToAllowList(id, creatorEmail, true);
      }
      return true;
    }

    method AddToAllowList(room: int, email: string, creator: bool)
      modifies this`db
      ensures State() == AddAllow(old(State()), room, email, creator)
    {
      if (room, email) !in db.allow {
        db := db.(allow := db.allow[(room, email) := creator]);
      }
    }

    /** Puts every one of these sockets into the Lobby. */
    method SeatAll(sockets: set<Socket>)
      modifies this`members
      ensures members == SeatMany(old(members), sockets)
    {
      hide *;
      var todo := sockets;
      ghost var done: set<Socket> := {};
      SeatManyNone(members);
      while todo != {}
        invariant done !! todo && done + todo == sockets
        invariant members == SeatMany(old(members), done)
        decreases |todo|
      {
        var k :| k in todo;
        SeatManyAdd(old(members), done, k);
        Insert(k, LOBBY.name);
        todo, done := todo - {k}, done + {k};
      }
      assert done == sockets;
    }

    /** The in-memory half of deleteRoom. */
    method ForgetRoomLocked(name: string) returns (sockets: set<Socket>)
      requires name in knownRooms && name != LOBBY.name
      modifies this`knownRooms, this`members
      ensures sockets == Sitting(old(State()), name)
      ensures State() == ForgetRoom(old(State()), name)
    {
      sockets := {};
      if name in members {
        sockets := members[name];
      }
      members := members - {name};
      knownRooms := knownRooms - {name};
      SeatAll(sockets);
      assert Sitting(old(State()), LOBBY.name) == if LOBBY.name in old(members) - {name}
        then (old(members) - {name})[LOBBY.name] else {};
    }

    /** RoomManager::deleteRoom. */
    method DeleteRoom(name: string, dbOk: bool) returns (ok: bool)
      modifies this
      ensures (State(), ok) == ChatNode.DeleteRoom(old(State()), name, dbOk)
    {
      ghost var before := State();
      if name == LOBBY.name || name == GENERAL.name || name !in knownRooms {
        return false;
      }
      var id := knownRooms[name].id;
      var sockets := ForgetRoomLocked(name);
      if !dbOk || id < 3 || id !in db.rooms {
        return false;
      }
      dropped := dropped + multiset(set m | m in db.messages && db.messages[m] == id);
      db := db.(rooms := db.rooms - {id},
                allow := map x | x in db.allow && x.0 != id :: db.allow[x],
                membership := map x | x in db.membership && x.1 != id :: db.membership[x],
                messages := map m | m in db.messages && db.messages[m] != id :: db.messages[m]);
      ghost var gone := State();
      assert gone == DropRoom(ForgetRoom(before, name), id);
      MoveToLobby(id, sockets);
      DeleteRoomIs(before, name, dbOk);
      return true;
    }

    /** The second half: every live session of the room moves to the Lobby, with its rows. */
    method MoveToLobby(id: int, sockets: set<Socket>)
      requires id != LOBBY.id && forall x :: x in db.membership ==> x.1 != id
      modifies this`sessions, this`db
      ensures State() == Relocated(old(State()), sockets)
    {
      hide Relocated, MovedOne;
      ghost var before := State();
      RelocatedNone(before);
      var todo := sockets;
      assert sockets - todo == {};
      while todo != {}
        invariant todo <= sockets
        invariant State() == Relocated(before, sockets - todo)
        decreases |todo|
      {
        var k :| k in todo;
        RelocatedStep(before, sockets - todo, k, id);
        assert sockets - (todo - {k}) == (sockets - todo) + {k};
        todo := todo - {k};
        if k in sessions {
          MoveOne(k, id);
        }
      }
      assert sockets - todo == sockets;
    }

    method MoveOne(k: Socket, id: int)
      requires k in sessions
      modifies this`sessions, this`db
      ensures State() == MovedOne(old(State()), k, id)
    {
      var s := sessions[k];
      sessions := sessions[k := s.(room := LOBBY)];
      if s.auth && s.user.name != "" && s.user.name in db.users && LOBBY.id in db.rooms {
        db := db.(membership := db.membership - {(s.user.name, id)});
        db := db.(membership := db.membership[(s.user.name, LOBBY.id) := nodeId]);
      }
    }

    /** RoomManager::broadcast: the sockets a send is attempted to. */
    method Broadcast(roomName: string, skip: Option<Socket>) returns (sent: seq<Socket>)
      ensures multiset(sent) == multiset(Except(Sitting(State(), roomName), skip))
    {
      var sockets := if roomName in members then members[roomName] else {};
      sent := SendEach(sockets, skip);
    }

    /** RoomManager::broadcastAll: exactly one send is attempted to every member socket but the skipped one. */
    method BroadcastAll(skip: Option<Socket>) returns (sent: seq<Socket>)
      requires Index(State())
      ensures multiset(sent) == multiset(Except(AllMembers(State()), skip))
      ensures Seated(State(), {}) ==> multiset(sent) == multiset(Except(sessions.Keys, skip))
    {
      hide Index, Seated, MembersOf, Except;
      AllMembersIs(State());
      sent := SendRooms(members, knownRooms, skip, State());
    }

    // -------------------------------------------------------------- connection manager

    /** ConnectionManager::openSession. */
    method OpenSession(k: Socket, guest: User)
      requires Valid() && k !in sessions
      modifies this
      ensures Valid() && Opens(old(State()), State(), k, guest)
      ensures State() == Open(old(State()), k, guest)
    {
      hide Core, Opens, ChatNode.JoinRoom;
      OpenOutcome(State(), k, guest);
      sessions := sessions[k := Session(guest, LOBBY, false)];
      var ok := JoinRoom(LOBBY.name, k, NoFault);
    }

    /** ConnectionManager::removeSession, with the LOGOUT event applied here. */
    method RemoveSession(k: Socket)
      requires Valid()
      modifies this
      ensures Valid() && Closes(old(State()), State(), k)
      ensures State() == Remove(old(State()), k)
    {
      hide Unseat, ClearRows, Core, Closes;
      RemoveOutcome(State(), k);
      if k !in sessions {
        return;
      }
      var s := sessions[k];
      sessions := sessions - {k};
      RemoveSocketLocked(k, s.room.name);
      if s.auth && s.user.name != "" {
        db := db.(membership := ClearRows(db.membership, s.user.name));
        ApplyLogoutEvent(s.user.name);
      }
    }

    /** ConnectionManager::hasSession: some logged-in session has this user's email. */
    method HasSession(user: User) returns (found: bool)
      ensures found <==> exists k :: k in sessions && sessions[k].auth && sessions[k].user.email == user.email
    {
      var todo := sessions.Keys;
      while todo != {}
        invariant todo <= sessions.Keys
        invariant forall k :: k in sessions && k !in todo ==>
                  !(sessions[k].auth && sessions[k].user.email == user.email)
        decreases |todo|
      {
        var k :| k in todo;
        if sessions[k].auth && sessions[k].user.email == user.email {
          return true;
        }
        todo := todo - {k};
      }
      return false;
    }

    /** findSessionByUsername. */
    method FindSession(name: string) returns (k: Socket, found: bool)
      ensures found <==> LoggedInAs(State(), name) != {}
      ensures found ==> k in LoggedInAs(State(), name)
    {
      k, found := 0, false;
      var todo := sessions.Keys;
      while todo != {}
        invariant todo <= sessions.Keys
        invariant forall j :: j in sessions && j !in todo ==> !(sessions[j].auth && sessions[j].user.name == name)
        decreases |todo|
      {
        var j :| j in todo;
        if sessions[j].auth && sessions[j].user.name == name {
          assert j in LoggedInAs(State(), name);
          return j, true;
        }
        todo := todo - {j};
      }
      assert LoggedInAs(State(), name) == {};
    }

    // -------------------------------------------------------------- events

    method ApplyLoginEvent(u: string, node: string)
      modifies this`db
      ensures State() == ApplyLogin(old(State()), u, node)
    {
      if u == "" || node == "" {
        return;
      }
      if u in db.online && db.online[u] != node {
        return;
      }
      db := db.(online := db.online[u := node]);
    }

    method ApplyLogoutEvent(u: string)
      modifies this`db
      ensures State() == ApplyLogout(old(State()), u)
    {
      if u != "" {
        db := db.(online := db.online - {u});
        db := db.(membership := ClearRows(db.membership, u));
      }
    }

    method EvictSession(k: Socket, guest: User)
      requires Core(State()) && k in sessions
      modifies this`sessions, this`members, this`db
      ensures State() == SendToLobby(old(State()), {k}, guest)
      ensures Core(State())
    {
      EvictOne(State(), k, guest);
      hide Core, ChatNode.LeaveAll, ChatNode.JoinRoom, SendToLobby;
      sessions := sessions[k := sessions[k].(auth := false)];
      LeaveAll(k, true);
      sessions := sessions[k := sessions[k].(user := guest)];
      var ok := JoinRoom(LOBBY.name, k, NoFault);
    }

    /** The session loop of a RECONNECT to another node: every session of the user becomes a guest in the
        Lobby. */
    method EvictUser(u: string, guest: User)
      requires Core(State())
      modifies this`sessions, this`members, this`db
      ensures State() == SendToLobby(old(State()), LoggedInAs(old(State()), u), guest)
      ensures Core(State())
    {
      hide Core, SendToLobby, LoggedInAs;
      ghost var before := State();
      ghost var ks := LoggedInAs(before, u);
      SendNobody(before, guest);
      assert ks <= sessions.Keys by { LoginsOpen(before, u); }
      var snapshot := sessions;
      var todo := snapshot.Keys;
      while todo != {}
        invariant todo <= snapshot.Keys
        invariant Core(State())
        invariant State() == if ks <= todo then before else SendToLobby(before, ks, guest)
        decreases |todo|
      {
        var k :| k in todo;
        OnlyLogin(before, u, k);
        if snapshot[k].auth && snapshot[k].user.name == u {
          EvictSession(k, guest);
        }
        todo := todo - {k};
      }
      assert ks <= todo <==> ks == {};
    }

    method ApplyReconnectEvent(u: string, node: string, guest: User)
      requires Core(State())
      modifies this
      ensures State() == ApplyReconnect(old(State()), u, node, guest)
    {
      if u == "" || node == "" {
        return;
      }
      ghost var before := State();
      db := db.(online := db.online[u := node]);
      db := db.(membership := MoveRows(db.membership, u, node));
      TablesCore(before, State());
      hide Core;
      if node != nodeId {
        EvictUser(u, guest);
      }
    }

    method ApplyRoomJoinEvent(u: string, node: string, prev: string, room: string)
      modifies this`db
      ensures State() == ApplyRoomJoin(old(State()), u, node, prev, room)
    {
      var name := if room == "" then LOBBY.name else room;
      if u == "" || node == "" || name !in knownRooms {
        return;
      }
      if prev != "" && prev != name && prev in knownRooms {
        db := db.(membership := db.membership - {(u, knownRooms[prev].id)});
      }
      if u in db.users {
        db := db.(membership := db.membership[(u, knownRooms[name].id) := node]);
      }
    }

    method ApplyMessageEvent(id: string, u: string, room: string)
      modifies this`db, this`pushed
      ensures State() == ApplyMessage(old(State()), id, u, room)
    {
      var name := if room == "" then LOBBY.name else room;
      if name !in knownRooms || u !in db.users || knownRooms[name].id !in db.rooms {
        return;
      }
      if id !in db.messages {
        db := db.(messages := db.messages[id := knownRooms[name].id]);
        pushed := pushed + multiset{id};
      }
    }

    method ApplyUserCreatedEvent(user: User)
      modifies this`db
      ensures State() == ApplyUserCreated(old(State()), user)
    {
      if user.name == "" || user.email == "" {
        return;
      }
      if user.name !in db.users && forall x :: x in db.users ==> db.users[x].email != user.email {
        db := db.(users := db.users[user.name := user]);
      }
    }

    method ApplyRoomCreatedEvent(creator: string, name: string, private: bool)
      modifies this
      ensures State() == ApplyRoomCreated(old(State()), creator, name, private)
    {
      hide ChatNode.CreateRoom, AddAllow;
      if name == "" {
        return;
      }
      var email := "";
      if creator in db.users {
        email := db.users[creator].email;
      }
      if name !in knownRooms {
        var ok := CreateRoom(name, private, email, true);
      } else if email != "" {
        AddToAllowList(knownRooms[name].id, email, true);
      }
    }

    method ApplyAclAddEvent(u: string, name: string, creator: bool)
      modifies this`db
      ensures State() == ApplyAclAdd(old(State()), u, name, creator)
    {
      hide AddAllow;
      if u == "" || name == "" || name !in knownRooms || u !in db.users {
        return;
      }
      AddToAllowList(knownRooms[name].id, db.users[u].email, creator);
    }

    method ApplyRoomDeletedEvent(name: string)
      modifies this
      ensures State() == ApplyRoomDeleted(old(State()), name)
    {
      if name == "" || name == LOBBY.name || name == GENERAL.name {
        return;
      }
      if name in knownRooms {
        hide ChatNode.DeleteRoom;
        var ok := DeleteRoom(name, true);
      }
    }

    method ApplyRoomLeaveEvent(u: string, name: string)
      modifies this`db
      ensures State() == ApplyRoomLeave(old(State()), u, name)
    {
      if u == "" || name == "" || name !in knownRooms {
        return;
      }
      db := db.(membership := db.membership - {(u, knownRooms[name].id)});
    }

    method RemoveFromAllowList(name: string, u: string)
      modifies this`db
      ensures State() == RemoveAllow(old(State()), name, u)
    {
      if name in knownRooms && u in db.users {
        db := db.(allow := db.allow - {(knownRooms[name].id, db.users[u].email)});
      }
    }

    /** The session loop of a ROOM_KICK: every session of the user in the room joins the Lobby. */
    method ApplyKickEvent(u: string, roomName: string)
      requires Core(State())
      modifies this
      ensures State() == ApplyKick(old(State()), u, roomName)
      ensures Core(State())
    {
      hide Core, ApplyKick, InRoomAs, ChatNode.JoinRoom, Joined, RemoveAllow, LoggedInAs;
      ghost var before := State();
      KickEventCases(before, u, roomName);
      if u == "" || roomName == "" {
        return;
      }
      RemoveFromAllowList(roomName, u);
      ghost var cut := State();
      ghost var ks := InRoomAs(before, u, roomName);
      assert cut.sessions == before.sessions && Core(cut) by { CutFrame(before, roomName, u); }
      var snapshot := sessions;
      var todo := snapshot.Keys;
      while todo != {}
        invariant todo <= snapshot.Keys
        invariant State() == if ks <= todo then cut else ApplyKick(before, u, roomName)
        decreases |todo|
      {
        var k :| k in todo;
        OnlyInRoom(before, u, roomName, k);
        if snapshot[k].auth && snapshot[k].user.name == u && snapshot[k].room.name == roomName {
          LobbyJoin(cut, k);
          var ok := JoinRoom(LOBBY.name, k, NoFault);
        }
        todo := todo - {k};
      }
      assert ks <= todo <==> ks == {};
    }

    // -------------------------------------------------------------- packets

    /** The common tail of LOGIN and REGISTER. */
    method FinishLogin(k: Socket, u: User)
      requires k in sessions
      modifies this
      ensures State() == Authenticate(old(State()), k, u)
    {
      hide ChatNode.JoinRoom, ApplyLogin, ApplyRoomJoin;
      var prev := sessions[k].room.name;
      sessions := sessions[k := sessions[k].(user := u, auth := true)];
      var ok := JoinRoom(LOBBY.name, k, NoFault);
      ApplyLoginEvent(u.name, nodeId);
      ApplyRoomJoinEvent(u.name, nodeId, prev, LOBBY.name);
    }

    method HandleLogin(k: Socket, name: string, passwordOk: bool) returns (granted: bool)
      requires Valid() && k in sessions
      modifies this
      ensures Valid()
      ensures granted <==> LoginOk(old(State()), name, passwordOk)
      ensures if granted then LogsIn(old(State()), State(), k, old(db).users[name]) else State() == old(State())
      ensures State() == Login(old(State()), k, name, passwordOk)
    {
      hide Authenticate, Core, LogsIn;
      LoginOutcome(State(), k, name, passwordOk);
      granted := false;
      if name !in db.users || !passwordOk {
        return;
      }
      var found := HasSession(db.users[name]);
      if found || name in db.online {
        return;
      }
      granted := true;
      FinishLogin(k, db.users[name]);
    }

    method HandleRegister(k: Socket, name: string, password: string, email: string) returns (granted: bool)
      requires Valid() && k in sessions
      modifies this
      ensures Valid()
      ensures granted <==> RegisterOk(old(db), name, password, email)
      ensures if granted then LogsIn(old(State()), State(), k, User(name, email, USER))
              && db.users == old(db).users[name := User(name, email, USER)]
              else State() == old(State())
      ensures State() == Register(old(State()), k, name, password, email)
    {
      hide Authenticate, Core, LogsIn;
      RegisterOutcome(State(), k, name, password, email);
      granted := false;
      var u := User(name, email, USER);
      if name in db.users {
        return;
      }
      if name == "" || password == "" || email == "" {
        return;
      }
      if exists x :: x in db.users && db.users[x].email == email {
        return;
      }
      granted := true;
      db := db.(users := db.users[name := u]);
      FinishLogin(k, u);
    }

    method HandleLogout(k: Socket, guest: User)
      requires Valid() && k in sessions
      modifies this
      ensures Valid() && LogsOut(old(State()), State(), k, guest)
      ensures State() == Logout(old(State()), k, guest)
    {
      hide ChatNode.LeaveAll, ChatNode.JoinRoom, ApplyLogout, Core, LogsOut;
      LogoutOutcome(State(), k, guest);
      var s := sessions[k];
      LeaveAll(k, true);
      sessions := sessions[k := sessions[k].(auth := false)];
      sessions := sessions[k := sessions[k].(user := guest)];
      assert State() == SetUser(ChatNode.LeaveAll(old(State()), k, true), k, guest, false);
      var ok := JoinRoom(LOBBY.name, k, NoFault);
      if s.auth && s.user.name != "" {
        ApplyLogoutEvent(s.user.name);
      }
    }

    /** Whether a RECONNECT is granted: the user is online, but on no session here and on no live node. */
    method MayReconnect(name: string, live: set<string>) returns (may: bool)
      ensures may <==> ReconnectOk(State(), name, live)
      ensures may ==> name in db.users && name in db.online
    {
      if name !in db.users || name !in db.online {
        return false;
      }
      var mine := HasSession(db.users[name]);
      var ownerLive := if db.online[name] == nodeId then mine else db.online[name] in live;
      return !mine && !ownerLive;
    }

    /** The room a RECONNECT asks for, or the Lobby when it is unknown or closed to the user. */
    method PickRoom(u: User, requested: string) returns (room: string)
      ensures room == ResumeRoom(State(), u, requested)
    {
      room := if requested == "" then LOBBY.name else requested;
      if room !in knownRooms
        || (knownRooms[room].private && u.kind != ADMIN && (knownRooms[room].id, u.email) !in db.allow) {
        room := LOBBY.name;
      }
    }

    method HandleReconnect(k: Socket, name: string, requested: string, live: set<string>, guest: User)
      returns (granted: bool)
      requires Valid() && k in sessions
      modifies this
      ensures Valid()
      ensures granted <==> ReconnectOk(old(State()), name, live)
      ensures if granted then var into := ResumeRoom(old(State()), old(db).users[name], requested);
                              into in old(knownRooms) && Resumes(old(State()), State(), k, old(db).users[name], into)
              else State() == old(State())
      ensures State() == Reconnect(old(State()), k, name, requested, live, guest)
    {
      hide Resumes, Core, CanReconnect, ReconnectRoom, ReconnectOk, ResumeRoom, MoveRows, ChatNode.JoinRoom, AddAllow,
        ApplyReconnect, ApplyRoomJoin, Reconnected, Joined;
      ghost var before := State();
      ReconnectTerms(before, name, requested, live);
      ReconnectOutcome(before, k, name, requested, live, guest);
      granted := MayReconnect(name, live);
      if !granted {
        return;
      }
      ReconnectReady(before, k, name, requested, live, guest);
      var u, prev := db.users[name], sessions[k].room.name;
      var room := PickRoom(u, requested);
      sessions := sessions[k := sessions[k].(user := u, auth := true)];
      db := db.(online := db.online[name := nodeId]);
      db := db.(membership := MoveRows(db.membership, name, nodeId));
      assert State() == Claimed(before, k, u);
      var ok := JoinRoom(room, k, NoFault);
      if room != LOBBY.name && room in knownRooms && !knownRooms[room].private {
        AddToAllowList(knownRooms[room].id, u.email, false);
      }
      ApplyReconnectEvent(name, nodeId, guest);
      ApplyRoomJoinEvent(name, nodeId, prev, room);
    }

    method HandleRoomJoin(k: Socket, roomName: string) returns (granted: bool)
      requires Valid() && k in sessions
      modifies this
      ensures Valid()
      ensures var n, name := old(State()), NameOr(roomName, LOBBY.name);
              && (granted <==> EnterOk(n, n.sessions[k], name))
              && if granted then Enters(n, State(), k, name) && Lists(n, State(), n.sessions[k], n.known[name])
                 else State() == n
      ensures State() == PacketJoin(old(State()), k, roomName)
    {
      hide ChatNode.JoinRoom, ApplyRoomJoin, Core, Enters, Lists;
      JoinOutcome(State(), k, roomName);
      granted := false;
      var name := if roomName == "" then LOBBY.name else roomName;
      if name !in knownRooms {
        return;
      }
      var s, room := sessions[k], knownRooms[name];
      if room.private && !IsAdmin(s) && (!s.auth || (room.id, s.user.email) !in db.allow) {
        return;
      }
      granted := true;
      var ok := JoinRoom(name, k, NoFault);
      if !ok {
        return;
      }
      if s.auth && !room.private {
        AddToAllowList(room.id, s.user.email, false);
      }
      if s.auth {
        ApplyRoomJoinEvent(s.user.name, nodeId, s.room.name, name);
      }
    }

    method HandleRoomLeave(k: Socket)
      requires Valid() && k in sessions
      modifies this
      ensures Valid() && LOBBY.name in old(knownRooms) && Enters(old(State()), State(), k, LOBBY.name)
      ensures db.allow == old(db).allow
      ensures State() == PacketLeave(old(State()), k)
    {
      hide ChatNode.JoinRoom, ApplyRoomJoin, Core, Enters;
      LeaveOutcome(State(), k);
      var s := sessions[k];
      var ok := JoinRoom(LOBBY.name, k, NoFault);
      if ok && s.auth {
        ApplyRoomJoinEvent(s.user.name, nodeId, s.room.name, LOBBY.name);
      }
    }

    /** A message of a logged-in user is stored and pushed; a guest's is only pushed, and leaves no trace. */
    method HandleMessage(k: Socket, id: string, text: string) returns (guestPush: seq<Socket>)
      requires Valid() && k in sessions
      modifies this
      ensures Valid()
      ensures var n, s := old(State()), old(sessions[k]);
              State() == if text != "" && s.auth && id !in n.db.messages
                         then n.(db := n.db.(messages := n.db.messages[id := s.room.id]),
                                 pushed := n.pushed + multiset{id})
                         else n
      ensures State() == SendMessage(old(State()), k, id, text)
      ensures multiset(guestPush) ==
              multiset(if text == "" || sessions[k].auth then {} else Sitting(State(), sessions[k].room.name))
    {
      hide Core, ApplyMessage, Sitting;
      MessageOutcome(State(), k, id, text);
      guestPush := [];
      if text == "" {
        return;
      }
      var s := sessions[k];
      if s.auth {
        ApplyMessageEvent(id, s.user.name, s.room.name);
      } else {
        guestPush := Broadcast(s.room.name, None);
      }
    }

    method HandleRoomCreate(k: Socket, name: string, private: bool) returns (granted: bool)
      requires Valid() && k in sessions
      modifies this
      ensures Valid()
      ensures granted <==>
              old(sessions[k]).auth && name != "" && name !in old(knownRooms) && name !in old(db).rooms.Values
      ensures if granted then Creates(old(State()), State(), name, private, old(sessions[k]).user.email)
              else State() == old(State())
      ensures State() == PacketCreate(old(State()), k, name, private)
    {
      hide ApplyRoomCreated, Core, Creates, AddAllow;
      CreateOutcome(State(), k, name, private);
      granted := false;
      var s := sessions[k];
      if !s.auth || name == "" {
        return;
      }
      granted := CreateRoom(name, private, s.user.email, true);
      if granted {
        ApplyRoomCreatedEvent(s.user.name, name, private);
      }
    }

    method HandleInvite(k: Socket, roomName: string, invitee: string) returns (granted: bool)
      requires Valid() && k in sessions
      modifies this
      ensures Valid()
      ensures var n := old(State());
              var name := NameOr(roomName, n.sessions[k].room.name);
              && (granted <==> InviteOk(n, n.sessions[k], name, invitee))
              && if granted
                 then var x := (n.known[name].id, n.db.users[invitee].email);
                      State() == n.(db := n.db.(allow := if x in n.db.allow then n.db.allow
                                                else n.db.allow[x := false]))
                 else State() == n
      ensures State() == PacketInvite(old(State()), k, roomName, invitee)
    {
      hide AddAllow, ApplyAclAdd, Core;
      InviteOutcome(State(), k, roomName, invitee);
      granted := false;
      var s := sessions[k];
      var name := if roomName == "" then s.room.name else roomName;
      if !s.auth || name == "" || invitee == "" || name !in knownRooms {
        return;
      }
      var room := knownRooms[name];
      if !room.private && !IsAdmin(s) {
        return;
      }
      if !IsAdmin(s) && ((room.id, s.user.email) !in db.allow || !db.allow[(room.id, s.user.email)]) {
        return;
      }
      if invitee !in db.users {
        return;
      }
      granted := true;
      AddToAllowList(room.id, db.users[invitee].email, false);
      ApplyAclAddEvent(invitee, name, false);
    }

    method HandleRoomDelete(k: Socket, roomName: string) returns (granted: bool)
      requires Valid() && k in sessions
      modifies this
      ensures Valid()
      ensures var n := old(State());
              var name := NameOr(roomName, n.sessions[k].room.name);
              && (granted <==> DeleteOk(n, n.sessions[k], name))
              && if granted then Deletes(n, State(), name) else State() == n
      ensures State() == PacketDelete(old(State()), k, roomName)
    {
      hide Core, Deletes;
      DeleteOutcome(State(), k, roomName);
      NoNamelessRoom(State());
      granted := false;
      var s := sessions[k];
      var name := if roomName == "" then s.room.name else roomName;
      if !IsAdmin(s) || name == "" {
        return;
      }
      if name == LOBBY.name || name == GENERAL.name {
        return;
      }
      DeleteGranted(State(), name);
      hide ChatNode.DeleteRoom, ApplyRoomDeleted;
      granted := DeleteRoom(name, true);
      if granted {
        ApplyRoomDeletedEvent(name);
      }
    }

    /** Returns the session the search came upon. */
    method HandleKick(k: Socket, roomName: string, target: string) returns (found: Socket)
      requires Valid() && k in sessions
      modifies this
      ensures Valid()
      ensures var n := old(State());
              var name := NameOr(roomName, n.sessions[k].room.name);
              if KickOk(n, n.sessions[k], name, target)
              then && (LoggedInAs(n, target) == {} || found in LoggedInAs(n, target))
                   && db.allow == n.db.allow - {(n.known[name].id, n.db.users[target].email)}
                   && forall j :: j in sessions ==> !SatIn(sessions[j], name, target)
              else State() == n
      ensures State() == PacketKick(old(State()), k, roomName, target, found)
    {
      hide InRoomAs, Core, LoggedInAs;
      ghost var before := State();
      found := 0;
      var s := sessions[k];
      var name := if roomName == "" then s.room.name else roomName;
      if !s.auth || name == "" || target == "" || name == LOBBY.name || target == s.user.name {
        return;
      }
      if name !in knownRooms {
        return;
      }
      var room := knownRooms[name];
      if !IsAdmin(s) && ((room.id, s.user.email) !in db.allow || !db.allow[(room.id, s.user.email)]) {
        return;
      }
      if target !in db.users {
        return;
      }
      assert KickOk(before, s, name, target);
      hide ApplyKick, KickOne, RemoveAllow, Enters;
      found := KickTarget(name, target);
      KickOutcome(before, k, roomName, target, found);
    }

    /** The kick itself: off the list, the session found to the Lobby, then the event. */
    method KickTarget(name: string, target: string) returns (found: Socket)
      requires Valid()
      modifies this
      ensures Valid()
      ensures LoggedInAs(old(State()), target) == {} || found in LoggedInAs(old(State()), target)
      ensures var n := old(State());
              var cut := RemoveAllow(n, name, target);
              && LoggedInAs(n, target) <= cut.sessions.Keys
              && State() == ApplyKick(if found in LoggedInAs(n, target) then KickOne(cut, found, target, name)
                                      else cut, target, name)
    {
      hide InRoomAs, Core, ApplyKick, ChatNode.JoinRoom, ApplyRoomJoin, RemoveAllow, LoggedInAs;
      ghost var before := State();
      RemoveFromAllowList(name, target);
      ghost var cut := State();
      assert cut.sessions == before.sessions && Core(cut) && LoggedInAs(cut, target) == LoggedInAs(before, target) by {
        CutFrame(before, name, target);
      }
      LoginsOpen(cut, target);
      var present;
      found, present := FindSession(target);
      if present && sessions[found].room.name == name {
        assert Core(KickOne(cut, found, target, name)) by {
          LoginIs(cut, target, found);
          KickOneCore(cut, found, target, name);
        }
        var ok := JoinRoom(LOBBY.name, found, NoFault);
        ApplyRoomJoinEvent(target, nodeId, name, LOBBY.name);
      }
      ApplyKickEvent(target, name);
    }

    // -------------------------------------------------------------- one action after the other

    /** GossipManager::applyEvent. */
    method ApplyPeerEvent(e: Event, guest: User)
      requires Valid()
      modifies this
      ensures Valid() && Does(old(State()), State(), e, guest)
      ensures State() == ApplyEvent(old(State()), e, guest)
    {
      hide Does, Core, ApplyEvent, ApplyLogin, ApplyReconnect, ApplyLogout, ApplyUserCreated, ApplyRoomCreated,
        ApplyAclAdd, ApplyRoomDeleted, ApplyKick, ApplyRoomJoin, ApplyRoomLeave, ApplyMessage;
      PeerOutcome(State(), e, guest);
      ApplyEventIs(State(), e, guest);
      match e
      case LoginEvent(u, node) => ApplyLoginEvent(u, node);
      case ReconnectEvent(u, node) => ApplyReconnectEvent(u, node, guest);
      case LogoutEvent(u) => ApplyLogoutEvent(u);
      case UserCreatedEvent(u) => ApplyUserCreatedEvent(u);
      case RoomCreatedEvent(u, room, private) => ApplyRoomCreatedEvent(u, room, private);
      case AclAddEvent(u, room, creator) => ApplyAclAddEvent(u, room, creator);
      case RoomDeletedEvent(room) => ApplyRoomDeletedEvent(room);
      case KickEvent(u, room) => ApplyKickEvent(u, room);
      case RoomJoinEvent(u, node, prev, room) => ApplyRoomJoinEvent(u, node, prev, room);
      case RoomLeaveEvent(u, room) => ApplyRoomLeaveEvent(u, room);
      case MessageEvent(id, u, room) => ApplyMessageEvent(id, u, room);
    }

    /** dispatchPacket and processPacket, connections and peer events: one step of the node. A packet without an open
        session is dropped. The action done is the action asked for, with the session a kick came upon filled in. */
    method Process(a: Action) returns (ghost done: Action)
      requires Valid()
      modifies this
      ensures Valid() && State() == Step(old(State()), done)
      ensures done == a || (a.DoKick? && done.DoKick? && done == a.(found := done.found))
    {
      hide Core, Step, Open, Remove, Login, Register, Reconnect, Logout, SendMessage, PacketJoin, PacketLeave,
        PacketCreate, PacketInvite, PacketDelete, ApplyEvent, Opens, Closes, LogsIn, LogsOut, Resumes, Enters, Creates,
        Deletes, InviteOk, KickOk, LoginOk, RegisterOk, ReconnectOk, ResumeRoom, EnterOk, DeleteOk, AddAllow, Does;
      done := a;
      ghost var before := State();
      if !a.DoConnect? && !a.DoDisconnect? && !a.DoPeer? && a.k !in sessions {
        NotPossible(before, a);
        return;
      }
      var granted;
      match a
      case DoConnect(k, guest) =>
        if k in sessions { NotPossible(before, a); } else { StepIs(before, a); OpenSession(k, guest); }
      case DoDisconnect(k) => StepIs(before, a); RemoveSession(k);
      case DoLogin(k, name, ok) => StepIs(before, a); granted := HandleLogin(k, name, ok);
      case DoRegister(k, name, password, email) =>
        StepIs(before, a);
        granted := HandleRegister(k, name, password, email);
      case DoReconnect(k, name, room, live, guest) =>
        StepIs(before, a);
        granted := HandleReconnect(k, name, room, live, guest);
      case DoLogout(k, guest) => StepIs(before, a); HandleLogout(k, guest);
      case DoMessage(k, id, text) => StepIs(before, a); var sent := HandleMessage(k, id, text);
      case DoRoomJoin(k, room) => StepIs(before, a); granted := HandleRoomJoin(k, room);
      case DoRoomLeave(k) => StepIs(before, a); HandleRoomLeave(k);
      case DoRoomCreate(k, room, private) => StepIs(before, a); granted := HandleRoomCreate(k, room, private);
      case DoInvite(k, room, name) => StepIs(before, a); granted := HandleInvite(k, room, name);
      case DoRoomDelete(k, room) => StepIs(before, a); granted := HandleRoomDelete(k, room);
      case DoKick(k, room, name, _) => done := ProcessKick(k, room, name);
      case DoPeer(e, guest) => StepIs(before, a); ApplyPeerEvent(e, guest);
    }

    method ProcessKick(k: Socket, room: string, name: string) returns (ghost done: Action)
      requires Valid() && k in sessions
      modifies this
      ensures Valid() && State() == Step(old(State()), done) && done.DoKick?
      ensures done == DoKick(k, room, name, done.found)
    {
      hide Core, Step, PacketKick, KickOk, InRoomAs, LoggedInAs;
      ghost var before := State();
      var found := HandleKick(k, room, name);
      done := DoKick(k, room, name, found);
      KickStep(before, k, room, name, found);
    }

    /** Any number of actions: the run of the node, so that every law of runs is a law of the server. Here the law of
        private rooms. */
    method Serve(actions: seq<Action>) returns (ghost done: seq<Action>)
      requires Valid() && Access(State())
      modifies this
      ensures Valid() && |done| == |actions| && State() == Run(old(State()), done)
      ensures forall k :: k in sessions && sessions[k].room.private ==>
                sessions[k].auth && (sessions[k].user.kind == ADMIN
                                     || (sessions[k].room.id, sessions[k].user.email) in db.allow)
    {
      hide Core, Step, Access;
      done := [];
      var i := 0;
      while i < |actions|
        invariant 0 <= i <= |actions| && |done| == i
        invariant Valid() && State() == Run(old(State()), done)
      {
        ghost var next := Process(actions[i]);
        RunAppend(old(State()), done, [next]);
        RunOne(Run(old(State()), done), next);
        done := done + [next];
        i := i + 1;
      }
      RunAccess(old(State()), done);
      forall k | k in sessions ensures !Blocked(State(), sessions[k], sessions[k].room) { AccessAt(State(), k); }
    }
  }

  // ---------------------------------------------------------------- actions

  /** The tables of a database on which nobody has been online. */
  predicate BootTables(tables: Tables)
  {
    && tables.rooms == map[LOBBY.id := LOBBY.name, GENERAL.id := GENERAL.name] && tables.nextRoom == 3
    && tables.online == map[] && tables.membership == map[] && tables.messages == map[]
    && (forall x :: x in tables.allow ==>
        x.0 in tables.rooms && exists u :: u in tables.users && tables.users[u].email == x.1)
    && "" !in tables.users && (forall u :: u in tables.users ==> tables.users[u].name == u)
    && (forall u, v :: u in tables.users && v in tables.users && tables.users[u].email == tables.users[v].email ==>
        u == v)
  }

  lemma KickStep(n: Node, k: Socket, room: string, name: string, found: Socket)
    requires Core(n) && k in n.sessions
    requires KickOk(n, n.sessions[k], NameOr(room, n.sessions[k].room.name), name) ==>
             LoggedInAs(n, name) == {} || found in LoggedInAs(n, name)
    ensures Step(n, DoKick(k, room, name, found)) == PacketKick(n, k, room, name, found)
  {
    hide Core, LoggedInAs, KickOne, ApplyKick;
    if LoggedInAs(n, name) == {} || found in LoggedInAs(n, name) {
      hide Step, PacketKick;
      StepIs(n, DoKick(k, room, name, found));
    }
  }

  lemma NoNamelessRoom(n: Node)
    requires Core(n)
    ensures "" !in n.known
  {}

  lemma DeleteGranted(n: Node, name: string)
    requires Core(n)
    ensures ChatNode.DeleteRoom(n, name, true).1 <==> Deletable(n, name)
  {
    hide Core;
    if Deletable(n, name) { DeleteSucceeds(n, name); }
  }

  // ---------------------------------------------------------------- deleting a room, socket by socket

  ghost function SeatMany(members: map<string, set<Socket>>, ks: set<Socket>): (r: map<string, set<Socket>>)
  {
    if ks == {} then members
    else members[LOBBY.name := (if LOBBY.name in members then members[LOBBY.name] else {}) + ks]
  }

  lemma SeatManyNone(members: map<string, set<Socket>>)
    ensures SeatMany(members, {}) == members
  {}

  lemma SeatManyAdd(members: map<string, set<Socket>>, ks: set<Socket>, k: Socket)
    ensures Seat(SeatMany(members, ks), k, LOBBY.name) == SeatMany(members, ks + {k})
  {
    var base := if LOBBY.name in members then members[LOBBY.name] else {};
    assert (base + ks) + {k} == base + (ks + {k});
    assert ks + {k} != {};
    if ks == {} { assert ks + {k} == {k}; }
  }

  /** These sockets' sessions are in the Lobby and their logged-in users have a Lobby row. */
  ghost function Relocated(n: Node, ks: set<Socket>): (r: Node)
  {
    WithRows(n.(sessions := LobbySessions(n.sessions, ks)), n.db.membership + LobbyRows(n.db, UsersOf(n, ks), n.self))
  }

  ghost function LobbySessions(sessions: map<Socket, Session>, ks: set<Socket>): (r: map<Socket, Session>)
  {
    map k | k in sessions :: if k in ks then sessions[k].(room := LOBBY) else sessions[k]
  }

  lemma RelocatedNone(n: Node)
    ensures Relocated(n, {}) == n
  {
    assert UsersOf(n, {}) == {};
    assert LobbyRows(n.db, {}, n.self) == map[];
  }

  lemma LobbySessionsAdd(sessions: map<Socket, Session>, ks: set<Socket>, k: Socket)
    ensures k !in sessions ==> LobbySessions(sessions, ks + {k}) == LobbySessions(sessions, ks)
    ensures k in sessions ==>
              LobbySessions(sessions, ks + {k})
                == LobbySessions(sessions, ks)[k := LobbySessions(sessions, ks)[k].(room := LOBBY)]
    ensures k in sessions ==>
            LobbySessions(sessions, ks)[k].auth == sessions[k].auth
              && LobbySessions(sessions, ks)[k].user == sessions[k].user
  {}

  lemma UsersAdd(n: Node, ks: set<Socket>, k: Socket)
    ensures UsersOf(n, ks + {k}) == UsersOf(n, ks) +
              if k in n.sessions && n.sessions[k].auth && n.sessions[k].user.name != "" then {n.sessions[k].user.name}
                else {}
  {
    if k in n.sessions && n.sessions[k].auth && n.sessions[k].user.name != "" {
      assert n.sessions[k].user.name in UsersOf(n, ks + {k});
    }
    forall u | u in UsersOf(n, ks) ensures u in UsersOf(n, ks + {k}) {
      var j :| j in ks && j in n.sessions && n.sessions[j].auth && n.sessions[j].user.name != ""
          && n.sessions[j].user.name == u;
      assert j in ks + {k};
    }
  }

  lemma LobbyRowsAdd(m: Rows, db: Tables, users: set<string>, u: string, node: string)
    ensures m + LobbyRows(db, users + {u}, node) ==
            if CanSetRow(db, u, LOBBY.id) then SetRow(m + LobbyRows(db, users, node), u, LOBBY.id, node)
            else m + LobbyRows(db, users, node)
  {
    var a, b := LobbyRows(db, users + {u}, node), LobbyRows(db, users, node);
    forall x ensures x in a <==> x in b || (CanSetRow(db, u, LOBBY.id) && x == (u, LOBBY.id)) {
      if x in b { assert x == (x.0, LOBBY.id) && x.0 in users + {u}; }
      if CanSetRow(db, u, LOBBY.id) && x == (u, LOBBY.id) { assert x.0 in users + {u}; }
    }
  }

  /** The state of one socket's move as the loop performs it. */
  lemma RelocatedStep(n: Node, ks: set<Socket>, k: Socket, id: int)
    requires id != LOBBY.id && forall x :: x in n.db.membership ==> x.1 != id
    ensures k in Relocated(n, ks).sessions <==> k in n.sessions
    ensures k !in n.sessions ==> Relocated(n, ks + {k}) == Relocated(n, ks)
    ensures k in n.sessions ==>
            k in Relocated(n, ks).sessions && Relocated(n, ks + {k}) == MovedOne(Relocated(n, ks), k, id)
  {
    LobbySessionsAdd(n.sessions, ks, k);
    UsersAdd(n, ks, k);
    if k in n.sessions {
      LobbyRowsAdd(n.db.membership, n.db, UsersOf(n, ks), n.sessions[k].user.name, n.self);
      NoRowHere(n, UsersOf(n, ks), n.sessions[k].user.name, id);
    }
    hide LobbySessions, UsersOf, LobbyRows;
    assert UsersOf(n, ks) + {} == UsersOf(n, ks);
  }

  lemma NoRowHere(n: Node, users: set<string>, u: string, id: int)
    requires id != LOBBY.id && forall x :: x in n.db.membership ==> x.1 != id
    ensures ClearRow(n.db.membership + LobbyRows(n.db, users, n.self), u, id)
            == n.db.membership + LobbyRows(n.db, users, n.self)
  {}

  ghost function MovedOne(r: Node, k: Socket, id: int): (m: Node)
    requires k in r.sessions
  {
    var s := r.sessions[k];
    var moved := r.(sessions := r.sessions[k := s.(room := LOBBY)]);
    if s.auth && s.user.name != "" && CanSetRow(r.db, s.user.name, LOBBY.id)
    then WithRows(moved, SetRow(ClearRow(r.db.membership, s.user.name, id), s.user.name, LOBBY.id, r.self))
    else moved
  }

  lemma DeleteRoomIs(n: Node, name: string, ok: bool)
    requires ChatNode.DeleteRoom(n, name, ok).1
    ensures ChatNode.DeleteRoom(n, name, ok).0
         == Relocated(DropRoom(ForgetRoom(n, name), n.known[name].id), Sitting(n, name))
  {}

  // ---------------------------------------------------------------- broadcasting

  ghost function AllMembers(n: Node): (r: set<Socket>)
  {
    MembersOf(n, n.members.Keys)
  }

  ghost function MembersOf(n: Node, names: set<string>): (r: set<Socket>)
  {
    set name, k | name in names && name in n.members && k in n.members[name] :: k
  }

  lemma MembersStep(n: Node, done: set<string>, name: string)
    requires Index(n) && name in n.members && name !in done
    ensures name in n.known
    ensures MembersOf(n, done + {name}) == MembersOf(n, done) + Sitting(n, name)
    ensures MembersOf(n, done) !! Sitting(n, name)
  {
    forall k | k in MembersOf(n, done) ensures k !in Sitting(n, name) {
      var x :| x in done && x in n.members && k in n.members[x];
      assert Sits(n.members, k, x);
      assert Sits(n.members, k, name) ==> x == name;
    }
  }

  /** A set of sockets without the one to skip, if there is one. */
  function Except(ks: set<Socket>, skip: Option<Socket>): (r: set<Socket>)
  {
    if skip.None? then ks else ks - {skip.value}
  }

  lemma SentStep(done: set<Socket>, k: Socket, skip: Option<Socket>)
    requires k !in done
    ensures multiset(Except(done + {k}, skip))
         == multiset(Except(done, skip)) + if skip == Some(k) then multiset{} else multiset{k}
  {
    assert Except(done + {k}, skip) == if skip == Some(k) then Except(done, skip) else Except(done, skip) + {k};
  }

  lemma ExceptNone(skip: Option<Socket>)
    ensures Except({}, skip) == {}
  {}

  lemma AddDisjoint(a: set<Socket>, b: set<Socket>, skip: Option<Socket>)
    requires a !! b
    ensures multiset(Except(a + b, skip)) == multiset(Except(a, skip)) + multiset(Except(b, skip))
  {
    assert Except(a + b, skip) == Except(a, skip) + Except(b, skip);
  }

  lemma SittingOf(n: Node, name: string)
    requires name in n.members
    ensures Sitting(n, name) == n.members[name]
  {}

  lemma NoRooms(n: Node)
    ensures MembersOf(n, {}) == {}
  {}

  lemma RoomSent(n: Node, done: set<string>, name: string, skip: Option<Socket>, sent: seq<Socket>, more: seq<Socket>)
    requires MembersOf(n, done) !! Sitting(n, name)
    requires MembersOf(n, done + {name}) == MembersOf(n, done) + Sitting(n, name)
    requires multiset(sent) == multiset(Except(MembersOf(n, done), skip))
    requires multiset(more) == multiset(Except(Sitting(n, name), skip))
    ensures multiset(sent + more) == multiset(Except(MembersOf(n, done + {name}), skip))
  {
    hide *;
    AddDisjoint(MembersOf(n, done), Sitting(n, name), skip);
  }

  lemma AllMembersIs(n: Node)
    requires Index(n)
    ensures MembersOf(n, {}) == {} && AllMembers(n) == MembersOf(n, n.members.Keys)
    ensures Seated(n, {}) ==> AllMembers(n) == n.sessions.Keys
  {
    if Seated(n, {}) {
      forall k ensures k in AllMembers(n) <==> k in n.sessions {
        if k in AllMembers(n) {
          var x :| x in n.members && k in n.members[x];
          assert Sits(n.members, k, x);
        }
        if k in n.sessions { assert Sits(n.members, k, n.sessions[k].room.name); }
      }
    }
  }

  // ---------------------------------------------------------------- evicting a session

  lemma EvictOne(n: Node, k: Socket, guest: User)
    requires Core(n) && k in n.sessions
    ensures var a := n.(sessions := n.sessions[k := n.sessions[k].(auth := false)]);
            var left := ChatNode.LeaveAll(a, k, true);
            var b := left.(sessions := left.sessions[k := left.sessions[k].(user := guest)]);
            && ChatNode.JoinRoom(b, k, LOBBY.name, NoFault).0 == SendToLobby(n, {k}, guest)
            && Core(SendToLobby(n, {k}, guest))
  {
    hide Core, Index, Demoted, SendToLobby, Seated, IdsOk, UsersOk;
    var a := n.(sessions := n.sessions[k := n.sessions[k].(auth := false)]);
    SeatsOf(n, k);
    CoreIndex(n);
    LeaveThenLobby(n.members, k, n.sessions[k].room.name);
    LogoutMove(a, k, guest);
    SendOne(n, k, guest);
    DemotedFrame(n, k, guest);
    SameDemoted(n, a, k, guest);
    hide ChatNode.JoinRoom, Seat, Unseat, ClearRows;
  }

  lemma LoginsOpen(n: Node, u: string)
    ensures LoggedInAs(n, u) <= n.sessions.Keys
  {}

  lemma OnlyLogin(n: Node, u: string, k: Socket)
    requires Core(n) && k in n.sessions
    ensures if n.sessions[k].auth && n.sessions[k].user.name == u then LoggedInAs(n, u) == {k}
            else k !in LoggedInAs(n, u)
  {
    AtMostOne(n, u);
    hide Core;
    if n.sessions[k].auth && n.sessions[k].user.name == u { assert k in LoggedInAs(n, u); }
  }

  lemma SameDemoted(n: Node, a: Node, k: Socket, guest: User)
    requires k in n.sessions && a == n.(sessions := n.sessions[k := n.sessions[k].(auth := false)])
    ensures Demoted(a, k, guest) == Demoted(n, k, guest)
  {
    hide Seat, Unseat;
    assert SetUser(a, k, guest, false).sessions == SetUser(n, k, guest, false).sessions;
  }

  lemma ReconnectTerms(n: Node, name: string, requested: string, live: set<string>)
    ensures ReconnectOk(n, name, live) <==> CanReconnect(n, name, live)
    ensures ReconnectOk(n, name, live) ==>
              name in n.db.users && ResumeRoom(n, n.db.users[name], requested)
                == ReconnectRoom(n, n.db.users[name], requested)
  {
    ReconnectOkIs(n, name, live);
    hide CanReconnect, ReconnectRoom, ResumeRoom;
    if ReconnectOk(n, name, live) { ResumeRoomIs(n, n.db.users[name], requested); }
  }

  /** The state reached by the join, with the allow-list entry, is sound and is what the events are applied to. */
  lemma ReconnectReady(n: Node, k: Socket, name: string, requested: string, live: set<string>, guest: User)
    requires Core(n) && k in n.sessions && CanReconnect(n, name, live)
    ensures var u := n.db.users[name];
            var room := ReconnectRoom(n, u, requested);
            var joined := ChatNode.JoinRoom(Claimed(n, k, u), k, room, NoFault).0;
            && u.name == name && joined.known == n.known && joined.self == n.self
            && Core(joined)
            && (room in n.known ==> Core(AddAllow(joined, n.known[room].id, u.email, false)))
            && Core(Reconnect(n, k, name, requested, live, guest))
  {
    hide Core, Reconnect, Reconnected, ReconnectRoom, ChatNode.HasSession, ApplyRoomJoin, Joined, Claimed,
      ChatNode.JoinRoom, OwnerLive;
    var u := n.db.users[name];
    var room := ReconnectRoom(n, u, requested);
    ReconnectIs(n, k, name, requested, live, guest);
    ReconnectedFrame(n, k, u, room);
    ClaimedCore(n, k, u);
    JoinedCore(Claimed(n, k, u), k, room);
    var joined := Joined(Claimed(n, k, u), k, room);
    JoinedFrame(Claimed(n, k, u), k, room);
    TablesCore(joined, AddAllow(joined, n.known[room].id, u.email, false));
  }

  // ---------------------------------------------------------------- kicking a user

  lemma CutFrame(n: Node, name: string, u: string)
    requires Core(n)
    ensures var cut := RemoveAllow(n, name, u);
            cut.sessions == n.sessions && cut.self == n.self && Core(cut) && LoggedInAs(cut, u) == LoggedInAs(n, u)
  {
    TablesCore(n, RemoveAllow(n, name, u));
    hide Core;
  }

  /** What the event amounts to, in every case. */
  lemma KickEventCases(n: Node, u: string, name: string)
    requires Core(n)
    ensures u == "" || name == "" ==> ApplyKick(n, u, name) == n
    ensures var cut, r, ks := RemoveAllow(n, name, u), ApplyKick(n, u, name), InRoomAs(n, u, name);
            && Core(r) && ks <= n.sessions.Keys
            && (u != "" && name != "" && ks == {} ==> r == cut)
            && (u != "" && name != "" ==> forall k :: k in ks ==>
                LOBBY.name in n.known && k in cut.sessions && r == Joined(cut, k, LOBBY.name))
  {
    if u != "" && name != "" {
      if name in n.known {
        hide Core, ApplyKick, RemoveAllow, Joined;
        KickEventIs(n, u, name);
        CutFrame(n, name, u);
      } else {
        forall k | k in n.sessions ensures k !in InRoomAs(n, u, name) { CoreSession(n, k); }
      }
    }
  }

  lemma OnlyInRoom(n: Node, u: string, name: string, k: Socket)
    requires Core(n) && k in n.sessions
    ensures if n.sessions[k].auth && n.sessions[k].user.name == u && n.sessions[k].room.name == name
            then InRoomAs(n, u, name) == {k} else k !in InRoomAs(n, u, name)
  {
    OnlyLogin(n, u, k);
    hide Core;
  }

  lemma LobbyJoin(n: Node, k: Socket)
    requires Core(n) && k in n.sessions && n.sessions[k].auth
    ensures LOBBY.name in n.known && ChatNode.JoinRoom(n, k, LOBBY.name, NoFault) == (Joined(n, k, LOBBY.name), true)
  {
    CoreIndex(n);
    CoreSession(n, k);
    CoreRoom(n, LOBBY.name);
    hide Core, Joined, ChatNode.JoinRoom;
    JoinSucceeds(n, k, LOBBY.name);
  }

  lemma LoginIs(n: Node, u: string, k: Socket)
    requires k in LoggedInAs(n, u)
    ensures k in n.sessions && n.sessions[k].auth && n.sessions[k].user.name == u
  {}

  lemma KickOneCore(n: Node, k: Socket, u: string, name: string)
    requires Core(n) && k in n.sessions && n.sessions[k].auth && n.sessions[k].room.name == name
    requires n.sessions[k].user.name == u
    ensures Core(KickOne(n, k, u, name))
  {
    hide Core, KickOne, Joined;
    KickOneIs(n, k, u, name);
    JoinedCore(n, k, LOBBY.name);
  }
}
