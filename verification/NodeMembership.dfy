/** The persisted membership rows agree with the sessions in memory: every logged-in user has exactly one row,
    the room of the session on this node. For every step the exact condition under which the law survives. */
module NodeMembership {
  import opened ChatNode
  import opened RoomIndex
  import opened NodeShapes
  import opened NodePackets
  import opened NodeRuns
  import opened NodePresence

  /** u has exactly one row: this room on this node. */
  ghost predicate OnlyRow(m: Rows, u: string, room: int, node: string)
  {
    (u, room) in m && m[(u, room)] == node && forall x :: x in m && x.0 == u ==> x.1 == room
  }

  ghost predicate NoRow(m: Rows, u: string) { forall x :: x in m ==> x.0 != u }

  ghost predicate RowOk(n: Node, s: Session)
  {
    s.auth ==> OnlyRow(n.db.membership, s.user.name, s.room.id, n.self)
  }

  /** Every logged-in session's user has exactly one row, its room here. */
  ghost predicate OneRow(n: Node) { forall k :: k in n.sessions ==> RowOk(n, n.sessions[k]) }

  /** Rows of one user may differ; the others are the same. */
  ghost predicate SameOthers(m: Rows, r: Rows, u: string)
  {
    && (forall x :: x in m && x.0 != u ==> x in r && r[x] == m[x])
    && (forall x :: x in r && x.0 != u ==> x in m)
  }

  /** All rows of u are among these rooms. */
  ghost predicate RowsWithin(m: Rows, u: string, a: int, b: int)
  {
    forall x :: x in m && x.0 == u ==> x.1 == a || x.1 == b
  }

  lemma RejoinRows(m: Rows, u: string, from: int, to: int, node: string)
    ensures var r := Rejoin(m, u, from, to, node);
            SameOthers(m, r, u) && (OnlyRow(r, u, to, node) <==> RowsWithin(m, u, from, to))
  {
    var r := Rejoin(m, u, from, to, node);
    assert (u, to) in r && r[(u, to)] == node;
    if OnlyRow(r, u, to, node) {
      forall x | x in m && x.0 == u ensures x.1 == from || x.1 == to {
        if x.1 != from { assert x in r; }
      }
    }
  }

  lemma OthersKeep(m: Rows, r: Rows, u: string, v: string, room: int, node: string)
    requires SameOthers(m, r, u) && u != v
    ensures OnlyRow(m, v, room, node) ==> OnlyRow(r, v, room, node)
  {}

  /** One user's rows and session change, everybody else keeps theirs. */
  lemma OneUserRows(n: Node, r: Node, u: string)
    requires OneRow(n) && r.self == n.self && SameOthers(n.db.membership, r.db.membership, u)
    requires forall k :: k in r.sessions && r.sessions[k].auth ==>
               if r.sessions[k].user.name == u then RowOk(r, r.sessions[k])
                 else k in n.sessions && r.sessions[k] == n.sessions[k]
    ensures OneRow(r)
  {
    hide OnlyRow;
    forall k | k in r.sessions ensures RowOk(r, r.sessions[k]) {
      var s := r.sessions[k];
      if s.auth && s.user.name != u {
        assert RowOk(n, n.sessions[k]);
        OthersKeep(n.db.membership, r.db.membership, u, s.user.name, s.room.id, n.self);
      }
    }
  }

  lemma AllSameRows(n: Node, r: Node)
    requires OneRow(n) && r.self == n.self && r.db.membership == n.db.membership
    requires forall k :: k in r.sessions && r.sessions[k].auth ==> k in n.sessions && r.sessions[k] == n.sessions[k]
    ensures OneRow(r)
  {
    forall k | k in r.sessions ensures RowOk(r, r.sessions[k]) {
      if k in n.sessions { assert RowOk(n, n.sessions[k]); }
    }
  }

  // ---------------------------------------------------------------- moving, joining and a failing join

  lemma QuietRows(n: Node, r: Node)
    requires Core(n) && OneRow(n) && QuietEffect(n, r)
    ensures OneRow(r)
  {
    hide Core, OnlyRow, Rejoin;
    if r.sessions == n.sessions && r.db.membership == n.db.membership {
      AllSameRows(n, r);
    } else {
      var k, name :| k in n.sessions && name in n.known
         && r.sessions == n.sessions[k := n.sessions[k].(room := n.known[name])]
         && r.db.membership == if n.sessions[k].auth
                               then Rejoin(n.db.membership, n.sessions[k].user.name, n.sessions[k].room.id,
                                           n.known[name].id, n.self)
                               else n.db.membership;
      var s := n.sessions[k];
      if s.auth {
        MovedRow(n, r, k, name);
        forall j | j in r.sessions && r.sessions[j].auth && j != k ensures r.sessions[j].user.name != s.user.name {
          OneLogin(n, j, k);
        }
        OneUserRows(n, r, s.user.name);
      } else {
        AllSameRows(n, r);
      }
    }
  }

  lemma MovedRow(n: Node, r: Node, k: Socket, name: string)
    requires k in n.sessions && RowOk(n, n.sessions[k]) && n.sessions[k].auth && name in n.known
    requires var s := n.sessions[k];
             r.db.membership == Rejoin(n.db.membership, s.user.name, s.room.id, n.known[name].id, n.self)
    requires r.self == n.self && r.sessions == n.sessions[k := n.sessions[k].(room := n.known[name])]
    ensures SameOthers(n.db.membership, r.db.membership, n.sessions[k].user.name)
    ensures RowOk(r, r.sessions[k])
  {
    var s := n.sessions[k];
    RejoinRows(n.db.membership, s.user.name, s.room.id, n.known[name].id, n.self);
    hide Rejoin;
  }

  /** A join whose database write fails is taken back in memory only: the law survives every outcome but one, a
      failing insertion after the old room's row has been removed. */
  lemma JoinRowIff(n: Node, k: Socket, roomName: string, fault: Fault)
    requires Core(n) && OneRow(n) && k in n.sessions
    ensures var name, s := NameOr(roomName, LOBBY.name), n.sessions[k];
            OneRow(JoinRoom(n, k, roomName, fault).0) <==>
            !(fault == SetFails && s.auth && name in n.known && name != s.room.name)
  {
    hide Core, OnlyRow, Move, Rejoin;
    var name, s := NameOr(roomName, LOBBY.name), n.sessions[k];
    if name in n.known {
      JoinFrame(n, k, roomName, fault);
      var r := JoinRoom(n, k, roomName, fault).0;
      hide JoinRoom;
      if s.auth {
        forall j | j in n.sessions && n.sessions[j].auth && j != k ensures n.sessions[j].user.name != s.user.name {
          OneLogin(n, j, k);
        }
        assert RowOk(n, s);
        JoinFaultRow(n, r, k, name, fault);
        if RowOk(r, r.sessions[k]) { OneUserRows(n, r, s.user.name); }
      } else {
        AllSameRows(n, r);
      }
    }
  }

  /** Where a join ends, in every outcome. */
  lemma JoinFrame(n: Node, k: Socket, roomName: string, fault: Fault)
    requires Core(n) && k in n.sessions && NameOr(roomName, LOBBY.name) in n.known
    ensures var name, s, r := NameOr(roomName, LOBBY.name), n.sessions[k], JoinRoom(n, k, roomName, fault).0;
            var to := n.known[name];
            var cleared := if s.room.id != to.id then ClearRow(n.db.membership, s.user.name, s.room.id)
                else n.db.membership;
            && r.self == n.self
            && r.sessions == n.sessions[k := s.(room :=
                 if s.auth && (fault == SetFails || (fault == ClearFails && s.room.id != to.id)) then s.room else to)]
            && r.db.membership == (if !s.auth || (fault == ClearFails && s.room.id != to.id) then n.db.membership
                                   else if fault == SetFails then cleared
                                   else Rejoin(n.db.membership, s.user.name, s.room.id, to.id, n.self))
  {
    CoreSession(n, k);
    CoreRoom(n, NameOr(roomName, LOBBY.name));
    hide Core, JoinRoom, Rejoin;
    JoinSessions(n, k, roomName, fault);
    JoinMembership(n, k, roomName, fault);
  }

  lemma JoinSessions(n: Node, k: Socket, roomName: string, fault: Fault)
    requires k in n.sessions && NameOr(roomName, LOBBY.name) in n.known && InKnownRoom(n, n.sessions[k])
    requires n.sessions[k].auth ==> CanSetRow(n.db, n.sessions[k].user.name, n.known[NameOr(roomName, LOBBY.name)].id)
    ensures var s, r, to := n.sessions[k], JoinRoom(n, k, roomName, fault).0, n.known[NameOr(roomName, LOBBY.name)];
            && r.self == n.self
            && r.sessions == n.sessions[k := s.(room :=
                 if s.auth && (fault == SetFails || (fault == ClearFails && s.room.id != to.id)) then s.room else to)]
  {
    hide Seat, Unseat, ClearRow, SetRow;
  }

  lemma JoinMembership(n: Node, k: Socket, roomName: string, fault: Fault)
    requires k in n.sessions && NameOr(roomName, LOBBY.name) in n.known
    requires n.sessions[k].auth ==> CanSetRow(n.db, n.sessions[k].user.name, n.known[NameOr(roomName, LOBBY.name)].id)
    ensures var s, to := n.sessions[k], n.known[NameOr(roomName, LOBBY.name)];
            var cleared := if s.room.id != to.id then ClearRow(n.db.membership, s.user.name, s.room.id)
                else n.db.membership;
            JoinRoom(n, k, roomName, fault).0.db.membership ==
              if !s.auth || (fault == ClearFails && s.room.id != to.id) then n.db.membership
              else if fault == SetFails then cleared
              else Rejoin(n.db.membership, s.user.name, s.room.id, to.id, n.self)
  {
    hide Seat, Unseat, ClearRow, SetRow;
  }

  lemma JoinFaultRow(n: Node, r: Node, k: Socket, name: string, fault: Fault)
    requires Core(n) && k in n.sessions && n.sessions[k].auth && RowOk(n, n.sessions[k]) && name in n.known
    requires r.self == n.self
    requires var s, to := n.sessions[k], n.known[name];
             var cleared := if s.room.id != to.id then ClearRow(n.db.membership, s.user.name, s.room.id)
                 else n.db.membership;
             && r.sessions
             == n.sessions[k := s.(room := if fault == SetFails || (fault == ClearFails && s.room.id != to.id)
                                           then s.room else to)]
             && r.db.membership == (if fault == ClearFails && s.room.id != to.id then n.db.membership
                                    else if fault == SetFails then cleared
                                    else Rejoin(n.db.membership, s.user.name, s.room.id, to.id, n.self))
    ensures SameOthers(n.db.membership, r.db.membership, n.sessions[k].user.name)
    ensures RowOk(r, r.sessions[k]) <==> !(fault == SetFails && name != n.sessions[k].room.name)
  {
    var s := n.sessions[k];
    CoreSession(n, k);
    IdsDiffer(n, s.room.name, name) by { CoreIndex(n); }
    hide Core;
    RejoinRows(n.db.membership, s.user.name, s.room.id, n.known[name].id, n.self);
    hide Rejoin;
  }

  // ---------------------------------------------------------------- logging in and out

  /** Logging in ends with exactly the Lobby row if, and only if, the rows found were of the room the connection was
      in and the Lobby. */
  lemma LoginRowIff(n: Node, k: Socket, u: User)
    requires Core(n) && OneRow(n) && k in n.sessions
    requires u.name in n.db.users && n.db.users[u.name] == u && !HasSession(n, u)
    ensures OneRow(Authenticate(n, k, u)) <==> RowsWithin(n.db.membership, u.name, n.sessions[k].room.id, LOBBY.id)
  {
    hide Core, Authenticate, Rejoin, HasSession;
    LoginEffect(n, k, u);
    NoSession(n, u.name);
    RejoinRows(n.db.membership, u.name, n.sessions[k].room.id, LOBBY.id, n.self);
    var r := Authenticate(n, k, u);
    assert r.sessions[k] == Session(u, LOBBY, true);
    assert OneRow(r) ==> RowOk(r, r.sessions[k]);
    if RowsWithin(n.db.membership, u.name, n.sessions[k].room.id, LOBBY.id) {
      assert RowOk(r, r.sessions[k]);
      forall j | j in n.sessions && n.sessions[j].auth ensures n.sessions[j].user.name != u.name {
        assert j !in LoggedInAs(n, u.name);
      }
      hide LoggedInAs, OnlyRow, RowsWithin;
      OneUserRows(n, r, u.name);
    }
  }

  lemma LoginPacketRowIff(n: Node, k: Socket, name: string, ok: bool)
    requires Core(n) && OneRow(n) && k in n.sessions
    ensures OneRow(Login(n, k, name, ok)) <==>
            (LoginOk(n, name, ok) ==> RowsWithin(n.db.membership, name, n.sessions[k].room.id, LOBBY.id))
  {
    LoginOkIs(n, name, ok);
    hide Core, Authenticate, HasSession, RowsWithin, OneRow, LoginOk;
    if LoginOk(n, name, ok) {
      assert n.db.users[name].name == name by { CoreIndex(n); }
      LoginRowIff(n, k, n.db.users[name]);
    }
  }

  lemma RegisterRowIff(n: Node, k: Socket, name: string, password: string, email: string)
    requires Core(n) && OneRow(n) && k in n.sessions
    ensures OneRow(Register(n, k, name, password, email)) <==>
            (RegisterOk(n.db, name, password, email) ==>
             RowsWithin(n.db.membership, name, n.sessions[k].room.id, LOBBY.id))
  {
    RegisterOkIs(n.db, name, password, email);
    hide Core, Authenticate, CanCreateUser, HasSession, RowsWithin, RegisterOk;
    var u := User(name, email, USER);
    if RegisterOk(n.db, name, password, email) {
      RegisterReady(n, u);
      AllSameRows(n, WithUser(n, u));
      hide OneRow;
      LoginRowIff(WithUser(n, u), k, u);
    }
  }

  /** After a logout the user has no session left, and everybody else keeps row and session. */
  lemma LogoutRows(n: Node, r: Node, k: Socket)
    requires Core(n) && OneRow(n) && k in n.sessions && r.self == n.self
    requires var s := n.sessions[k];
             r.db.membership == if s.auth then ClearRows(n.db.membership, s.user.name) else n.db.membership
    requires forall j :: j in r.sessions && r.sessions[j].auth ==>
             j != k && j in n.sessions && r.sessions[j] == n.sessions[j]
    ensures OneRow(r)
  {
    hide Core, OnlyRow;
    var s := n.sessions[k];
    if s.auth {
      forall j | j in r.sessions && r.sessions[j].auth ensures r.sessions[j].user.name != s.user.name {
        OneLogin(n, j, k);
      }
      OneUserRows(n, r, s.user.name);
    } else {
      AllSameRows(n, r);
    }
  }

  /** RECONNECT leaves its user with exactly the row of the joined room if, and only if, the rows found were
      within the room the connection came from and the room it joins. */
  lemma ReconnectRowIff(n: Node, k: Socket, name: string, room: string, live: set<string>, guest: User)
    requires Core(n) && k in n.sessions && CanReconnect(n, name, live)
    ensures var r := Reconnect(n, k, name, room, live, guest);
            var into := ReconnectRoom(n, n.db.users[name], room);
            && into in n.known && SameOthers(n.db.membership, r.db.membership, name)
            && (OnlyRow(r.db.membership, name, n.known[into].id, n.self) <==>
                RowsWithin(n.db.membership, name, n.sessions[k].room.id, n.known[into].id))
  {
    hide Core, HasSession, OwnerLive, Reconnected, ReconnectRoom, Reconnect;
    ReconnectIs(n, k, name, room, live, guest);
    var u := n.db.users[name];
    var into := ReconnectRoom(n, u, room);
    ReconnectedFrame(n, k, u, into);
    hide Claimed, JoinRoom, Joined, ApplyRoomJoin, Rejoin;
    var m := MoveRows(n.db.membership, name, n.self);
    RejoinRows(m, name, n.sessions[k].room.id, n.known[into].id, n.self);
    assert m.Keys == n.db.membership.Keys;
  }

  lemma ReconnectPacketRowIff(n: Node, k: Socket, name: string, room: string, live: set<string>, guest: User)
    requires Core(n) && OneRow(n) && k in n.sessions && CanReconnect(n, name, live)
    ensures var into := ReconnectRoom(n, n.db.users[name], room);
            && into in n.known
            && (OneRow(Reconnect(n, k, name, room, live, guest)) <==>
                RowsWithin(n.db.membership, name, n.sessions[k].room.id, n.known[into].id))
  {
    hide Core, HasSession, OwnerLive, Reconnected, ReconnectRoom, OnlyRow, RowsWithin, Reconnect, Claimed, JoinRoom,
      Joined, ApplyRoomJoin, Rejoin, MoveRows;
    ReconnectIs(n, k, name, room, live, guest);
    var u, r := n.db.users[name], Reconnect(n, k, name, room, live, guest);
    var into := ReconnectRoom(n, u, room);
    ReconnectedFrame(n, k, u, into);
    ReconnectRowIff(n, k, name, room, live, guest);
    NoSession(n, name);
    assert r.sessions[k] == Session(u, n.known[into], true);
    assert OneRow(r) ==> RowOk(r, r.sessions[k]);
    forall j | j in n.sessions && n.sessions[j].auth ensures n.sessions[j].user.name != name {
      assert j !in LoggedInAs(n, name);
    }
    if RowOk(r, r.sessions[k]) { OneUserRows(n, r, name); }
  }

  // ---------------------------------------------------------------- deleting a room

  /** A deleted room's rows go, and its logged-in users get a Lobby row. */
  lemma DeleteRows(n: Node, name: string)
    requires DeleteRoom(n, name, true).1 && LOBBY.id in n.db.rooms && n.known[name].id != LOBBY.id
    ensures var m, r := n.db.membership, DeleteRoom(n, name, true).0.db.membership;
            && (forall x :: x in r <==> (x in m && x.1 != n.known[name].id) || LobbyRowOf(n, name, x))
            && (forall x :: x in r ==> r[x] == if LobbyRowOf(n, name, x) then n.self else m[x])
  {
    hide ForgetRoom, UsersOf, Sitting;
    var users := UsersOf(n, Sitting(n, name));
    var db := DropRoom(ForgetRoom(n, name), n.known[name].id).db;
    assert db.membership == map k | k in n.db.membership && k.1 != n.known[name].id :: n.db.membership[k] by {
      ForgetTables(n, name);
    }
    assert db.users == n.db.users && LOBBY.id in db.rooms by { ForgetTables(n, name); }
    var extra := LobbyRows(db, users, n.self);
    forall x ensures x in extra <==> LobbyRowOf(n, name, x) {
      if LobbyRowOf(n, name, x) { assert x == (x.0, LOBBY.id); }
    }
    assert DeleteRoom(n, name, true).0.db.membership == db.membership + extra;
  }

  lemma ForgetTables(n: Node, name: string)
    requires name in n.known
    ensures ForgetRoom(n, name).db == n.db
  {}

  ghost predicate LobbyRowOf(n: Node, name: string, x: (string, int))
  {
    x.1 == LOBBY.id && x.0 in UsersOf(n, Sitting(n, name)) && x.0 in n.db.users
  }

  lemma DeleteKeepsRows(n: Node, name: string)
    requires Core(n) && OneRow(n) && Deletable(n, name)
    ensures OneRow(DeleteRoom(n, name, true).0)
  {
    hide Core, DeleteRoom, ForgetRoom;
    DeleteSucceeds(n, name);
    DeletedShape(n, name, true);
    DeleteFrame(n, name);
    LobbyRow(n, name);
    DeleteRows(n, name);
    var r := DeleteRoom(n, name, true).0;
    var id, moved := n.known[name].id, Sitting(n, name);
    SittingIs(n, name);
    forall k | k in r.sessions ensures RowOk(r, r.sessions[k]) {
      var s := n.sessions[k];
      if s.auth {
        CoreSession(n, k);
        assert RowOk(n, s);
        var u := s.user.name;
        assert u in UsersOf(n, moved) <==> k in moved by {
          forall j | j in moved && j in n.sessions && n.sessions[j].auth && n.sessions[j].user.name == u
            ensures j == k {
            OneLogin(n, j, k);
          }
        }
        if k in moved {
          assert OnlyRow(r.db.membership, u, LOBBY.id, n.self);
        } else {
          OtherRoom(n, k, name);
          assert OnlyRow(r.db.membership, u, s.room.id, n.self);
        }
      }
    }
  }

  lemma SittingIs(n: Node, name: string)
    requires Core(n) && name in n.known
    ensures forall k :: k in Sitting(n, name) ==> k in n.sessions && n.sessions[k].room == n.known[name]
  {
    forall k | k in Sitting(n, name) ensures k in n.sessions && n.sessions[k].room == n.known[name] {
      assert Sits(n.members, k, name);
      assert InKnownRoom(n, n.sessions[k]);
    }
  }

  lemma OtherRoom(n: Node, k: Socket, name: string)
    requires Core(n) && k in n.sessions && name in n.known && k !in Sitting(n, name)
    ensures n.sessions[k].room.id != n.known[name].id
  {
    CoreSession(n, k);
    IdsDiffer(n, n.sessions[k].room.name, name);
  }

  lemma LobbyRow(n: Node, name: string)
    requires Core(n) && Deletable(n, name)
    ensures LOBBY.id in n.db.rooms && n.known[name].id != LOBBY.id
  {
    CoreRoom(n, LOBBY.name);
    IdsDiffer(n, LOBBY.name, name);
  }

  // ---------------------------------------------------------------- events of other nodes

  lemma LoggedOutRows(n: Node, r: Node, u: string)
    requires OneRow(n) && LoggedInAs(n, u) == {} && r.self == n.self && r.sessions == n.sessions
    requires SameOthers(n.db.membership, r.db.membership, u)
    ensures OneRow(r)
  {
    assert forall k :: k in r.sessions && r.sessions[k].auth ==> k !in LoggedInAs(n, u);
    OneUserRows(n, r, u);
  }

  /** A LOGOUT event breaks the law exactly when it names somebody logged in here. */
  lemma LogoutEventRowIff(n: Node, u: string)
    requires Core(n) && OneRow(n)
    ensures OneRow(ApplyLogout(n, u)) <==> LoggedInAs(n, u) == {}
  {
    hide Core;
    var r := ApplyLogout(n, u);
    if LoggedInAs(n, u) == {} {
      LoggedOutRows(n, r, u);
    } else {
      var k :| k in LoggedInAs(n, u);
      CoreSession(n, k);
      assert !RowOk(r, r.sessions[k]);
    }
  }

  /** A ROOM_LEAVE event breaks the law exactly when its user sits in that room here. */
  lemma LeaveEventRowIff(n: Node, u: string, name: string)
    requires Core(n) && OneRow(n)
    ensures OneRow(ApplyRoomLeave(n, u, name)) <==> InRoomAs(n, u, name) == {}
  {
    hide Core;
    var r := ApplyRoomLeave(n, u, name);
    assert SameOthers(n.db.membership, r.db.membership, u);
    if k :| k in LoggedInAs(n, u) {
      CoreSession(n, k);
      AtMostOne(n, u);
      assert RowOk(n, n.sessions[k]);
      if name in n.known {
        CoreRoom(n, name);
        LeftRow(n, r, k, name);
      }
      InRoomIff(n, u, name, k);
      forall j | j in r.sessions && r.sessions[j].auth && r.sessions[j].user.name == u ensures j == k {
        assert j in LoggedInAs(n, u);
      }
      if RowOk(r, r.sessions[k]) { OneUserRows(n, r, u); }
    } else {
      LoggedOutRows(n, r, u);
    }
  }

  lemma LeftRow(n: Node, r: Node, k: Socket, name: string)
    requires Core(n) && k in n.sessions && n.sessions[k].auth && RowOk(n, n.sessions[k]) && name in n.known
    requires r == WithRows(n, ClearRow(n.db.membership, n.sessions[k].user.name, n.known[name].id))
    ensures RowOk(r, r.sessions[k]) <==> n.sessions[k].room.name != name
  {
    CoreSession(n, k);
    IdsDiffer(n, n.sessions[k].room.name, name) by { CoreIndex(n); }
  }

  /** What a ROOM_JOIN event may say without breaking the law. */
  predicate JoinEventSafe(n: Node, u: string, node: string, room: string)
  {
    var name := NameOr(room, LOBBY.name);
    || u == "" || node == "" || name !in n.known || LoggedInAs(n, u) == {}
    || (node == n.self && InRoomAs(n, u, name) != {})
  }

  /** A ROOM_JOIN event keeps the law exactly when it takes no effect, or its user is not logged in here, or it repeats
      where that user sits. */
  lemma JoinEventRowIff(n: Node, u: string, node: string, prev: string, room: string)
    requires Core(n) && OneRow(n)
    ensures OneRow(ApplyRoomJoin(n, u, node, prev, room)) <==> JoinEventSafe(n, u, node, room)
  {
    hide Core, ApplyRoomJoin;
    var name, r := NameOr(room, LOBBY.name), ApplyRoomJoin(n, u, node, prev, room);
    JoinEventOthers(n, u, node, prev, room);
    if u != "" && node != "" && name in n.known {
      if k :| k in LoggedInAs(n, u) {
        CoreSession(n, k);
        AtMostOne(n, u);
        assert RowOk(n, n.sessions[k]);
        EnteredRow(n, k, node, prev, room);
        assert InRoomAs(n, u, name) != {} <==> n.sessions[k].room.name == name by { InRoomIff(n, u, name, k); }
        forall j | j in r.sessions && r.sessions[j].auth && r.sessions[j].user.name == u ensures j == k {
          assert j in LoggedInAs(n, u);
        }
        if RowOk(r, r.sessions[k]) { OneUserRows(n, r, u); }
      } else {
        LoggedOutRows(n, r, u);
      }
    }
  }

  lemma JoinEventOthers(n: Node, u: string, node: string, prev: string, room: string)
    ensures var r := ApplyRoomJoin(n, u, node, prev, room);
            && r == WithRows(n, r.db.membership) && SameOthers(n.db.membership, r.db.membership, u)
            && (u == "" || node == "" || NameOr(room, LOBBY.name) !in n.known ==> r == n)
  {
    hide SameOthers, ClearRow, SetRow;
    JoinEventFrame(n, u, node, prev, room);
    var name, m := NameOr(room, LOBBY.name), n.db.membership;
    OneRowOthers(m, u, if prev in n.known then n.known[prev].id else 0, node);
    if name in n.known {
      OneRowOthers(m, u, n.known[name].id, node);
      OneRowOthers(if prev in n.known then ClearRow(m, u, n.known[prev].id) else m, u, n.known[name].id, node);
      if prev in n.known {
        OthersTrans(m, ClearRow(m, u, n.known[prev].id),
                    SetRow(ClearRow(m, u, n.known[prev].id), u, n.known[name].id, node), u);
      }
    }
  }

  lemma OneRowOthers(m: Rows, u: string, id: int, node: string)
    ensures SameOthers(m, m, u) && SameOthers(m, ClearRow(m, u, id), u) && SameOthers(m, SetRow(m, u, id, node), u)
  {}

  lemma OthersTrans(a: Rows, b: Rows, c: Rows, u: string)
    requires SameOthers(a, b, u) && SameOthers(b, c, u)
    ensures SameOthers(a, c, u)
  {}

  lemma InRoomIff(n: Node, u: string, name: string, k: Socket)
    requires k in LoggedInAs(n, u) && forall j :: j in LoggedInAs(n, u) ==> j == k
    ensures InRoomAs(n, u, name) != {} <==> n.sessions[k].room.name == name
  {
    if n.sessions[k].room.name == name { assert k in InRoomAs(n, u, name); }
  }

  lemma EnteredRow(n: Node, k: Socket, node: string, prev: string, room: string)
    requires Core(n) && k in n.sessions && n.sessions[k].auth && RowOk(n, n.sessions[k]) && node != ""
    requires NameOr(room, LOBBY.name) in n.known
    ensures var r := ApplyRoomJoin(n, n.sessions[k].user.name, node, prev, room);
            RowOk(r, n.sessions[k]) <==> node == n.self && n.sessions[k].room.name == NameOr(room, LOBBY.name)
  {
    var name, s := NameOr(room, LOBBY.name), n.sessions[k];
    CoreSession(n, k);
    CoreRoom(n, name);
    CoreIndex(n);
    IdsDiffer(n, s.room.name, name);
    if prev in n.known { IdsDiffer(n, name, prev); }
    hide Core, Index, Seated, IdsOk, UsersOk;
    var r := ApplyRoomJoin(n, s.user.name, node, prev, room);
    assert (s.user.name, n.known[name].id) in r.db.membership
      && r.db.membership[(s.user.name, n.known[name].id)] == node;
  }

  lemma PeerReconnectRows(n: Node, u: string, node: string, guest: User)
    requires Core(n) && OneRow(n)
    ensures OneRow(ApplyReconnect(n, u, node, guest))
  {
    hide Core, SendToLobby, OnlyRow;
    var r := ApplyReconnect(n, u, node, guest);
    if u != "" && node != "" {
      var m := MoveRows(n.db.membership, u, node);
      var placed := WithOnline(WithRows(n, m), n.db.online[u := node]);
      MovedRows(n.db.membership, u, node);
      if node == n.self {
        forall k | k in r.sessions ensures RowOk(r, r.sessions[k]) {
          assert RowOk(n, n.sessions[k]);
          MovedOnly(n, n.sessions[k], u, node);
        }
      } else {
        TablesCore(n, placed);
        ReconnectEventIs(n, u, node, guest);
        AtMostOne(n, u);
        hide ApplyReconnect, Demoted, MoveRows;
        if k :| k in LoggedInAs(n, u) {
          DemotedFrame(placed, k, guest);
          forall j | j in r.sessions && r.sessions[j].auth ensures j != k && r.sessions[j].user.name != u {
            assert j != k && j !in LoggedInAs(n, u);
          }
          OneUserRows(n, r, u);
        } else {
          LoggedOutRows(n, r, u);
        }
      }
    }
  }

  lemma MovedRows(m: Rows, u: string, node: string)
    ensures SameOthers(m, MoveRows(m, u, node), u) && MoveRows(m, u, node).Keys == m.Keys
  {}

  lemma MovedOnly(n: Node, s: Session, u: string, node: string)
    requires RowOk(n, s) && node == n.self
    ensures s.auth ==> OnlyRow(MoveRows(n.db.membership, u, node), s.user.name, s.room.id, node)
  {}

  lemma PeerDeleteRows(n: Node, name: string)
    requires Core(n) && OneRow(n)
    ensures OneRow(ApplyRoomDeleted(n, name))
  {
    hide Core, OneRow, DeleteRoom;
    if Deletable(n, name) { DeleteKeepsRows(n, name); } else { NotDeleted(n, name); }
  }

  lemma PeerTableRows(n: Node, u: string, node: string, user: User)
    requires OneRow(n)
    ensures OneRow(ApplyLogin(n, u, node)) && OneRow(ApplyUserCreated(n, user))
  {
    hide OneRow, CanCreateUser;
    AllSameRows(n, ApplyLogin(n, u, node));
    AllSameRows(n, ApplyUserCreated(n, user));
  }

  lemma EventRowIff(n: Node, e: Event, guest: User)
    requires Core(n) && OneRow(n) && !Quiet(DoPeer(e, guest))
    ensures OneRow(ApplyEvent(n, e, guest)) <==> RowSafe(n, DoPeer(e, guest))
  {
    hide Core, OneRow, ApplyEvent, ApplyLogin, ApplyReconnect, ApplyLogout, ApplyUserCreated, ApplyRoomDeleted,
      ApplyRoomJoin, ApplyRoomLeave, LoggedInAs, InRoomAs, JoinEventSafe;
    ApplyEventIs(n, e, guest);
    match e
    case LoginEvent(u, node) => PeerTableRows(n, u, node, guest);
    case ReconnectEvent(u, node) => PeerReconnectRows(n, u, node, guest);
    case LogoutEvent(u) => LogoutEventRowIff(n, u);
    case UserCreatedEvent(u) => PeerTableRows(n, "", "", u);
    case RoomDeletedEvent(name) => PeerDeleteRows(n, name);
    case RoomJoinEvent(u, node, prev, room) => JoinEventRowIff(n, u, node, prev, room);
    case RoomLeaveEvent(u, room) => LeaveEventRowIff(n, u, room);
    case _ =>
  }

  // ---------------------------------------------------------------- runs

  /** The steps that keep the law: a user who logs in or reconnects brings no rows of third rooms, and peers neither log
      out nor move a user who is logged in here. */
  predicate RowSafe(n: Node, a: Action)
  {
    match a
    case DoLogin(k, name, ok) =>
      k in n.sessions && LoginOk(n, name, ok) ==> RowsWithinIds(n.db.membership, name, n.sessions[k].room.id, LOBBY.id)
    case DoRegister(k, name, password, email) =>
      k in n.sessions && RegisterOk(n.db, name, password, email) ==>
        RowsWithinIds(n.db.membership, name, n.sessions[k].room.id, LOBBY.id)
    case DoReconnect(k, name, room, live, _) =>
      k in n.sessions && CanReconnect(n, name, live) ==>
        var into := ReconnectRoom(n, n.db.users[name], room);
        into in n.known && RowsWithinIds(n.db.membership, name, n.sessions[k].room.id, n.known[into].id)
    case DoPeer(LogoutEvent(u), _) => LoggedInAs(n, u) == {}
    case DoPeer(RoomLeaveEvent(u, name), _) => InRoomAs(n, u, name) == {}
    case DoPeer(RoomJoinEvent(u, node, _, room), _) => JoinEventSafe(n, u, node, room)
    case _ => true
  }

  predicate RowsWithinIds(m: Rows, u: string, a: int, b: int)
    ensures RowsWithinIds(m, u, a, b) <==> RowsWithin(m, u, a, b)
  {
    forall x :: x in m && x.0 == u ==> x.1 == a || x.1 == b
  }

  /** A step keeps the one-row law exactly when it is safe. */
  lemma StepRows(n: Node, a: Action)
    requires Core(n) && OneRow(n)
    ensures OneRow(Step(n, a)) <==> RowSafe(n, a)
  {
    hide Core, OneRow;
    if Possible(n, a) && Quiet(a) {
      QuietStepRows(n, a);
    } else if Possible(n, a) {
      hide Register, Login, Reconnect, Logout, Remove, Open, PacketDelete, ApplyEvent, LoginOk, RegisterOk,
        CanReconnect, ReconnectRoom, RowsWithin, RowsWithinIds;
      match a
      case DoConnect(k, guest) => ConnectRows(n, k, guest);
      case DoDisconnect(k) => DisconnectRows(n, k);
      case DoLogin(k, name, ok) => LoginPacketRowIff(n, k, name, ok);
      case DoRegister(k, name, password, email) => RegisterRowIff(n, k, name, password, email);
      case DoReconnect(k, name, room, live, guest) => ReconnectStepRowIff(n, k, name, room, live, guest);
      case DoLogout(k, guest) => LogoutEffect(n, k, guest); LogoutRows(n, Logout(n, k, guest), k);
      case DoRoomDelete(k, room) => DeletePacketRows(n, k, room);
      case DoPeer(e, guest) => EventRowIff(n, e, guest);
      case _ =>
    }
  }

  lemma QuietStepRows(n: Node, a: Action)
    requires Core(n) && OneRow(n) && Possible(n, a) && Quiet(a)
    ensures OneRow(Step(n, a)) && RowSafe(n, a)
  {
    hide Core, OneRow, Step, QuietEffect;
    QuietSteps(n, a);
    QuietRows(n, Step(n, a));
  }

  lemma ReconnectStepRowIff(n: Node, k: Socket, name: string, room: string, live: set<string>, guest: User)
    requires Core(n) && OneRow(n) && k in n.sessions
    ensures OneRow(Reconnect(n, k, name, room, live, guest)) <==> RowSafe(n, DoReconnect(k, name, room, live, guest))
  {
    hide Core, OneRow, CanReconnect, ReconnectRoom, RowsWithin;
    if CanReconnect(n, name, live) {
      hide Reconnect;
      ReconnectPacketRowIff(n, k, name, room, live, guest);
    }
  }

  lemma ConnectRows(n: Node, k: Socket, guest: User)
    requires Core(n) && OneRow(n) && k !in n.sessions
    ensures OneRow(Open(n, k, guest))
  {
    hide Core, OneRow, Open, Move;
    CoreIndex(n);
    OpenIs(n, k, guest);
    MoveFrame(Opened(n, k, guest), k, LOBBY.name, LOBBY);
    AllSameRows(n, Open(n, k, guest));
  }

  lemma DisconnectRows(n: Node, k: Socket)
    requires Core(n) && OneRow(n)
    ensures OneRow(Remove(n, k))
  {
    hide Core, OneRow;
    if k in n.sessions {
      RemoveEffect(n, k);
      hide Remove;
      LogoutRows(n, Remove(n, k), k);
    }
  }

  lemma DeletePacketRows(n: Node, k: Socket, room: string)
    requires Core(n) && OneRow(n) && k in n.sessions
    ensures OneRow(PacketDelete(n, k, room))
  {
    hide Core, OneRow, PacketDelete, DeleteRoom;
    PacketDeleteIs(n, k, room);
    var name := NameOr(room, n.sessions[k].room.name);
    if Deletable(n, name) { DeleteKeepsRows(n, name); }
  }

  predicate RowSafeRun(n: Node, actions: seq<Action>)
    decreases |actions|
  {
    actions == [] || (RowSafe(n, actions[0]) && RowSafeRun(Step(n, actions[0]), actions[1..]))
  }

  /** A run is safe exactly when the law holds at every point of it. */
  lemma {:induction false} RunRowsIff(n: Node, actions: seq<Action>)
    requires Core(n) && OneRow(n)
    ensures RowSafeRun(n, actions) <==> forall i :: 0 <= i <= |actions| ==> OneRow(Run(n, actions[..i]))
    decreases |actions|
  {
    hide Core, OneRow, Step, RowSafe;
    if actions == [] {
      assert actions[..0] == [];
    } else {
      var next := Step(n, actions[0]);
      StepCore(n, actions[0]);
      StepRows(n, actions[0]);
      forall i | 0 <= i <= |actions|
        ensures Run(n, actions[..i]) == if i == 0 then n else Run(next, actions[1..][..i - 1]) {
        RunPrefix(n, actions, i);
      }
      if OneRow(next) { RunRowsIff(next, actions[1..]); }
      if RowSafeRun(n, actions) {
        forall i | 0 <= i <= |actions| ensures OneRow(Run(n, actions[..i])) {}
      } else if OneRow(next) {
        var i :| 0 <= i <= |actions[1..]| && !OneRow(Run(next, actions[1..][..i]));
        assert actions[1..][..(i + 1) - 1] == actions[1..][..i];
        assert !OneRow(Run(n, actions[..i + 1]));
      } else {
        RunPrefix(n, actions, 1);
        assert actions[1..][..0] == [];
        assert !OneRow(Run(n, actions[..1]));
      }
    }
  }

  /** From boot, at the end of every safe run, the rows of a logged-in user are exactly one row, the room of the
      user's session on this node. */
  lemma BootRows(n: Node, actions: seq<Action>, k: Socket)
    requires Boot(n) && RowSafeRun(n, actions)
    requires k in Run(n, actions).sessions && Run(n, actions).sessions[k].auth
    ensures var r := Run(n, actions);
            OnlyRow(r.db.membership, r.sessions[k].user.name, r.sessions[k].room.id, r.self)
  {
    BootCore(n);
    hide Boot, Step;
    assert OneRow(n);
    RunRowsIff(n, actions);
    assert actions[..|actions|] == actions;
    hide Run, RowSafeRun;
    assert RowOk(Run(n, actions), Run(n, actions).sessions[k]);
  }
}
