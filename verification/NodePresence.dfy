/** One session per user, and the presence row of every logged-in session names this node. */
module NodePresence {
  import opened ChatNode
  import opened RoomIndex
  import opened NodeShapes
  import opened NodePackets
  import opened NodeRuns

  predicate Here(n: Node, s: Session)
  {
    s.auth ==> s.user.name in n.db.online && n.db.online[s.user.name] == n.self
  }

  ghost predicate Presence(n: Node) { forall k :: k in n.sessions ==> Here(n, n.sessions[k]) }

  /** A name that is newly registered is free or already placed here, and no peer logs out a user who is logged
      in here. */
  predicate PresenceSafe(n: Node, a: Action)
  {
    match a
    case DoRegister(k, name, password, email) =>
      k in n.sessions && RegisterOk(n.db, name, password, email) && name in n.db.online ==> n.db.online[name] == n.self
    case DoPeer(LogoutEvent(u), _) => LoggedInAs(n, u) == {}
    case _ => true
  }

  // ---------------------------------------------------------------- effects of logging in and out

  lemma LoginEffect(n: Node, k: Socket, u: User)
    requires Core(n) && k in n.sessions && u.name in n.db.users && n.db.users[u.name] == u && !HasSession(n, u)
    ensures var r, s := Authenticate(n, k, u), n.sessions[k];
            && r.self == n.self && r.db.users == n.db.users
            && r.sessions == n.sessions[k := Session(u, LOBBY, true)]
            && r.db.online == LoginRow(n.db.online, u.name, n.self)
            && r.db.membership == Rejoin(n.db.membership, u.name, s.room.id, LOBBY.id, n.self)
  {
    hide Core, HasSession, Authenticate, Joined, Rejoin;
    AuthenticateIs(n, k, u);
    CoreIndex(n);
    JoinedFrame(SetUser(n, k, u, true), k, LOBBY.name);
  }

  lemma LogoutEffect(n: Node, k: Socket, guest: User)
    requires Core(n) && k in n.sessions
    ensures var r, s := Logout(n, k, guest), n.sessions[k];
            && r.self == n.self && r.db.users == n.db.users
            && r.sessions == n.sessions[k := Session(guest, LOBBY, false)]
            && r.db.online == (if s.auth then n.db.online - {s.user.name} else n.db.online)
            && r.db.membership == if s.auth then ClearRows(n.db.membership, s.user.name) else n.db.membership
  {
    hide Core, Demoted, Logout, ClearRows;
    CoreSession(n, k);
    DemotedFrame(n, k, guest);
    LogoutIs(n, k, guest);
  }

  lemma RemoveEffect(n: Node, k: Socket)
    requires Core(n) && k in n.sessions
    ensures var r, s := Remove(n, k), n.sessions[k];
            && r.self == n.self && r.db.users == n.db.users
            && r.sessions == n.sessions - {k}
            && r.db.online == (if s.auth then n.db.online - {s.user.name} else n.db.online)
            && r.db.membership == if s.auth then ClearRows(n.db.membership, s.user.name) else n.db.membership
  {
    CoreSession(n, k);
    RemoveCore(n, k);
    ClearTwice(n.db.membership, n.sessions[k].user.name);
    hide Core, ClearRows, Unseat;
  }

  lemma DeleteEffect(n: Node, name: string)
    requires Core(n) && Deletable(n, name)
    ensures var r := DeleteRoom(n, name, true).0;
            && r.self == n.self && r.db.users == n.db.users && r.db.online == n.db.online
            && r.sessions.Keys == n.sessions.Keys
            && forall k :: k in n.sessions ==>
               r.sessions[k].auth == n.sessions[k].auth && r.sessions[k].user == n.sessions[k].user
  {
    hide Core, DeleteRoom, Sitting, ForgetRoom;
    DeleteCore(n, name);
    DeleteSucceeds(n, name);
    DeleteFrame(n, name);
    DeletedShape(n, name, true);
  }

  // ---------------------------------------------------------------- the invariant

  /** Sessions that keep their login and a presence table that keeps their rows. */
  lemma PresenceSame(n: Node, r: Node)
    requires Presence(n) && r.self == n.self && r.sessions.Keys <= n.sessions.Keys
    requires forall k :: k in r.sessions && r.sessions[k].auth ==>
               && n.sessions[k].auth && r.sessions[k].user == n.sessions[k].user
               && (r.sessions[k].user.name in n.db.online ==> r.sessions[k].user.name in r.db.online)
               && (r.sessions[k].user.name in n.db.online ==>
                   r.db.online[r.sessions[k].user.name] == n.db.online[r.sessions[k].user.name])
    ensures Presence(r)
  {
    forall k | k in r.sessions ensures Here(r, r.sessions[k]) { assert Here(n, n.sessions[k]); }
  }

  lemma QuietPresence(n: Node, r: Node)
    requires Presence(n) && QuietEffect(n, r)
    ensures Presence(r)
  {
    hide Core, Rejoin;
    forall k | k in r.sessions ensures Here(r, r.sessions[k]) { assert Here(n, n.sessions[k]); }
  }

  lemma LoginPresence(n: Node, k: Socket, u: User)
    requires Core(n) && Presence(n) && k in n.sessions
    requires u.name in n.db.users && n.db.users[u.name] == u && !HasSession(n, u)
    ensures Presence(Authenticate(n, k, u)) <==> (u.name in n.db.online ==> n.db.online[u.name] == n.self)
  {
    hide Core, Authenticate, Rejoin;
    LoginEffect(n, k, u);
    var r := Authenticate(n, k, u);
    assert r.sessions[k] == Session(u, LOBBY, true);
    if u.name in n.db.online ==> n.db.online[u.name] == n.self {
      forall j | j in r.sessions ensures Here(r, r.sessions[j]) {
        if j != k { assert Here(n, n.sessions[j]); }
      }
    } else {
      assert !Here(r, r.sessions[k]);
    }
  }

  lemma RegisterPresence(n: Node, k: Socket, name: string, password: string, email: string)
    requires Core(n) && Presence(n) && k in n.sessions
    ensures Presence(Register(n, k, name, password, email)) <==>
            (RegisterOk(n.db, name, password, email) && name in n.db.online ==> n.db.online[name] == n.self)
  {
    var u := User(name, email, USER);
    RegisterOkIs(n.db, name, password, email);
    hide Core, Authenticate, CanCreateUser, HasSession, RegisterOk;
    if name != "" && password != "" && email != "" && CanCreateUser(n.db, u) {
      var m := WithUser(n, u);
      RegisterReady(n, u);
      assert Presence(m) by { PresenceSame(n, m); }
      LoginPresence(m, k, u);
    }
  }

  lemma LoginPacketPresence(n: Node, k: Socket, name: string, ok: bool)
    requires Core(n) && Presence(n) && k in n.sessions
    ensures Presence(Login(n, k, name, ok))
  {
    if name in n.db.users {
      assert n.db.users[name].name == name by { CoreIndex(n); }
      hide Core, Authenticate, HasSession;
      if !HasSession(n, n.db.users[name]) { LoginPresence(n, k, n.db.users[name]); }
    }
  }

  lemma ReconnectPresence(n: Node, k: Socket, name: string, room: string, live: set<string>, guest: User)
    requires Core(n) && Presence(n) && k in n.sessions
    ensures Presence(Reconnect(n, k, name, room, live, guest))
  {
    hide Core, HasSession, OwnerLive, Reconnected, ReconnectRoom;
    if CanReconnect(n, name, live) {
      ReconnectIs(n, k, name, room, live, guest);
      var u := n.db.users[name];
      var into := ReconnectRoom(n, u, room);
      ReconnectedFrame(n, k, u, into);
      var r := Reconnect(n, k, name, room, live, guest);
      hide Reconnect, Claimed, JoinRoom, Joined, ApplyRoomJoin, Rejoin;
      forall j | j in r.sessions ensures Here(r, r.sessions[j]) {
        if j != k { assert Here(n, n.sessions[j]); }
      }
    }
  }

  /** After a logout the presence rows of the other sessions are still there. */
  lemma LogoutPresence(n: Node, r: Node, k: Socket)
    requires Core(n) && Presence(n) && k in n.sessions && r.self == n.self
    requires r.db.online == if n.sessions[k].auth then n.db.online - {n.sessions[k].user.name} else n.db.online
    requires r.sessions.Keys <= n.sessions.Keys
    requires forall j :: j in r.sessions && r.sessions[j].auth ==> j != k && r.sessions[j] == n.sessions[j]
    ensures Presence(r)
  {
    hide Core;
    forall j | j in r.sessions && r.sessions[j].auth
      ensures n.sessions[k].auth ==> r.sessions[j].user.name != n.sessions[k].user.name
    {
      if n.sessions[k].auth { OneLogin(n, j, k); }
    }
    PresenceSame(n, r);
  }

  lemma EventPresence(n: Node, e: Event, guest: User)
    requires Core(n) && Presence(n) && !Quiet(DoPeer(e, guest))
    requires PresenceSafe(n, DoPeer(e, guest))
    ensures Presence(ApplyEvent(n, e, guest))
  {
    hide Core, Presence, ApplyEvent, ApplyLogin, ApplyReconnect, ApplyLogout, ApplyUserCreated, ApplyRoomDeleted,
      ApplyRoomJoin, ApplyRoomLeave, LoggedInAs;
    ApplyEventIs(n, e, guest);
    match e
    case LoginEvent(u, node) => PeerLoginPresence(n, u, node);
    case ReconnectEvent(u, node) => PeerReconnectPresence(n, u, node, guest);
    case LogoutEvent(u) => PeerLogoutPresence(n, u);
    case UserCreatedEvent(u) => PeerUserPresence(n, u);
    case RoomDeletedEvent(name) => PeerDeletePresence(n, name);
    case RoomJoinEvent(u, node, prev, room) => PeerJoinPresence(n, u, node, prev, room);
    case RoomLeaveEvent(u, room) => PeerLeavePresence(n, u, room);
    case _ =>
  }

  lemma PeerLoginPresence(n: Node, u: string, node: string)
    requires Presence(n)
    ensures Presence(ApplyLogin(n, u, node))
  {
    var r := ApplyLogin(n, u, node);
    forall k | k in r.sessions ensures Here(r, r.sessions[k]) { assert Here(n, n.sessions[k]); }
  }

  lemma PeerLogoutPresence(n: Node, u: string)
    requires Presence(n) && LoggedInAs(n, u) == {}
    ensures Presence(ApplyLogout(n, u))
  {
    hide ClearRows;
    var r := ApplyLogout(n, u);
    forall k | k in r.sessions ensures Here(r, r.sessions[k]) {
      assert Here(n, n.sessions[k]) && k !in LoggedInAs(n, u);
    }
  }

  lemma PeerUserPresence(n: Node, u: User)
    requires Presence(n)
    ensures Presence(ApplyUserCreated(n, u))
  {
    hide CanCreateUser;
    PresenceSame(n, ApplyUserCreated(n, u));
  }

  lemma PeerDeletePresence(n: Node, name: string)
    requires Core(n) && Presence(n)
    ensures Presence(ApplyRoomDeleted(n, name))
  {
    hide Core, Presence, DeleteRoom;
    if Deletable(n, name) {
      DeleteEffect(n, name);
      PresenceSame(n, DeleteRoom(n, name, true).0);
    } else {
      NotDeleted(n, name);
    }
  }

  lemma PeerJoinPresence(n: Node, u: string, node: string, prev: string, room: string)
    requires Core(n) && Presence(n)
    ensures Presence(ApplyRoomJoin(n, u, node, prev, room))
  {
    hide Core, Presence, ApplyRoomJoin;
    JoinEventFrame(n, u, node, prev, room);
    RowsOnly(n, ApplyRoomJoin(n, u, node, prev, room));
  }

  lemma PeerLeavePresence(n: Node, u: string, room: string)
    requires Core(n) && Presence(n)
    ensures Presence(ApplyRoomLeave(n, u, room))
  {
    hide Core, Presence;
    RowsOnly(n, ApplyRoomLeave(n, u, room));
  }

  lemma RowsOnly(n: Node, r: Node)
    requires Core(n) && Presence(n) && r == n.(db := n.db.(membership := r.db.membership))
    ensures Presence(r)
  {
    hide Core;
    PresenceSame(n, r);
  }

  lemma PeerReconnectPresence(n: Node, u: string, node: string, guest: User)
    requires Core(n) && Presence(n)
    ensures Presence(ApplyReconnect(n, u, node, guest))
  {
    hide Core, MoveRows, SendToLobby;
    var r := ApplyReconnect(n, u, node, guest);
    if u != "" && node != "" {
      var placed := WithOnline(WithRows(n, MoveRows(n.db.membership, u, node)), n.db.online[u := node]);
      TablesCore(n, placed);
      if node == n.self {
        forall k | k in r.sessions ensures Here(r, r.sessions[k]) { assert Here(n, n.sessions[k]); }
      } else {
        ReconnectEventIs(n, u, node, guest);
        hide ApplyReconnect, Demoted;
        forall k | k in LoggedInAs(n, u) ensures Presence(r) {
          AtMostOne(n, u);
          DemotedFrame(placed, k, guest);
          forall j | j in r.sessions ensures Here(r, r.sessions[j]) {
            if j != k { assert Here(n, n.sessions[j]) && j !in LoggedInAs(n, u); }
          }
        }
        if LoggedInAs(n, u) == {} {
          forall j | j in r.sessions ensures Here(r, r.sessions[j]) {
            assert Here(n, n.sessions[j]) && j !in LoggedInAs(n, u);
          }
        }
      }
    }
  }

  /** A step keeps presence exactly when it is safe. */
  lemma StepPresence(n: Node, a: Action)
    requires Core(n) && Presence(n)
    ensures Presence(Step(n, a)) <==> PresenceSafe(n, a)
  {
    hide Core, Presence;
    if Possible(n, a) && Quiet(a) {
      QuietStepPresence(n, a);
    } else if Possible(n, a) {
      hide Register, Login, Reconnect, Logout, Remove, Open, PacketDelete, ApplyEvent;
      match a
      case DoConnect(k, guest) => ConnectPresence(n, k, guest);
      case DoDisconnect(k) => DisconnectPresence(n, k);
      case DoLogin(k, name, ok) => LoginPacketPresence(n, k, name, ok);
      case DoRegister(k, name, password, email) => RegisterPresence(n, k, name, password, email);
      case DoReconnect(k, name, room, live, guest) => ReconnectPresence(n, k, name, room, live, guest);
      case DoLogout(k, guest) => LogoutPacketPresence(n, k, guest);
      case DoRoomDelete(k, room) => DeletePresence(n, k, room);
      case DoPeer(e, guest) =>
        if e.LogoutEvent? { PeerLogoutIff(n, e.user, guest); } else { EventPresence(n, e, guest); }
      case _ =>
    }
  }

  lemma QuietStepPresence(n: Node, a: Action)
    requires Core(n) && Presence(n) && Possible(n, a) && Quiet(a)
    ensures Presence(Step(n, a)) && PresenceSafe(n, a)
  {
    hide Core, Presence, Step, QuietEffect;
    QuietSteps(n, a);
    QuietPresence(n, Step(n, a));
  }

  lemma LogoutPacketPresence(n: Node, k: Socket, guest: User)
    requires Core(n) && Presence(n) && k in n.sessions
    ensures Presence(Logout(n, k, guest))
  {
    hide Core, Presence, Logout;
    LogoutEffect(n, k, guest);
    LogoutPresence(n, Logout(n, k, guest), k);
  }

  lemma ConnectPresence(n: Node, k: Socket, guest: User)
    requires Core(n) && Presence(n) && k !in n.sessions
    ensures Presence(Open(n, k, guest))
  {
    OpenCore(n, k, guest);
    OpenIs(n, k, guest);
    MoveFrame(Opened(n, k, guest), k, LOBBY.name, LOBBY);
    hide Core, Open, Move;
    var r := Open(n, k, guest);
    forall j | j in r.sessions ensures Here(r, r.sessions[j]) { if j != k { assert Here(n, n.sessions[j]); } }
  }

  lemma DisconnectPresence(n: Node, k: Socket)
    requires Core(n) && Presence(n)
    ensures Presence(Remove(n, k))
  {
    hide Core, Presence;
    if k in n.sessions {
      RemoveEffect(n, k);
      hide Remove;
      LogoutPresence(n, Remove(n, k), k);
    }
  }

  lemma DeletePresence(n: Node, k: Socket, room: string)
    requires Core(n) && Presence(n) && k in n.sessions
    ensures Presence(PacketDelete(n, k, room))
  {
    hide Core, Presence, PacketDelete, DeleteRoom;
    PacketDeleteIs(n, k, room);
    var name := NameOr(room, n.sessions[k].room.name);
    if Deletable(n, name) {
      DeleteEffect(n, name);
      PresenceSame(n, DeleteRoom(n, name, true).0);
    }
  }

  predicate SafeRun(n: Node, actions: seq<Action>)
    decreases |actions|
  {
    actions == [] || (PresenceSafe(n, actions[0]) && SafeRun(Step(n, actions[0]), actions[1..]))
  }

  /** A run is safe exactly when presence holds at every point of it. */
  lemma {:induction false} RunPresenceIff(n: Node, actions: seq<Action>)
    requires Core(n) && Presence(n)
    ensures SafeRun(n, actions) <==> forall i :: 0 <= i <= |actions| ==> Presence(Run(n, actions[..i]))
    decreases |actions|
  {
    hide Core, Presence, Step, PresenceSafe;
    if actions == [] {
      assert actions[..0] == [];
    } else {
      var next := Step(n, actions[0]);
      StepCore(n, actions[0]);
      StepPresence(n, actions[0]);
      forall i | 0 <= i <= |actions|
        ensures Run(n, actions[..i]) == if i == 0 then n else Run(next, actions[1..][..i - 1]) {
        RunPrefix(n, actions, i);
      }
      if Presence(next) { RunPresenceIff(next, actions[1..]); }
      if SafeRun(n, actions) {
        forall i | 0 <= i <= |actions| ensures Presence(Run(n, actions[..i])) {}
      } else if Presence(next) {
        var i :| 0 <= i <= |actions[1..]| && !Presence(Run(next, actions[1..][..i]));
        assert actions[1..][..(i + 1) - 1] == actions[1..][..i];
        assert !Presence(Run(n, actions[..i + 1]));
      } else {
        RunPrefix(n, actions, 1);
        assert actions[1..][..0] == [];
        assert !Presence(Run(n, actions[..1]));
      }
    }
  }

  /** From boot, in every safe run: two different logged-in sessions belong to different users, by email and
      by name, and each is present here. */
  lemma BootPresence(n: Node, actions: seq<Action>, j: Socket, k: Socket)
    requires Boot(n) && SafeRun(n, actions)
    requires var r := Run(n, actions);
             j in r.sessions && k in r.sessions && r.sessions[j].auth && r.sessions[k].auth
    ensures var r := Run(n, actions);
            && (r.sessions[j].user.email == r.sessions[k].user.email ==> j == k)
            && (r.sessions[j].user.name == r.sessions[k].user.name ==> j == k)
            && r.sessions[j].user.name in r.db.online && r.db.online[r.sessions[j].user.name] == r.self
  {
    BootCore(n);
    hide Boot, Step;
    assert Presence(n);
    RunCore(n, actions);
    RunPresenceIff(n, actions);
    assert actions[..|actions|] == actions;
    var r := Run(n, actions);
    hide Run, SafeRun;
    OneLogin(r, j, k);
    assert Here(r, r.sessions[j]);
    assert Single(r.sessions);
    assert SameLogin(r.sessions[j], r.sessions[k]) ==> j == k;
  }

  /** A peer's LOGOUT leaves presence intact exactly when it names nobody logged in here. */
  lemma PeerLogoutIff(n: Node, u: string, guest: User)
    requires Core(n) && Presence(n)
    ensures Presence(ApplyEvent(n, LogoutEvent(u), guest)) <==> LoggedInAs(n, u) == {}
  {
    hide Core, ClearRows;
    if LoggedInAs(n, u) == {} {
      EventPresence(n, LogoutEvent(u), guest);
    } else {
      var k :| k in LoggedInAs(n, u);
      CoreSession(n, k);
      var r := ApplyEvent(n, LogoutEvent(u), guest);
      assert k in r.sessions && !Here(r, r.sessions[k]);
    }
  }
}
