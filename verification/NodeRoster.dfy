/** Who has membership rows at all: registered users who are online. Together with the one-row law this settles every
    run without peer events and RECONNECT. */
module NodeRoster {
  import opened ChatNode
  import opened RoomIndex
  import opened NodeShapes
  import opened NodePackets
  import opened NodeRuns
  import opened NodePresence
  import opened NodeMembership

  ghost predicate Accounted(n: Node, u: string) { u in n.db.online && u in n.db.users }

  /** Everybody logged in is online, and nobody offline or unregistered has a row. */
  ghost predicate Roster(n: Node)
  {
    && (forall k :: k in n.sessions && n.sessions[k].auth ==> n.sessions[k].user.name in n.db.online)
    && (forall x :: x in n.db.membership ==> Accounted(n, x.0))
  }

  /** Rows change for u only, and users stay listed except perhaps u, who is then without rows and session. */
  lemma OneUserRoster(n: Node, r: Node, u: string)
    requires Roster(n) && SameOthers(n.db.membership, r.db.membership, u)
    requires forall v :: v != u && Accounted(n, v) ==> Accounted(r, v)
    requires forall v :: v != u && v in n.db.online ==> v in r.db.online
    requires Accounted(r, u) || NoRow(r.db.membership, u)
    requires forall k :: k in r.sessions && r.sessions[k].auth ==>
               if r.sessions[k].user.name == u then u in r.db.online
               else k in n.sessions && n.sessions[k].auth && n.sessions[k].user == r.sessions[k].user
    ensures Roster(r)
  {
    forall x | x in r.db.membership ensures Accounted(r, x.0) {
      if x.0 != u { assert x in n.db.membership; }
    }
  }

  /** No new rows, and everybody stays listed. */
  lemma FewerRoster(n: Node, r: Node)
    requires Roster(n) && r.db.membership.Keys <= n.db.membership.Keys
    requires forall v :: Accounted(n, v) ==> Accounted(r, v)
    requires forall v :: v in n.db.online ==> v in r.db.online
    requires forall k :: k in r.sessions && r.sessions[k].auth ==>
               k in n.sessions && n.sessions[k].auth && n.sessions[k].user == r.sessions[k].user
    ensures Roster(r)
  {
    forall x | x in r.db.membership ensures Accounted(r, x.0) { assert x in n.db.membership; }
  }

  // ---------------------------------------------------------------- packets

  lemma QuietRoster(n: Node, r: Node)
    requires Core(n) && Roster(n) && QuietEffect(n, r)
    ensures Roster(r)
  {
    hide Core, Rejoin, Roster;
    if r.sessions == n.sessions && r.db.membership == n.db.membership {
      FewerRoster(n, r);
    } else {
      var k, name :| k in n.sessions && name in n.known
         && r.sessions == n.sessions[k := n.sessions[k].(room := n.known[name])]
         && r.db.membership == if n.sessions[k].auth
                               then Rejoin(n.db.membership, n.sessions[k].user.name, n.sessions[k].room.id,
                                           n.known[name].id, n.self)
                               else n.db.membership;
      if n.sessions[k].auth { RejoinRoster(n, r, k, n.known[name].id); } else { FewerRoster(n, r); }
    }
  }

  lemma RejoinRoster(n: Node, r: Node, k: Socket, to: int)
    requires Core(n) && Roster(n) && k in n.sessions && n.sessions[k].auth && r.db.users == n.db.users
    requires r.db.online == n.db.online
    requires r.db.membership == Rejoin(n.db.membership, n.sessions[k].user.name, n.sessions[k].room.id, to, n.self)
    requires r.sessions.Keys == n.sessions.Keys
    requires forall j :: j in r.sessions ==>
             r.sessions[j].auth == n.sessions[j].auth && r.sessions[j].user == n.sessions[j].user
    ensures Roster(r)
  {
    hide Core, Rejoin, OnlyRow, RowsWithin;
    var s := n.sessions[k];
    CoreSession(n, k);
    RejoinRows(n.db.membership, s.user.name, s.room.id, to, n.self);
    OneUserRoster(n, r, s.user.name);
  }

  lemma AuthenticateRoster(n: Node, k: Socket, u: User)
    requires Core(n) && Roster(n) && k in n.sessions
    requires u.name in n.db.users && n.db.users[u.name] == u && !HasSession(n, u)
    ensures Roster(Authenticate(n, k, u))
  {
    hide Core, Authenticate, Rejoin, HasSession;
    LoginEffect(n, k, u);
    RejoinRows(n.db.membership, u.name, n.sessions[k].room.id, LOBBY.id, n.self);
    OneUserRoster(n, Authenticate(n, k, u), u.name);
  }

  lemma LoginRoster(n: Node, k: Socket, name: string, ok: bool)
    requires Core(n) && Roster(n) && k in n.sessions
    ensures Roster(Login(n, k, name, ok))
  {
    hide Core, Roster, Authenticate, HasSession;
    if name in n.db.users {
      assert n.db.users[name].name == name by { CoreIndex(n); }
      if !HasSession(n, n.db.users[name]) { AuthenticateRoster(n, k, n.db.users[name]); }
    }
  }

  lemma RegisterRoster(n: Node, k: Socket, name: string, password: string, email: string)
    requires Core(n) && Roster(n) && k in n.sessions
    ensures Roster(Register(n, k, name, password, email))
  {
    RegisterOkIs(n.db, name, password, email);
    hide Core, Authenticate, CanCreateUser, HasSession, RegisterOk;
    var u := User(name, email, USER);
    if RegisterOk(n.db, name, password, email) {
      RegisterReady(n, u);
      FewerRoster(n, WithUser(n, u));
      hide Roster;
      AuthenticateRoster(WithUser(n, u), k, u);
    }
  }

  lemma ReconnectRoster(n: Node, k: Socket, name: string, room: string, live: set<string>, guest: User)
    requires Core(n) && Roster(n) && k in n.sessions
    ensures Roster(Reconnect(n, k, name, room, live, guest))
  {
    hide Core, HasSession, OwnerLive, Reconnected, ReconnectRoom, OnlyRow, RowsWithin, JoinRoom, ApplyRoomJoin, Joined,
      Rejoin;
    if CanReconnect(n, name, live) {
      var u := n.db.users[name];
      ReconnectIs(n, k, name, room, live, guest);
      ReconnectedFrame(n, k, u, ReconnectRoom(n, u, room));
      ReconnectRowIff(n, k, name, room, live, guest);
      hide Reconnect;
      OneUserRoster(n, Reconnect(n, k, name, room, live, guest), name);
    }
  }

  lemma LogoutRoster(n: Node, r: Node, k: Socket)
    requires Core(n) && Roster(n) && k in n.sessions && r.db.users == n.db.users
    requires var s := n.sessions[k];
             && r.db.online == (if s.auth then n.db.online - {s.user.name} else n.db.online)
             && r.db.membership == if s.auth then ClearRows(n.db.membership, s.user.name) else n.db.membership
    requires forall j :: j in r.sessions && r.sessions[j].auth ==>
             j != k && j in n.sessions && r.sessions[j] == n.sessions[j]
    ensures Roster(r)
  {
    hide Core;
    var s := n.sessions[k];
    if s.auth {
      forall j | j in r.sessions && r.sessions[j].auth ensures r.sessions[j].user.name != s.user.name {
        OneLogin(n, j, k);
      }
      OneUserRoster(n, r, s.user.name);
    } else {
      FewerRoster(n, r);
    }
  }

  lemma ConnectRoster(n: Node, k: Socket, guest: User)
    requires Core(n) && Roster(n) && k !in n.sessions
    ensures Roster(Open(n, k, guest))
  {
    hide Core, Roster, Open, Move;
    CoreIndex(n);
    OpenIs(n, k, guest);
    MoveFrame(Opened(n, k, guest), k, LOBBY.name, LOBBY);
    FewerRoster(n, Open(n, k, guest));
  }

  lemma DisconnectRoster(n: Node, k: Socket)
    requires Core(n) && Roster(n)
    ensures Roster(Remove(n, k))
  {
    hide Core, Roster;
    if k in n.sessions {
      RemoveEffect(n, k);
      hide Remove;
      LogoutRoster(n, Remove(n, k), k);
    }
  }

  lemma DeleteRoster(n: Node, name: string)
    requires Core(n) && Roster(n) && Deletable(n, name)
    ensures Roster(DeleteRoom(n, name, true).0)
  {
    hide Core, DeleteRoom, ForgetRoom;
    DeleteSucceeds(n, name);
    DeletedShape(n, name, true);
    DeleteFrame(n, name);
    LobbyRow(n, name);
    DeleteRows(n, name);
    var r := DeleteRoom(n, name, true).0;
    forall x | x in r.db.membership ensures Accounted(r, x.0) {
      if x in n.db.membership {
        assert Accounted(n, x.0);
      } else {
        var k :| k in n.sessions && n.sessions[k].auth && n.sessions[k].user.name == x.0;
      }
    }
  }

  lemma DeletePacketRoster(n: Node, k: Socket, room: string)
    requires Core(n) && Roster(n) && k in n.sessions
    ensures Roster(PacketDelete(n, k, room))
  {
    hide Core, Roster, PacketDelete, DeleteRoom;
    PacketDeleteIs(n, k, room);
    var name := NameOr(room, n.sessions[k].room.name);
    if Deletable(n, name) { DeleteRoster(n, name); }
  }

  // ---------------------------------------------------------------- events of other nodes

  /** Peers log out nobody who is logged in here, and report joins only of users known to be online. */
  predicate RosterSafe(n: Node, a: Action)
  {
    match a
    case DoPeer(LogoutEvent(u), _) => LoggedInAs(n, u) == {}
    case DoPeer(RoomJoinEvent(u, node, _, room), _) =>
      u != "" && node != "" && NameOr(room, LOBBY.name) in n.known && u in n.db.users ==> u in n.db.online
    case _ => true
  }

  lemma LogoutEventRosterIff(n: Node, u: string)
    requires Core(n) && Roster(n)
    ensures Roster(ApplyLogout(n, u)) <==> LoggedInAs(n, u) == {}
  {
    hide Core;
    var r := ApplyLogout(n, u);
    if k :| k in LoggedInAs(n, u) {
      CoreSession(n, k);
      assert k in r.sessions && r.sessions[k].auth && r.sessions[k].user.name !in r.db.online;
    } else if u != "" {
      assert forall k :: k in r.sessions && r.sessions[k].auth ==> k !in LoggedInAs(n, u);
      OneUserRoster(n, r, u);
    }
  }

  lemma JoinEventRosterIff(n: Node, u: string, node: string, prev: string, room: string)
    requires Roster(n)
    ensures Roster(ApplyRoomJoin(n, u, node, prev, room)) <==>
            (u != "" && node != "" && NameOr(room, LOBBY.name) in n.known && u in n.db.users ==> u in n.db.online)
  {
    var name, r := NameOr(room, LOBBY.name), ApplyRoomJoin(n, u, node, prev, room);
    if u != "" && node != "" && name in n.known && u in n.db.users {
      assert (u, n.known[name].id) in r.db.membership;
      if u in n.db.online { OneUserRoster(n, r, u); } else { assert !Accounted(r, (u, n.known[name].id).0); }
    } else {
      FewerRoster(n, r);
    }
  }

  lemma PeerReconnectRoster(n: Node, u: string, node: string, guest: User)
    requires Core(n) && Roster(n)
    ensures Roster(ApplyReconnect(n, u, node, guest))
  {
    hide Core, SendToLobby, MoveRows;
    var r := ApplyReconnect(n, u, node, guest);
    if u != "" && node != "" {
      var placed := WithOnline(WithRows(n, MoveRows(n.db.membership, u, node)), n.db.online[u := node]);
      MovedRows(n.db.membership, u, node);
      TablesCore(n, placed);
      assert Roster(placed) by { FewerRoster(n, placed); }
      if node != n.self {
        ReconnectEventIs(n, u, node, guest);
        if k :| k in LoggedInAs(n, u) {
          DemotedFrame(placed, k, guest);
          hide ApplyReconnect, Demoted;
          FewerRoster(placed, r);
        }
      }
    }
  }

  lemma PeerDeleteRoster(n: Node, name: string)
    requires Core(n) && Roster(n)
    ensures Roster(ApplyRoomDeleted(n, name))
  {
    hide Core, Roster, DeleteRoom;
    if Deletable(n, name) { DeleteRoster(n, name); } else { NotDeleted(n, name); }
  }

  lemma PeerTableRoster(n: Node, u: string, node: string, user: User)
    requires Roster(n)
    ensures Roster(ApplyLogin(n, u, node)) && Roster(ApplyUserCreated(n, user)) && Roster(ApplyRoomLeave(n, u, node))
  {
    hide CanCreateUser, Roster;
    FewerRoster(n, ApplyLogin(n, u, node));
    FewerRoster(n, ApplyUserCreated(n, user));
    FewerRoster(n, ApplyRoomLeave(n, u, node));
  }

  lemma EventRosterIff(n: Node, e: Event, guest: User)
    requires Core(n) && Roster(n) && !Quiet(DoPeer(e, guest))
    ensures Roster(ApplyEvent(n, e, guest)) <==> RosterSafe(n, DoPeer(e, guest))
  {
    hide Core, Roster, ApplyEvent, ApplyLogin, ApplyReconnect, ApplyLogout, ApplyUserCreated, ApplyRoomDeleted,
      ApplyRoomJoin, ApplyRoomLeave, LoggedInAs;
    ApplyEventIs(n, e, guest);
    match e
    case LoginEvent(u, node) => PeerTableRoster(n, u, node, guest);
    case ReconnectEvent(u, node) => PeerReconnectRoster(n, u, node, guest);
    case LogoutEvent(u) => LogoutEventRosterIff(n, u);
    case UserCreatedEvent(u) => PeerTableRoster(n, "", "", u);
    case RoomDeletedEvent(name) => PeerDeleteRoster(n, name);
    case RoomJoinEvent(u, node, prev, room) => JoinEventRosterIff(n, u, node, prev, room);
    case RoomLeaveEvent(u, room) => PeerTableRoster(n, u, room, guest);
    case _ =>
  }

  // ---------------------------------------------------------------- runs

  /** A step keeps the roster exactly when it is safe. */
  lemma StepRoster(n: Node, a: Action)
    requires Core(n) && Roster(n)
    ensures Roster(Step(n, a)) <==> RosterSafe(n, a)
  {
    hide Core, Roster;
    if Possible(n, a) && Quiet(a) {
      QuietStepRoster(n, a);
    } else if Possible(n, a) {
      hide Register, Login, Reconnect, Logout, Remove, Open, PacketDelete, ApplyEvent;
      match a
      case DoConnect(k, guest) => ConnectRoster(n, k, guest);
      case DoDisconnect(k) => DisconnectRoster(n, k);
      case DoLogin(k, name, ok) => LoginRoster(n, k, name, ok);
      case DoRegister(k, name, password, email) => RegisterRoster(n, k, name, password, email);
      case DoReconnect(k, name, room, live, guest) => ReconnectRoster(n, k, name, room, live, guest);
      case DoLogout(k, guest) => LogoutEffect(n, k, guest); LogoutRoster(n, Logout(n, k, guest), k);
      case DoRoomDelete(k, room) => DeletePacketRoster(n, k, room);
      case DoPeer(e, guest) => EventRosterIff(n, e, guest);
      case _ =>
    }
  }

  lemma QuietStepRoster(n: Node, a: Action)
    requires Core(n) && Roster(n) && Possible(n, a) && Quiet(a)
    ensures Roster(Step(n, a)) && RosterSafe(n, a)
  {
    hide Core, Roster, Step, QuietEffect;
    QuietSteps(n, a);
    QuietRoster(n, Step(n, a));
  }

  /** With the roster kept, LOGIN and REGISTER never meet old rows of their user. */
  lemma NoOldRows(n: Node, a: Action)
    requires Core(n) && Roster(n) && (a.DoLogin? || a.DoRegister?)
    ensures RowSafe(n, a)
  {
    hide Core, HasSession;
    if a.DoLogin? {
      assert LoginOk(n, a.name, a.passwordOk) ==> NoRow(n.db.membership, a.name);
    } else {
      assert RegisterOk(n.db, a.name, a.password, a.email) ==> NoRow(n.db.membership, a.name);
    }
  }

  lemma {:induction false} LocalRun(n: Node, actions: seq<Action>)
    requires Core(n) && Roster(n) && forall a :: a in actions ==> !a.DoPeer? && !a.DoReconnect?
    ensures RowSafeRun(n, actions)
    decreases |actions|
  {
    hide Core, Roster, Step;
    if actions != [] {
      var a := actions[0];
      assert a in actions;
      StepCore(n, a);
      StepRoster(n, a);
      if a.DoLogin? || a.DoRegister? { NoOldRows(n, a); }
      LocalRun(Step(n, a), actions[1..]);
    }
  }

  /** Without peers and without RECONNECT, the one-row law holds in every run from boot. */
  lemma BootRowsLocal(n: Node, actions: seq<Action>, k: Socket)
    requires Boot(n) && forall a :: a in actions ==> !a.DoPeer? && !a.DoReconnect?
    requires k in Run(n, actions).sessions && Run(n, actions).sessions[k].auth
    ensures var r := Run(n, actions);
            OnlyRow(r.db.membership, r.sessions[k].user.name, r.sessions[k].room.id, r.self)
  {
    BootCore(n);
    assert Roster(n);
    hide Boot, Step, Core, Roster;
    LocalRun(n, actions);
    BootRows(n, actions, k);
  }
}
