/** Runs without peer events in which nobody logs in over a session: the presence and membership tables mirror the
    sessions exactly. */
module NodeMirror {
  import opened ChatNode
  import opened NodeShapes
  import opened NodePackets
  import opened NodeRuns
  import opened NodePresence
  import opened NodeMembership
  import opened NodeRoster

  /** Everybody online is logged in on some session of this node. */
  ghost predicate NoStale(n: Node) { forall u :: u in n.db.online ==> LoggedInAs(n, u) != {} }

  /** No packet of a peer, and nobody logs in over a session that is already logged in. */
  predicate Plain(n: Node, a: Action)
  {
    match a
    case DoPeer(_, _) => false
    case DoLogin(k, _, _) => k in n.sessions ==> !n.sessions[k].auth
    case DoRegister(k, _, _, _) => k in n.sessions ==> !n.sessions[k].auth
    case _ => true
  }

  // ---------------------------------------------------------------- steps

  /** Sessions that stay logged in as they were, and no new presence rows. */
  lemma StaleSame(n: Node, r: Node)
    requires NoStale(n) && r.db.online.Keys <= n.db.online.Keys
    requires forall k :: k in n.sessions && n.sessions[k].auth && n.sessions[k].user.name in r.db.online ==>
               k in r.sessions && r.sessions[k].auth && r.sessions[k].user == n.sessions[k].user
    ensures NoStale(r)
  {
    forall u | u in r.db.online ensures LoggedInAs(r, u) != {} {
      var k :| k in LoggedInAs(n, u);
      assert k in LoggedInAs(r, u);
    }
  }

  /** Logging in leaves nobody stale exactly when the session was not logged in before. The user it was logged
      in as stays online without a session. */
  lemma LoginStaleIff(n: Node, k: Socket, u: User)
    requires Core(n) && Presence(n) && NoStale(n) && k in n.sessions
    requires u.name in n.db.users && n.db.users[u.name] == u && !HasSession(n, u)
    ensures NoStale(Authenticate(n, k, u)) <==> !n.sessions[k].auth
  {
    hide Core, Authenticate, Rejoin, HasSession;
    LoginEffect(n, k, u);
    NoSession(n, u.name);
    var r, s := Authenticate(n, k, u), n.sessions[k];
    assert r.sessions[k] == Session(u, LOBBY, true);
    assert k in LoggedInAs(r, u.name);
    if s.auth {
      assert k in LoggedInAs(n, s.user.name) && Here(n, s);
      forall j | j in r.sessions && r.sessions[j].auth ensures r.sessions[j].user.name != s.user.name {
        if j != k { OneLogin(n, j, k); }
      }
      assert LoggedInAs(r, s.user.name) == {};
      assert s.user.name in r.db.online;
    } else {
      forall v | v in r.db.online ensures LoggedInAs(r, v) != {} {
        if v != u.name {
          var j :| j in LoggedInAs(n, v);
          assert j in LoggedInAs(r, v);
        }
      }
    }
  }

  lemma LoginStale(n: Node, k: Socket, name: string, ok: bool)
    requires Core(n) && Presence(n) && NoStale(n) && k in n.sessions && !n.sessions[k].auth
    ensures NoStale(Login(n, k, name, ok))
  {
    if name in n.db.users {
      assert n.db.users[name].name == name by { CoreIndex(n); }
      hide Core, Authenticate, HasSession, NoStale, Presence;
      if !HasSession(n, n.db.users[name]) { LoginStaleIff(n, k, n.db.users[name]); }
    }
  }

  lemma RegisterStale(n: Node, k: Socket, name: string, password: string, email: string)
    requires Core(n) && Presence(n) && NoStale(n) && k in n.sessions && !n.sessions[k].auth
    ensures NoStale(Register(n, k, name, password, email))
  {
    var u := User(name, email, USER);
    hide Core, Authenticate, CanCreateUser, HasSession;
    if name != "" && password != "" && email != "" && CanCreateUser(n.db, u) {
      var m := WithUser(n, u);
      RegisterReady(n, u);
      PresenceSame(n, m);
      StaleSame(n, m);
      hide NoStale, Presence;
      LoginStaleIff(m, k, u);
    }
  }

  /** With nobody stale there is nothing to reconnect to. */
  lemma NoReconnect(n: Node, name: string, live: set<string>)
    requires Core(n) && NoStale(n)
    ensures !CanReconnect(n, name, live)
  {
    hide Core, OwnerLive, HasSession, LoggedInAs;
    if name in n.db.users { NoSession(n, name); }
  }

  lemma QuietStale(n: Node, r: Node)
    requires NoStale(n) && QuietEffect(n, r)
    ensures NoStale(r)
  {
    hide Core, Rejoin;
    StaleSame(n, r);
  }

  lemma ConnectStale(n: Node, k: Socket, guest: User)
    requires Core(n) && NoStale(n) && k !in n.sessions
    ensures NoStale(Open(n, k, guest))
  {
    OpenIs(n, k, guest);
    MoveFrame(Opened(n, k, guest), k, LOBBY.name, LOBBY);
    hide Core, Open, Move;
    StaleSame(n, Open(n, k, guest));
  }

  lemma LogoutStale(n: Node, r: Node, k: Socket)
    requires Core(n) && NoStale(n) && k in n.sessions
    requires r.db.online == if n.sessions[k].auth then n.db.online - {n.sessions[k].user.name} else n.db.online
    requires forall j :: j in n.sessions && j != k ==> j in r.sessions && r.sessions[j] == n.sessions[j]
    ensures NoStale(r)
  {
    hide Core;
    StaleSame(n, r);
  }

  lemma DeleteStale(n: Node, k: Socket, room: string)
    requires Core(n) && NoStale(n) && k in n.sessions
    ensures NoStale(PacketDelete(n, k, room))
  {
    hide Core, NoStale, PacketDelete, DeleteRoom;
    PacketDeleteIs(n, k, room);
    var name := NameOr(room, n.sessions[k].room.name);
    if Deletable(n, name) {
      DeleteEffect(n, name);
      StaleSame(n, DeleteRoom(n, name, true).0);
    }
  }

  lemma StepStale(n: Node, a: Action)
    requires Core(n) && Presence(n) && NoStale(n) && Plain(n, a)
    ensures NoStale(Step(n, a))
  {
    hide Core, Presence, NoStale;
    if Possible(n, a) {
      if Quiet(a) {
        hide Step, QuietEffect;
        QuietSteps(n, a);
        QuietStale(n, Step(n, a));
      } else {
        hide Register, Login, Reconnect, Logout, Remove, Open, PacketDelete, CanReconnect;
        match a
        case DoConnect(k, guest) => ConnectStale(n, k, guest);
        case DoDisconnect(k) => DisconnectStale(n, k);
        case DoLogin(k, name, ok) => LoginStale(n, k, name, ok);
        case DoRegister(k, name, password, email) => RegisterStale(n, k, name, password, email);
        case DoReconnect(k, name, room, live, guest) => NotReconnected(n, k, name, room, live, guest);
        case DoLogout(k, guest) => LogoutEffect(n, k, guest); LogoutStale(n, Logout(n, k, guest), k);
        case DoRoomDelete(k, room) => DeleteStale(n, k, room);
        case _ =>
      }
    }
  }

  lemma DisconnectStale(n: Node, k: Socket)
    requires Core(n) && NoStale(n)
    ensures NoStale(Remove(n, k))
  {
    hide Core, NoStale;
    if k in n.sessions {
      RemoveEffect(n, k);
      hide Remove;
      LogoutStale(n, Remove(n, k), k);
    }
  }

  lemma NotReconnected(n: Node, k: Socket, name: string, room: string, live: set<string>, guest: User)
    requires Core(n) && NoStale(n) && k in n.sessions
    ensures Reconnect(n, k, name, room, live, guest) == n
  {
    hide Core, NoStale, CanReconnect;
    NoReconnect(n, name, live);
  }

  /** Plain steps meet the conditions of the presence, one-row and roster laws. */
  lemma PlainIsSafe(n: Node, a: Action)
    requires Core(n) && Presence(n) && Roster(n) && NoStale(n) && Plain(n, a)
    ensures PresenceSafe(n, a) && RowSafe(n, a) && RosterSafe(n, a)
  {
    hide Core, Roster;
    if a.DoLogin? || a.DoRegister? { NoOldRows(n, a); }
    match a
    case DoRegister(k, name, _, _) =>
      hide RowSafe;
      if name in n.db.online {
        var j :| j in LoggedInAs(n, name);
        assert Here(n, n.sessions[j]);
      }
    case DoReconnect(k, name, room, live, _) =>
      hide NoStale, CanReconnect;
      NoReconnect(n, name, live);
    case DoLogin(_, _, _) => hide RowSafe;
    case _ =>
  }

  // ---------------------------------------------------------------- runs

  predicate PlainRun(n: Node, actions: seq<Action>)
    decreases |actions|
  {
    actions == [] || (Plain(n, actions[0]) && PlainRun(Step(n, actions[0]), actions[1..]))
  }

  lemma {:induction false} RunMirror(n: Node, actions: seq<Action>)
    requires Core(n) && Presence(n) && OneRow(n) && Roster(n) && NoStale(n) && PlainRun(n, actions)
    ensures var r := Run(n, actions); Core(r) && Presence(r) && OneRow(r) && Roster(r) && NoStale(r)
    decreases |actions|
  {
    hide Core, Presence, OneRow, Roster, NoStale, Step, Plain, PresenceSafe, RowSafe, RosterSafe;
    if actions != [] {
      var a := actions[0];
      PlainIsSafe(n, a);
      StepCore(n, a);
      StepPresence(n, a);
      StepRows(n, a);
      StepRoster(n, a);
      StepStale(n, a);
      RunMirror(Step(n, a), actions[1..]);
    }
  }

  /** From boot, in every plain run, the tables say what the sessions say and nothing else: a user is online,
      here, exactly when logged in on a session, and the membership rows are exactly the rooms of the
      logged-in sessions, here. */
  lemma BootMirror(n: Node, actions: seq<Action>)
    requires Boot(n) && PlainRun(n, actions)
    ensures var r := Run(n, actions);
            && (forall u :: u in r.db.online <==> LoggedInAs(r, u) != {})
            && (forall u :: u in r.db.online ==> r.db.online[u] == r.self)
            && (forall x :: x in r.db.membership <==> exists k :: k in r.sessions && IsRow(r.sessions[k], x))
            && (forall x :: x in r.db.membership ==> r.db.membership[x] == r.self)
  {
    BootCore(n);
    assert Presence(n) && OneRow(n) && Roster(n) && NoStale(n);
    hide Boot, Step, PlainRun;
    RunMirror(n, actions);
    hide Run;
    MirrorIs(Run(n, actions));
  }

  predicate IsRow(s: Session, x: (string, int)) { s.auth && s.user.name == x.0 && s.room.id == x.1 }

  lemma MirrorIs(r: Node)
    requires Core(r) && Presence(r) && OneRow(r) && Roster(r) && NoStale(r)
    ensures forall u :: u in r.db.online <==> LoggedInAs(r, u) != {}
    ensures forall u :: u in r.db.online ==> r.db.online[u] == r.self
    ensures forall x :: x in r.db.membership <==> exists k :: k in r.sessions && IsRow(r.sessions[k], x)
    ensures forall x :: x in r.db.membership ==> r.db.membership[x] == r.self
  {
    hide Core;
    forall u ensures u in r.db.online <==> LoggedInAs(r, u) != {}
             ensures u in r.db.online ==> r.db.online[u] == r.self
    {
      forall k | k in LoggedInAs(r, u) ensures u in r.db.online && r.db.online[u] == r.self {
        assert Here(r, r.sessions[k]);
      }
    }
    forall x | x in r.db.membership
      ensures r.db.membership[x] == r.self && exists k :: k in r.sessions && IsRow(r.sessions[k], x)
    {
      assert Accounted(r, x.0);
      var k :| k in LoggedInAs(r, x.0);
      assert RowOk(r, r.sessions[k]);
      assert IsRow(r.sessions[k], x) && x == (x.0, r.sessions[k].room.id);
    }
    forall k, x | k in r.sessions && IsRow(r.sessions[k], x) ensures x in r.db.membership {
      assert RowOk(r, r.sessions[k]) && x == (x.0, x.1);
    }
  }
}
