/** Runs from boot that end where a law no longer holds. */
module FailingRuns {
  import opened ChatNode
  import opened RoomIndex
  import opened NodeShapes
  import opened NodePackets
  import opened NodeRuns
  import opened NodePresence
  import opened NodeMembership

  // ---------------------------------------------------------------- single steps

  /** j is the only connection. */
  ghost predicate Alone(n: Node, boot: Node, j: Socket, s: Session)
  {
    Core(n) && n.self == boot.self && n.db.users == boot.db.users && n.sessions == map[j := s]
  }

  lemma SameCreate(a: Tables, b: Tables, u: User)
    requires a.users == b.users
    ensures CanCreateUser(a, u) <==> CanCreateUser(b, u)
  {}

  lemma OpenFrame(n: Node, k: Socket, guest: User)
    requires Core(n) && k !in n.sessions
    ensures var r := Open(n, k, guest);
            && r.self == n.self && r.known == n.known && r.db == n.db
            && r.sessions == n.sessions[k := Session(guest, LOBBY, false)]
  {
    OpenIs(n, k, guest);
    MoveFrame(Opened(n, k, guest), k, LOBBY.name, LOBBY);
    hide Core, Open, Move;
  }

  lemma RunThree(n: Node, a: Action, b: Action, c: Action)
    ensures Run(n, [a, b, c]) == Step(Step(Step(n, a), b), c)
  {
    hide Step;
    assert [a, b, c][1..] == [b, c] && [b, c][1..] == [c] && [c][1..] == [];
    assert Run(n, [a, b, c]) == Run(Step(n, a), [b, c]);
    assert Run(Step(n, a), [b, c]) == Run(Step(Step(n, a), b), [c]);
  }

  lemma LoginStep(n: Node, j: Socket, name: string)
    requires Core(n) && j in n.sessions && name in n.db.users && name !in n.db.online && LoggedInAs(n, name) == {}
    ensures var r := Step(n, DoLogin(j, name, true));
            && Core(r) && r.self == n.self && r.db.users == n.db.users
            && r.sessions == n.sessions[j := Session(n.db.users[name], LOBBY, true)]
            && r.db.online == n.db.online[name := n.self]
            && r.db.membership == Rejoin(n.db.membership, name, n.sessions[j].room.id, LOBBY.id, n.self)
            && n.db.users[name].name == name
  {
    hide *;
    assert n.db.users[name].name == name by { UserName(n, name); }
    NoSession(n, name);
    LoginIs(n, j, name);
    StepCore(n, DoLogin(j, name, true));
    StepIs(n, DoLogin(j, name, true)) by { PossibleHere(n, j); }
    LoginEffect(n, j, n.db.users[name]);
    LoginRowIs(n.db.online, name, n.self);
  }

  lemma UserName(n: Node, name: string)
    requires Core(n) && name in n.db.users
    ensures n.db.users[name].name == name
  {
    CoreIndex(n);
    hide Core;
  }

  lemma LoginIs(n: Node, j: Socket, name: string)
    requires j in n.sessions && name in n.db.users && name !in n.db.online && !HasSession(n, n.db.users[name])
    ensures Login(n, j, name, true) == Authenticate(n, j, n.db.users[name])
  {
    hide HasSession, Authenticate;
  }

  lemma LoginRowIs(online: map<string, string>, u: string, node: string)
    requires u !in online
    ensures LoginRow(online, u, node) == online[u := node]
  {}

  lemma PossibleHere(n: Node, j: Socket)
    requires j in n.sessions
    ensures forall name :: Possible(n, DoLogin(j, name, true)) && Possible(n, DoRoomJoin(j, name))
    ensures forall name, private :: Possible(n, DoRoomCreate(j, name, private))
    ensures Possible(n, DoRoomLeave(j))
    ensures forall name, room, live, guest :: Possible(n, DoReconnect(j, name, room, live, guest))
  {}

  lemma GeneralStep(n: Node, j: Socket)
    requires Core(n) && j in n.sessions && n.sessions[j].auth
    ensures var r, s := Step(n, DoRoomJoin(j, GENERAL.name)), n.sessions[j];
            && Core(r) && r.self == n.self && r.db.users == n.db.users && r.db.online == n.db.online
            && r.sessions == n.sessions[j := s.(room := GENERAL)]
            && r.db.membership == Rejoin(n.db.membership, s.user.name, s.room.id, GENERAL.id, n.self)
  {
    hide Step, Core, Joined, PacketJoin, Rejoin;
    CoreKnown(n);
    StepIs(n, DoRoomJoin(j, GENERAL.name));
    PacketJoinIs(n, j, GENERAL.name);
    JoinedFrame(n, j, GENERAL.name);
  }

  lemma ConnectStep(n: Node, k: Socket, guest: User)
    requires Core(n) && k !in n.sessions
    ensures var r := Step(n, DoConnect(k, guest));
            && Core(r) && r.self == n.self && r.db == n.db
            && r.sessions == n.sessions[k := Session(guest, LOBBY, false)]
  {
    hide Core, Open, Step;
    StepCore(n, DoConnect(k, guest));
    StepIs(n, DoConnect(k, guest));
    OpenFrame(n, k, guest);
  }

  lemma ReconnectsToLobby(n: Node, name: string)
    requires Core(n) && name in n.db.users && name in n.db.online && n.db.online[name] == n.self
    requires LoggedInAs(n, name) == {}
    ensures CanReconnect(n, name, {}) && ReconnectRoom(n, n.db.users[name], LOBBY.name) == LOBBY.name
    ensures !HasSession(n, n.db.users[name]) && n.db.users[name].name == name
    ensures LOBBY.name in n.known && n.known[LOBBY.name] == LOBBY
  {
    NoSession(n, name);
    CoreIndex(n);
    hide Core, HasSession, LoggedInAs;
  }

  lemma ReconnectStep(n: Node, k: Socket, name: string, guest: User)
    requires Core(n) && k in n.sessions && n.sessions[k].room == LOBBY
    requires name in n.db.users && name in n.db.online && n.db.online[name] == n.self && LoggedInAs(n, name) == {}
    requires (name, GENERAL.id) in n.db.membership
    ensures var r := Step(n, DoReconnect(k, name, LOBBY.name, {}, guest));
            && k in r.sessions && r.sessions[k] == Session(n.db.users[name], LOBBY, true) && r.self == n.self
            && !OnlyRow(r.db.membership, name, LOBBY.id, r.self)
  {
    hide Step, Core, Reconnect, OnlyRow, HasSession, Reconnected, CanReconnect, ReconnectRoom;
    ReconnectsToLobby(n, name);
    StepIs(n, DoReconnect(k, name, LOBBY.name, {}, guest));
    assert !RowsWithin(n.db.membership, name, LOBBY.id, LOBBY.id);
    hide RowsWithin;
    ReconnectRowIff(n, k, name, LOBBY.name, {}, guest);
    ReconnectIs(n, k, name, LOBBY.name, {}, guest);
    ReconnectedFrame(n, k, n.db.users[name], LOBBY.name);
  }

  lemma LeaveStep(n: Node, j: Socket)
    requires Core(n) && j in n.sessions && n.sessions[j].auth
    ensures var r, s := Step(n, DoRoomLeave(j)), n.sessions[j];
            && Core(r) && r.self == n.self && r.known == n.known && r.db.users == n.db.users
            && r.sessions == n.sessions[j := s.(room := LOBBY)]
  {
    hide Step, Core, Joined, PacketLeave, Rejoin;
    CoreKnown(n);
    StepIs(n, DoRoomLeave(j));
    PacketLeaveIs(n, j);
    JoinedFrame(n, j, LOBBY.name);
  }

  lemma Connected(n: Node, j: Socket, guest: User)
    requires Boot(n)
    ensures var r := Step(n, DoConnect(j, guest)); Alone(r, n, j, Session(guest, LOBBY, false)) && r.db == n.db
  {
    BootCore(n);
    hide Step, Core;
    ConnectStep(n, j, guest);
  }

  lemma LoggedIn(n: Node, boot: Node, j: Socket, guest: User, ann: string)
    requires Alone(n, boot, j, Session(guest, LOBBY, false)) && n.db.online == map[] && ann in n.db.users
    ensures var r := Step(n, DoLogin(j, ann, true));
            && Alone(r, boot, j, Session(n.db.users[ann], LOBBY, true)) && r.db.online == map[ann := n.self]
            && r.db.membership == Rejoin(n.db.membership, ann, LOBBY.id, LOBBY.id, n.self)
            && n.db.users[ann].name == ann
  {
    hide Step, Core, Rejoin;
    LoginStep(n, j, ann);
  }

  lemma Moved(n: Node, boot: Node, j: Socket, ann: string)
    requires ann in n.db.users && n.db.users[ann].name == ann
    requires Alone(n, boot, j, Session(n.db.users[ann], LOBBY, true))
    ensures var r := Step(n, DoRoomJoin(j, GENERAL.name));
            && Alone(r, boot, j, Session(n.db.users[ann], GENERAL, true)) && r.db.online == n.db.online
            && (ann, GENERAL.id) in r.db.membership
  {
    hide Step, Core;
    GeneralStep(n, j);
  }

  // ---------------------------------------------------------------- presence

  /** A peer's LOGIN that arrives before the user exists here: registering the name then leaves the new session's
      presence with the other node. */
  lemma RegisterAfterForeignLogin(n: Node, k: Socket, name: string, email: string, other: string, guest: User)
    requires Boot(n) && name != "" && email != "" && other != "" && other != n.self
    requires CanCreateUser(n.db, User(name, email, USER))
    ensures !Presence(Run(n,
                          [DoPeer(LoginEvent(name, other), guest), DoConnect(k, guest),
                           DoRegister(k, name, "secret", email)]))
  {
    var a, b, c := DoPeer(LoginEvent(name, other), guest), DoConnect(k, guest), DoRegister(k, name, "secret", email);
    var n1 := Step(n, a);
    ForeignLogin(n, name, other, guest);
    var n2 := Step(n1, b);
    GuestArrives(n1, k, guest);
    RegisterIs(n2, k, name, "secret", email);
    hide *;
    SameCreate(n.db, n2.db, User(name, email, USER));
    RegisterPresence(n2, k, name, "secret", email);
    RegisterOkIs(n2.db, name, "secret", email);
    RunThree(n, a, b, c);
  }

  lemma RegisterIs(n: Node, k: Socket, name: string, password: string, email: string)
    requires k in n.sessions
    ensures Step(n, DoRegister(k, name, password, email)) == Register(n, k, name, password, email)
  {
    hide Register;
  }

  lemma ForeignLogin(n: Node, name: string, other: string, guest: User)
    requires Boot(n) && name != "" && other != ""
    ensures var r := Step(n, DoPeer(LoginEvent(name, other), guest));
            && Core(r) && Presence(r) && r.sessions == map[] && r.self == n.self
            && r.db == n.db.(online := map[name := other])
  {
    BootCore(n);
    StepCore(n, DoPeer(LoginEvent(name, other), guest));
    hide Core;
  }

  lemma GuestArrives(n: Node, k: Socket, guest: User)
    requires Core(n) && Presence(n) && n.sessions == map[]
    ensures var r := Step(n, DoConnect(k, guest));
            Core(r) && Presence(r) && k in r.sessions && r.self == n.self && r.db == n.db
  {
    StepCore(n, DoConnect(k, guest));
    hide Core;
    OpenFrame(n, k, guest);
    ConnectPresence(n, k, guest);
  }

  // ---------------------------------------------------------------- membership

  /** The state after ann has joined General and bob has logged in over her session. */
  ghost predicate Stranded(n: Node, j: Socket, ann: string)
  {
    && Core(n) && n.sessions.Keys == {j} && LoggedInAs(n, ann) == {}
    && ann in n.db.users && ann in n.db.online && n.db.online[ann] == n.self
    && (ann, GENERAL.id) in n.db.membership
  }

  lemma InGeneral(n: Node, j: Socket, ann: string, guest: User)
    requires Boot(n) && ann in n.db.users
    ensures var r := Step(Step(Step(n, DoConnect(j, guest)), DoLogin(j, ann, true)), DoRoomJoin(j, GENERAL.name));
            && Alone(r, n, j, Session(n.db.users[ann], GENERAL, true))
            && r.db.online == map[ann := n.self] && (ann, GENERAL.id) in r.db.membership && n.db.users[ann].name == ann
  {
    assert n.db.online == map[];
    hide Step, Boot, Alone, Rejoin;
    Connected(n, j, guest);
    var n1 := Step(n, DoConnect(j, guest));
    AloneIs(n1, n, j, Session(guest, LOBBY, false));
    LoggedIn(n1, n, j, guest, ann);
    AloneIs(Step(n1, DoLogin(j, ann, true)), n, j, Session(n.db.users[ann], LOBBY, true));
    Moved(Step(n1, DoLogin(j, ann, true)), n, j, ann);
  }

  lemma AloneIs(n: Node, boot: Node, j: Socket, s: Session)
    requires Alone(n, boot, j, s)
    ensures n.self == boot.self && n.db.users == boot.db.users
  {}

  lemma Switched(n: Node, boot: Node, j: Socket, ann: string, bob: string)
    requires ann != bob && ann in boot.db.users && bob in boot.db.users && boot.db.users[ann].name == ann
    requires Alone(n, boot, j, Session(boot.db.users[ann], GENERAL, true))
    requires n.db.online == map[ann := boot.self] && (ann, GENERAL.id) in n.db.membership
    ensures Stranded(Step(n, DoLogin(j, bob, true)), j, ann)
  {
    hide Step, Core, Rejoin, LoggedInAs;
    assert n.sessions[j] == Session(boot.db.users[ann], GENERAL, true);
    SoloIs(n, j, bob);
    LoginStep(n, j, bob);
    var r := Step(n, DoLogin(j, bob, true));
    assert r.sessions[j] == Session(boot.db.users[bob], LOBBY, true);
    OthersRow(n.db.membership, bob, ann, GENERAL.id, LOBBY.id, n.self);
    OnlyOne(n.sessions, j, r.sessions[j]);
    hide Alone;
    SoloIs(r, j, ann);
  }

  lemma OnlyOne(m: map<Socket, Session>, j: Socket, s: Session)
    requires m.Keys == {j}
    ensures m[j := s].Keys == {j}
  {}

  lemma SoloIs(n: Node, j: Socket, name: string)
    requires n.sessions.Keys == {j} && (n.sessions[j].auth ==> n.sessions[j].user.name != name)
    ensures LoggedInAs(n, name) == {}
  {}

  lemma OthersRow(m: Rows, u: string, v: string, from: int, to: int, node: string)
    requires u != v && (v, from) in m
    ensures (v, from) in Rejoin(m, u, from, to, node)
  {}

  lemma Revived(n: Node, j: Socket, k: Socket, ann: string, guest: User)
    requires Stranded(n, j, ann) && k != j
    ensures var r := Step(Step(n, DoConnect(k, guest)), DoReconnect(k, ann, LOBBY.name, {}, guest));
            && k in r.sessions && r.sessions[k].auth && r.sessions[k].user.name == ann
            && !OnlyRow(r.db.membership, ann, r.sessions[k].room.id, r.self)
  {
    hide Step, Core, OnlyRow;
    var m := Step(n, DoConnect(k, guest));
    ConnectStep(n, k, guest);
    assert LoggedInAs(m, ann) == {} by {
      forall i | i in m.sessions ensures i !in LoggedInAs(m, ann) {
        if i != k { assert i !in LoggedInAs(n, ann); }
      }
    }
    ReconnectsToLobby(m, ann);
    ReconnectStep(m, k, ann, guest);
  }

  /** Logging in as bob over ann's session, after ann has joined General, strands ann's rows: when ann then
      reconnects she has two rows, although no peer took part. */
  lemma SwitchThenReconnect(n: Node, j: Socket, k: Socket, ann: string, bob: string, guest: User)
    requires Boot(n) && j != k && ann != bob && ann in n.db.users && bob in n.db.users
    ensures var r := Run(n, [DoConnect(j, guest), DoLogin(j, ann, true), DoRoomJoin(j, GENERAL.name)]
                            + [DoLogin(j, bob, true), DoConnect(k, guest), DoReconnect(k, ann, LOBBY.name, {}, guest)]);
            && k in r.sessions && r.sessions[k].auth && r.sessions[k].user.name == ann
            && !OnlyRow(r.db.membership, ann, r.sessions[k].room.id, r.self)
  {
    hide *;
    var first := [DoConnect(j, guest), DoLogin(j, ann, true), DoRoomJoin(j, GENERAL.name)];
    InGeneral(n, j, ann, guest);
    RunThree(n, first[0], first[1], first[2]);
    var m := Run(n, first);
    Switched(m, n, j, ann, bob);
    Revived(Step(m, DoLogin(j, bob, true)), j, k, ann, guest);
    RunThree(m, DoLogin(j, bob, true), DoConnect(k, guest), DoReconnect(k, ann, LOBBY.name, {}, guest));
    RunAppend(n, first, [DoLogin(j, bob, true), DoConnect(k, guest), DoReconnect(k, ann, LOBBY.name, {}, guest)]);
  }

  /** A peer's ROOM_JOIN that arrives while its user is offline leaves a row behind; when the user then logs in here,
      there are two. No RECONNECT and no login over a session takes part. */
  lemma JoinBeforeLogin(n: Node, k: Socket, ann: string, other: string, guest: User)
    requires Boot(n) && ann in n.db.users && other != ""
    ensures var r := Run(n,
                         [DoPeer(RoomJoinEvent(ann, other, "", GENERAL.name), guest), DoConnect(k, guest),
                          DoLogin(k, ann, true)]);
            && k in r.sessions && r.sessions[k].auth && r.sessions[k].user.name == ann
            && !OnlyRow(r.db.membership, ann, r.sessions[k].room.id, r.self)
  {
    hide Core, Step, Boot, Run, Rejoin, OnlyRow, LoggedInAs;
    var a, b, c := DoPeer(RoomJoinEvent(ann, other, "", GENERAL.name), guest), DoConnect(k, guest),
        DoLogin(k, ann, true);
    BootCore(n);
    StepCore(n, a);
    RowLeft(n, ann, other, guest);
    var n1 := Step(n, a);
    ConnectStep(n1, k, guest);
    var n2 := Step(n1, b);
    SoloIs(n2, k, ann);
    LoginStep(n2, k, ann);
    RunThree(n, a, b, c);
    RejoinKeeps(n2.db.membership, ann, n2.self);
  }

  lemma RowLeft(n: Node, ann: string, other: string, guest: User)
    requires Boot(n) && ann in n.db.users && other != ""
    ensures var r := Step(n, DoPeer(RoomJoinEvent(ann, other, "", GENERAL.name), guest));
            && r.self == n.self && r.sessions == map[] && r.db.online == map[] && r.db.users == n.db.users
            && (ann, GENERAL.id) in r.db.membership
  {
    hide Step, ApplyEvent;
    var e := RoomJoinEvent(ann, other, "", GENERAL.name);
    StepIs(n, DoPeer(e, guest));
    ApplyEventIs(n, e, guest);
  }

  lemma RejoinKeeps(m: Rows, u: string, node: string)
    requires (u, GENERAL.id) in m
    ensures !OnlyRow(Rejoin(m, u, LOBBY.id, LOBBY.id, node), u, LOBBY.id, node)
  {
    assert (u, GENERAL.id) in Rejoin(m, u, LOBBY.id, LOBBY.id, node);
  }

  /** ann leaves General. */
  lemma LeftGeneral(n: Node, boot: Node, j: Socket, ann: string)
    requires ann in boot.db.users && Alone(n, boot, j, Session(boot.db.users[ann], GENERAL, true))
    ensures Alone(Step(n, DoRoomLeave(j)), boot, j, Session(boot.db.users[ann], LOBBY, true))
  {
    hide Core, Step;
    LeaveStep(n, j);
  }

  /** Her move to General is applied again: her row says General now while her session is in the Lobby. */
  lemma Replayed(n: Node, boot: Node, j: Socket, ann: string, guest: User)
    requires ann in boot.db.users && ann != "" && boot.self != ""
    requires Alone(n, boot, j, Session(boot.db.users[ann], LOBBY, true))
    ensures var r := Step(n, DoPeer(RoomJoinEvent(ann, boot.self, LOBBY.name, GENERAL.name), guest));
            && j in r.sessions && r.sessions[j] == Session(boot.db.users[ann], LOBBY, true)
            && (ann, LOBBY.id) !in r.db.membership && (ann, GENERAL.id) in r.db.membership
  {
    CoreKnown(n);
    var e := RoomJoinEvent(ann, boot.self, LOBBY.name, GENERAL.name);
    hide Core, Step, ApplyEvent, KnownOk;
    StepIs(n, DoPeer(e, guest));
    ApplyEventIs(n, e, guest);
    hide ApplyRoomJoin;
    BackToGeneral(n, ann, boot.self);
  }

  lemma BackToGeneral(n: Node, ann: string, node: string)
    requires KnownOk(n.known) && ann != "" && node != "" && ann in n.db.users
    ensures var r := ApplyRoomJoin(n, ann, node, LOBBY.name, GENERAL.name);
            r.sessions == n.sessions && (ann, LOBBY.id) !in r.db.membership && (ann, GENERAL.id) in r.db.membership
  {}

  /** A logged-in user asks for General and the insertion of the new row fails: the session is back in the Lobby, and
      the user has no row at all. */
  lemma InsertFails(n: Node, j: Socket, ann: string, guest: User)
    requires Boot(n) && ann in n.db.users
    ensures var m := Step(Step(n, DoConnect(j, guest)), DoLogin(j, ann, true));
            && j in m.sessions
            && var r := JoinRoom(m, j, GENERAL.name, SetFails).0;
               j in r.sessions && r.sessions[j] == Session(n.db.users[ann], LOBBY, true) && n.db.users[ann].name == ann
               && NoRow(r.db.membership, ann)
  {
    assert n.db.online == map[] && n.db.membership == map[];
    Connected(n, j, guest);
    hide Step, Boot, Core, JoinRoom;
    var n1 := Step(n, DoConnect(j, guest));
    LoggedIn(n1, n, j, guest, ann);
    var m := Step(n1, DoLogin(j, ann, true));
    CoreKnown(m);
    JoinFrame(m, j, GENERAL.name, SetFails);
    assert m.sessions[j] == Session(n.db.users[ann], LOBBY, true);
  }

  // ---------------------------------------------------------------- the room index

  /** A room is created and joined; when the database then refuses to delete it, its member sits in the Lobby's set
      while the session is still in the forgotten room. */
  lemma DeleteRefused(n: Node, j: Socket, ann: string, name: string, guest: User)
    requires Boot(n) && ann in n.db.users && name != "" && name != LOBBY.name && name != GENERAL.name
    ensures var m := Step(Step(Step(Step(n, DoConnect(j, guest)), DoLogin(j, ann, true)), DoRoomCreate(j, name, false)),
                          DoRoomJoin(j, name));
            Core(m) && Deletable(m, name) && !Index(DeleteRoom(m, name, false).0)
  {
    assert n.db.online == map[] && name !in n.known && name !in n.db.rooms.Values;
    Connected(n, j, guest);
    hide Step, Boot, Rejoin, Core;
    var n1 := Step(n, DoConnect(j, guest));
    LoggedIn(n1, n, j, guest, ann);
    LoginKnown(n1, j, ann);
    ConnectKnown(n, j, guest);
    var n2 := Step(n1, DoLogin(j, ann, true));
    hide Alone;
    AloneIn(n2, n, j, Session(n.db.users[ann], LOBBY, true));
    RoomMade(n2, j, name);
    var n3 := Step(n2, DoRoomCreate(j, name, false));
    RoomEntered(n3, j, name);
    Refused(Step(n3, DoRoomJoin(j, name)), j, name);
  }

  lemma AloneIn(n: Node, boot: Node, j: Socket, s: Session)
    requires Alone(n, boot, j, s)
    ensures Core(n) && j in n.sessions && n.sessions[j] == s
  {}

  lemma ConnectKnown(n: Node, j: Socket, guest: User)
    requires Boot(n)
    ensures var r := Step(n, DoConnect(j, guest)); r.known == n.known && r.db == n.db
  {
    BootCore(n);
    hide Core, Open, Boot;
    assert j !in n.sessions by { BootEmpty(n); }
    OpenFrame(n, j, guest);
  }

  lemma BootEmpty(n: Node)
    requires Boot(n)
    ensures n.sessions == map[]
  {}

  lemma LoginKnown(n: Node, j: Socket, name: string)
    requires Core(n) && j in n.sessions && name in n.db.users && name !in n.db.online && LoggedInAs(n, name) == {}
    ensures var r := Step(n, DoLogin(j, name, true)); r.known == n.known && r.db.rooms == n.db.rooms
  {
    hide Step, Core, Rejoin, Authenticate, Joined, Login, HasSession;
    UserName(n, name);
    NoSession(n, name);
    LoginIs(n, j, name);
    StepIs(n, DoLogin(j, name, true));
    CoreKnown(n);
    AuthenticateIs(n, j, n.db.users[name]);
    JoinedFrame(SetUser(n, j, n.db.users[name], true), j, LOBBY.name);
  }

  lemma RoomMade(n: Node, j: Socket, name: string)
    requires Core(n) && j in n.sessions && n.sessions[j].auth && name != "" && name !in n.known
    requires name !in n.db.rooms.Values
    ensures var r := Step(n, DoRoomCreate(j, name, false));
            Core(r) && r.sessions == n.sessions && name in r.known && !r.known[name].private
  {
    hide Step, Core, PacketCreate;
    StepIs(n, DoRoomCreate(j, name, false));
    PacketCreateIs(n, j, name, false);
    assert CreateRoom(n, name, false, n.sessions[j].user.email, true).1;
    hide CreateRoom;
    CreateFrame(n, name, false, n.sessions[j].user.email);
  }

  lemma RoomEntered(n: Node, j: Socket, name: string)
    requires Core(n) && j in n.sessions && name in n.known && !n.known[name].private && name != ""
    ensures var r := Step(n, DoRoomJoin(j, name));
            Core(r) && j in r.sessions && r.sessions[j].room == n.known[name] && r.known == n.known
              && n.known[name].name == name
  {
    hide Step, Core, PacketJoin, Joined, Rejoin;
    CoreRoom(n, name);
    StepIs(n, DoRoomJoin(j, name));
    PacketJoinIs(n, j, name);
    JoinedFrame(n, j, name);
  }

  lemma Refused(n: Node, j: Socket, name: string)
    requires Core(n) && j in n.sessions && n.sessions[j].room.name == name && name != LOBBY.name && name != GENERAL.name
    requires name in n.known
    ensures Deletable(n, name) && !Index(DeleteRoom(n, name, false).0)
  {
    CoreIndex(n);
    CoreSession(n, j);
    assert j in Sitting(n, name);
    hide Core, Index, Seated, IdsOk, UsersOk;
    DeleteFaultIff(n, name, false);
  }
}
