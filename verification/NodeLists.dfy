/** The allow-lists: who is on them, and what an entry gives its user. */
module NodeLists {
  import opened ChatNode
  import opened RoomIndex
  import opened NodeShapes
  import opened NodePackets
  import opened NodeRuns
  import opened NodeOutcomes

  function Emails(users: map<string, User>): (r: set<string>) { set u | u in users :: users[u].email }

  /** Every entry is of a room that exists and of a registered user's email. */
  ghost predicate Entries(n: Node)
  {
    forall x :: x in n.db.allow ==> x.0 in n.db.rooms && x.1 in Emails(n.db.users)
  }

  lemma SameLists(n: Node, r: Node)
    requires Entries(n) && r.db.rooms == n.db.rooms && Emails(n.db.users) <= Emails(r.db.users)
    requires forall x :: x in r.db.allow ==> x in n.db.allow || (x.0 in n.db.rooms && x.1 in Emails(n.db.users))
    ensures Entries(r)
  {}

  lemma UserEmail(users: map<string, User>, u: string)
    requires u in users
    ensures users[u].email in Emails(users)
  {}

  lemma SessionEmail(n: Node, k: Socket)
    requires Core(n) && k in n.sessions && n.sessions[k].auth
    ensures n.sessions[k].user.email in Emails(n.db.users)
  {
    CoreSession(n, k);
    UserEmail(n.db.users, n.sessions[k].user.name);
  }

  lemma EmailsGrow(users: map<string, User>, u: User)
    requires u.name !in users
    ensures Emails(users) <= Emails(users[u.name := u])
  {
    forall e | e in Emails(users) ensures e in Emails(users[u.name := u]) {
      var v :| v in users && users[v].email == e;
      UserEmail(users[u.name := u], v);
    }
  }

  lemma RoomListed(n: Node, name: string)
    requires Core(n) && name in n.known
    ensures n.known[name].id in n.db.rooms
  {
    CoreRoom(n, name);
  }

  lemma PacketLists(n: Node, a: Action)
    requires Core(n) && Entries(n) && Possible(n, a) && !a.DoPeer? && !a.DoKick? && !a.DoRoomDelete? && !a.DoRoomCreate?
    requires !a.DoInvite?
    ensures Entries(Step(n, a))
  {
    hide Core, Step, Entries, Emails, Open, Remove, Login, Register, Reconnect, Logout, PacketJoin, PacketLeave,
      LoginOk, ReconnectOk, ResumeRoom, Rejoin, MoveRows, ClearRows, Sits, LoginRow;
    StepIs(n, a);
    match a
    case DoConnect(k, guest) => OpenOutcome(n, k, guest); SameLists(n, Open(n, k, guest));
    case DoDisconnect(k) => RemoveOutcome(n, k); SameLists(n, Remove(n, k));
    case DoLogin(k, name, ok) => LoginOutcome(n, k, name, ok); SameLists(n, Login(n, k, name, ok));
    case DoRegister(k, name, password, email) =>
      RegisterOutcome(n, k, name, password, email);
      if RegisterOk(n.db, name, password, email) { EmailsGrow(n.db.users, User(name, email, USER)); }
      SameLists(n, Register(n, k, name, password, email));
    case DoReconnect(k, name, room, live, guest) =>
      ReconnectOutcome(n, k, name, room, live, guest);
      if ReconnectOk(n, name, live) {
        ReconnectNamed(n, name, live);
        RoomListed(n, ResumeRoom(n, n.db.users[name], room));
        UserEmail(n.db.users, name);
      }
      SameLists(n, Reconnect(n, k, name, room, live, guest));
    case DoLogout(k, guest) => LogoutOutcome(n, k, guest); SameLists(n, Logout(n, k, guest));
    case DoMessage(k, id, text) => SameLists(n, SendMessage(n, k, id, text));
    case DoRoomJoin(k, room) =>
      JoinOutcome(n, k, room);
      if NameOr(room, LOBBY.name) in n.known { RoomListed(n, NameOr(room, LOBBY.name)); }
      if n.sessions[k].auth { SessionEmail(n, k); }
      SameLists(n, PacketJoin(n, k, room));
    case DoRoomLeave(k) => LeaveOutcome(n, k); SameLists(n, PacketLeave(n, k));
  }

  lemma CreateLists(n: Node, name: string, private: bool, email: string)
    requires Entries(n) && (email == "" || email in Emails(n.db.users))
    ensures Entries(CreateRoom(n, name, private, email, true).0)
  {
    hide CreateRoom, Emails;
    CreateFrame(n, name, private, email);
    CreatedEntries(n, name, private, email);
  }

  lemma CreatedEntries(n: Node, name: string, private: bool, email: string)
    ensures var (r, made) := CreateRoom(n, name, private, email, true);
            made ==>
              r.db.allow == n.db.allow || (email != "" && r.db.allow == n.db.allow[(n.db.nextRoom, email) := true])
  {}

  lemma AddLists(n: Node, name: string, email: string, creator: bool)
    requires Core(n) && Entries(n) && name in n.known && email in Emails(n.db.users)
    ensures Entries(AddAllow(n, n.known[name].id, email, creator))
  {
    RoomListed(n, name);
    hide Core, Emails;
  }

  lemma DeleteLists(n: Node, name: string)
    requires Core(n) && Entries(n)
    ensures Entries(DeleteRoom(n, name, true).0)
  {
    hide Core, DeleteRoom;
    if Deletable(n, name) { RoomDeletes(n, name); } else { NotDeleted(n, name); }
  }

  lemma ListLists(n: Node, a: Action)
    requires Core(n) && Entries(n) && Possible(n, a) && (a.DoKick? || a.DoRoomDelete? || a.DoRoomCreate? || a.DoInvite?)
    ensures Entries(Step(n, a))
  {
    hide Core, Step, Entries, PacketKick, PacketDelete, PacketCreate, PacketInvite, CreateRoom, DeleteRoom, KickOk,
      InviteOk, InRoomAs, Enters, AddAllow, MayManage, LoggedInAs;
    StepIs(n, a);
    match a
    case DoKick(k, room, name, found) => KickOutcome(n, k, room, name, found); KickLists(n, a);
    case DoRoomDelete(k, room) => PacketDeleteIs(n, k, room); DeleteLists(n, NameOr(room, n.sessions[k].room.name));
    case DoRoomCreate(k, room, private) =>
      PacketCreateIs(n, k, room, private);
      if n.sessions[k].auth { SessionEmail(n, k); CreateLists(n, room, private, n.sessions[k].user.email); }
    case DoInvite(k, room, name) => InviteLists(n, k, room, name);
  }

  lemma InviteLists(n: Node, k: Socket, room: string, invitee: string)
    requires Core(n) && Entries(n) && k in n.sessions
    ensures Entries(PacketInvite(n, k, room, invitee))
  {
    hide Core, Entries, PacketInvite, MayManage;
    InviteOutcome(n, k, room, invitee);
    var name := NameOr(room, n.sessions[k].room.name);
    if InviteOk(n, n.sessions[k], name, invitee) {
      UserEmail(n.db.users, invitee);
      AddLists(n, name, n.db.users[invitee].email, false);
    }
  }

  lemma KickLists(n: Node, a: Action)
    requires Core(n) && Entries(n) && a.DoKick? && Possible(n, a)
    ensures Entries(PacketKick(n, a.k, a.room, a.name, a.found))
  {
    hide Core, PacketKick, MayManage, Enters, LoggedInAs, InRoomAs;
    KickShape(n, a.k, a.room, a.name, a.found);
    var r, name := PacketKick(n, a.k, a.room, a.name, a.found), NameOr(a.room, n.sessions[a.k].room.name);
    if KickOk(n, n.sessions[a.k], name, a.name) && a.found in InRoomAs(n, a.name, name) {
      CutSame(n, name, a.name, a.found);
      EntersRooms(RemoveAllow(n, name, a.name), r, a.found);
    }
  }

  lemma EntersRooms(n: Node, r: Node, k: Socket)
    requires k in n.sessions && LOBBY.name in n.known && Enters(n, r, k, LOBBY.name)
    ensures r.db.rooms == n.db.rooms && r.db.users == n.db.users
  {}

  lemma EventLists(n: Node, e: Event, guest: User)
    requires Core(n) && Entries(n)
    ensures Entries(ApplyEvent(n, e, guest))
  {
    hide *;
    ApplyEventIs(n, e, guest);
    match e
    case LoginEvent(u, node) => RowEventLists(n, u, node, "", "", guest);
    case ReconnectEvent(u, node) => RowEventLists(n, u, node, "", "", guest);
    case LogoutEvent(u) => RowEventLists(n, u, "", "", "", guest);
    case UserCreatedEvent(u) => UserLists(n, u);
    case RoomCreatedEvent(u, room, private) => CreatedLists(n, u, room, private);
    case AclAddEvent(u, room, creator) => AclLists(n, u, room, creator);
    case RoomDeletedEvent(room) => DeletedLists(n, room);
    case KickEvent(u, room) => KickEventLists(n, u, room);
    case RoomJoinEvent(u, node, prev, room) => JoinLists(n, u, node, prev, room);
    case RoomLeaveEvent(u, room) => RowEventLists(n, u, "", "", room, guest);
    case MessageEvent(id, u, room) => MessageLists(n, id, u, room);
  }

  lemma RowEventLists(n: Node, u: string, node: string, prev: string, room: string, guest: User)
    requires Entries(n)
    ensures Entries(ApplyLogin(n, u, node)) && Entries(ApplyReconnect(n, u, node, guest)) && Entries(ApplyLogout(n, u))
    ensures Entries(ApplyRoomLeave(n, u, room))
  {
    RowEventTables(n, u, node, room, guest);
    hide ApplyLogin, ApplyReconnect, ApplyLogout, ApplyRoomLeave, Emails;
  }

  lemma RowEventTables(n: Node, u: string, node: string, room: string, guest: User)
    ensures SameTables(n, ApplyLogin(n, u, node)) && SameTables(n, ApplyReconnect(n, u, node, guest))
    ensures SameTables(n, ApplyLogout(n, u)) && SameTables(n, ApplyRoomLeave(n, u, room))
  {
    ReconnectEventTables(n, u, node, guest);
    hide ApplyReconnect, ClearRows, ClearRow;
  }

  lemma ReconnectEventTables(n: Node, u: string, node: string, guest: User)
    ensures SameTables(n, ApplyReconnect(n, u, node, guest))
  {
    hide MoveRows, SendToLobby, LoggedInAs;
    var placed := WithOnline(WithRows(n, MoveRows(n.db.membership, u, node)), n.db.online[u := node]);
    LobbyTables(placed, LoggedInAs(n, u), guest);
  }

  lemma LobbyTables(n: Node, ks: set<Socket>, guest: User)
    ensures SendToLobby(n, ks, guest).db == n.db
  {
    hide InLobby;
  }

  predicate SameTables(n: Node, r: Node)
  {
    r.db.allow == n.db.allow && r.db.rooms == n.db.rooms && r.db.users == n.db.users
  }

  lemma UserLists(n: Node, u: User)
    requires Entries(n)
    ensures Entries(ApplyUserCreated(n, u))
  {
    hide CanCreateUser, Emails;
    if ApplyUserCreated(n, u) != n {
      assert u.name !in n.db.users by { FreeName(n.db, u); }
      EmailsGrow(n.db.users, u);
    }
  }

  lemma FreeName(db: Tables, u: User)
    requires CanCreateUser(db, u)
    ensures u.name !in db.users
  {}

  lemma JoinLists(n: Node, u: string, node: string, prev: string, room: string)
    requires Entries(n)
    ensures Entries(ApplyRoomJoin(n, u, node, prev, room))
  {
    hide ApplyRoomJoin;
    JoinEventFrame(n, u, node, prev, room);
  }

  lemma MessageLists(n: Node, id: string, u: string, room: string)
    requires Entries(n)
    ensures Entries(ApplyMessage(n, id, u, room))
  {}

  lemma CreatedLists(n: Node, u: string, room: string, private: bool)
    requires Core(n) && Entries(n)
    ensures Entries(ApplyRoomCreated(n, u, room, private))
  {
    hide Core, Entries, CreateRoom, AddAllow;
    var email := if u in n.db.users then n.db.users[u].email else "";
    if u in n.db.users { UserEmail(n.db.users, u); }
    if room !in n.known {
      CreateLists(n, room, private, email);
    } else if email != "" {
      AddLists(n, room, email, true);
    }
  }

  lemma AclLists(n: Node, u: string, room: string, creator: bool)
    requires Core(n) && Entries(n)
    ensures Entries(ApplyAclAdd(n, u, room, creator))
  {
    hide Core, Entries, AddAllow;
    if room in n.known && u in n.db.users {
      UserEmail(n.db.users, u);
      AddLists(n, room, n.db.users[u].email, creator);
    }
  }

  lemma DeletedLists(n: Node, room: string)
    requires Core(n) && Entries(n)
    ensures Entries(ApplyRoomDeleted(n, room))
  {
    hide Core, Entries, DeleteRoom;
    DeleteLists(n, room);
  }

  lemma KickEventLists(n: Node, u: string, room: string)
    requires Entries(n)
    ensures Entries(ApplyKick(n, u, room))
  {
    hide KickToLobby, InRoomAs;
    if u != "" && room != "" && room in n.known {
      MovedTables(RemoveAllow(n, room, u), InRoomAs(n, u, room), u, n.known[room].id);
    }
  }

  lemma MovedTables(n: Node, ks: set<Socket>, u: string, from: int)
    ensures var r := KickToLobby(n, ks, u, from);
            r.db.allow == n.db.allow && r.db.rooms == n.db.rooms && r.db.users == n.db.users
  {
    hide InLobby;
  }

  lemma StepLists(n: Node, a: Action)
    requires Core(n) && Entries(n)
    ensures Entries(Step(n, a))
  {
    hide Core, Entries, ApplyEvent;
    if Possible(n, a) {
      hide Step;
      if a.DoPeer? {
        StepIs(n, a);
        EventLists(n, a.event, a.guest);
      } else if a.DoKick? || a.DoRoomDelete? || a.DoRoomCreate? || a.DoInvite? {
        ListLists(n, a);
      } else {
        PacketLists(n, a);
      }
    } else {
      NotPossible(n, a);
    }
  }

  /** In every run every allow-list entry is of a room that exists and of a registered user's email. */
  lemma {:induction false} RunLists(n: Node, actions: seq<Action>)
    requires Core(n) && Entries(n)
    ensures Core(Run(n, actions)) && Entries(Run(n, actions))
    decreases |actions|
  {
    hide Core, Entries, Step;
    if actions != [] {
      StepCore(n, actions[0]);
      StepLists(n, actions[0]);
      RunLists(Step(n, actions[0]), actions[1..]);
    }
  }

  // ---------------------------------------------------------------- who may manage a room

  /** The creator of a room may manage it and is admitted to it. */
  lemma CreatorManages(n: Node, k: Socket, name: string, private: bool)
    requires Core(n) && Entries(n) && k in n.sessions && n.sessions[k].auth && n.sessions[k].user.email != ""
    requires name != "" && name !in n.known && name !in n.db.rooms.Values
    ensures var r, s := PacketCreate(n, k, name, private), n.sessions[k];
            && name in r.known && r.known[name].private == private && r.sessions == n.sessions
            && Made(r, s.user.email, r.known[name].id) && EnterOk(r, s, name)
  {
    NextIsNew(n);
    hide Core, PacketCreate;
    CreateOutcome(n, k, name, private);
  }

  lemma NextIsNew(n: Node)
    requires Core(n)
    ensures n.db.nextRoom !in n.db.rooms
  {}

  /** From boot, whatever has happened before: who creates a room may manage it. */
  lemma BootCreatorManages(n: Node, actions: seq<Action>, k: Socket, name: string, private: bool)
    requires Boot(n)
    requires var m := Run(n, actions);
             && k in m.sessions && m.sessions[k].auth && m.sessions[k].user.email != ""
             && name != "" && name !in m.known && name !in m.db.rooms.Values
    ensures var m := Run(n, actions);
            var r, s := PacketCreate(m, k, name, private), m.sessions[k];
            && name in r.known && r.known[name].private == private
            && Made(r, s.user.email, r.known[name].id) && EnterOk(r, s, name)
  {
    BootCore(n);
    assert Entries(n);
    hide Boot, Step, Run, PacketCreate, Core, Entries, Made, EnterOk;
    RunLists(n, actions);
    CreatorManages(Run(n, actions), k, name, private);
  }

  /** An invited user is admitted, but an entry made by inviting does not make its user the room's creator. */
  lemma InviteAdmits(n: Node, k: Socket, room: string, invitee: string)
    requires Core(n) && k in n.sessions && InviteOk(n, n.sessions[k], room, invitee)
    ensures var r, email, id := PacketInvite(n, k, room, invitee), n.db.users[invitee].email, n.known[room].id;
            && r.sessions == n.sessions && r.known == n.known
            && EnterOk(r, Session(n.db.users[invitee], LOBBY, true), room)
            && (Made(r, email, id) <==> Made(n, email, id))
  {
    hide Core, PacketInvite;
    InviteOutcome(n, k, room, invitee);
  }

  /** A kicked user who is not an admin is shut out of a private room and no longer sits in it. */
  lemma KickShutsOut(n: Node, k: Socket, room: string, target: string, found: Socket)
    requires LoggedInAs(n, target) == {} || found in LoggedInAs(n, target)
    requires Core(n) && k in n.sessions && KickOk(n, n.sessions[k], room, target)
    ensures var r := PacketKick(n, k, room, target, found);
            var s := Session(n.db.users[target], LOBBY, true);
            && (n.known[room].private && s.user.kind != ADMIN ==> !EnterOk(r, s, room))
            && forall j :: j in r.sessions ==> !SatIn(r.sessions[j], room, target)
  {
    hide Core, PacketKick, KickOk, InRoomAs, Rejoin, Sits, SatIn;
    assert NameOr(room, n.sessions[k].room.name) == room by { KickNamed(n, k, room, target); }
    KickOutcome(n, k, room, target, found);
  }

  lemma KickNamed(n: Node, k: Socket, room: string, target: string)
    requires k in n.sessions && KickOk(n, n.sessions[k], room, target)
    ensures NameOr(room, n.sessions[k].room.name) == room
  {}
}
