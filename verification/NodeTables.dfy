/** The foreign keys of the tables: rooms in memory are the rooms of the table, and rows, entries and messages are of
    rooms that exist. */
module NodeTables {
  import opened ChatNode
  import opened RoomIndex
  import opened NodeShapes
  import opened NodePackets
  import opened NodeRuns
  import opened NodeOutcomes
  import opened PeerOutcomes

  predicate KnownRoom(n: Node, id: int)
    requires id in n.db.rooms
  {
    n.db.rooms[id] in n.known && n.known[n.db.rooms[id]].id == id
  }

  ghost predicate Tidy(n: Node)
  {
    && (forall id :: id in n.db.rooms ==> KnownRoom(n, id))
    && (forall x :: x in n.db.membership ==> x.1 in n.db.rooms)
    && (forall x :: x in n.db.allow ==> x.0 in n.db.rooms)
    && (forall x :: x in n.db.messages ==> n.db.messages[x] in n.db.rooms)
  }

  /** Same rooms, and nothing of a room that does not exist has been added. */
  lemma SameTidy(n: Node, r: Node)
    requires Tidy(n) && r.known == n.known && r.db.rooms == n.db.rooms
    requires forall x :: x in r.db.membership ==> x in n.db.membership || x.1 in n.db.rooms
    requires forall x :: x in r.db.allow ==> x in n.db.allow || x.0 in n.db.rooms
    requires forall x :: x in r.db.messages ==>
               r.db.messages[x] in n.db.rooms || (x in n.db.messages && r.db.messages[x] == n.db.messages[x])
    ensures Tidy(r)
  {
    forall id | id in r.db.rooms ensures KnownRoom(r, id) { assert KnownRoom(n, id); }
  }

  lemma MovedTidy(n: Node, m: Rows, r: Rows, u: string, from: int, to: int, node: string)
    requires forall x :: x in m ==> x in n.db.membership || x.1 in n.db.rooms
    requires r == Rejoin(m, u, from, to, node) && to in n.db.rooms
    ensures forall x :: x in r ==> x in n.db.membership || x.1 in n.db.rooms
  {}

  lemma CreatesTidy(n: Node, r: Node, name: string, private: bool, email: string)
    requires Core(n) && Tidy(n) && Creates(n, r, name, private, email) && name !in n.known
    ensures Tidy(r)
  {
    assert n.db.nextRoom !in n.db.rooms by { CoreIndex(n); }
    hide Core;
    forall id | id in r.db.rooms ensures KnownRoom(r, id) {
      if id in n.db.rooms { assert KnownRoom(n, id); }
    }
  }

  lemma DeletesTidy(n: Node, r: Node, name: string)
    requires Core(n) && Tidy(n) && name in n.known && name != LOBBY.name && Deletes(n, r, name)
    ensures Tidy(r)
  {
    CoreRoom(n, name);
    CoreIndex(n);
    CoreKnown(n);
    LobbyStays(n, name);
    hide Core, Index, Seated, IdsOk, UsersOk, SitsAs, Sits;
    var id := n.known[name].id;
    forall x | x in r.db.rooms ensures KnownRoom(r, x) {
      assert KnownRoom(n, x);
      assert n.db.rooms[x] != name;
    }
    forall x | x in r.db.membership ensures x.1 in r.db.rooms {}
    forall x | x in r.db.messages ensures r.db.messages[x] in r.db.rooms {}
  }

  lemma LobbyStays(n: Node, name: string)
    requires Core(n) && name in n.known && name != LOBBY.name
    ensures LOBBY.id in n.db.rooms && n.known[name].id != LOBBY.id
  {
    CoreKnown(n);
    CoreRoom(n, LOBBY.name);
    CoreIndex(n);
    IdsDiffer(n, name, LOBBY.name);
    hide Core;
  }

  // ---------------------------------------------------------------- clients

  /** Rooms, messages and users' entries as they were, and rows only of rooms that exist. */
  lemma RowsTidy(n: Node, r: Node)
    requires Tidy(n) && Still(n, r) && r.db.allow == n.db.allow
    requires forall x :: x in r.db.membership ==> x in n.db.membership || x.1 in n.db.rooms
    ensures Tidy(r)
  {
    SameTidy(n, r);
  }

  lemma LogsInTidy(n: Node, r: Node, k: Socket, u: User)
    requires Core(n) && Tidy(n) && k in n.sessions && LogsIn(n, r, k, u)
    ensures Tidy(r)
  {
    LobbyIn(n);
    hide Core, Tidy, Sits, LoginRow, Rejoin;
    MovedTidy(n, n.db.membership, r.db.membership, u.name, n.sessions[k].room.id, LOBBY.id, n.self);
    RowsTidy(n, r);
  }

  lemma LobbyIn(n: Node)
    requires Core(n)
    ensures LOBBY.id in n.db.rooms
  {
    CoreKnown(n);
    CoreRoom(n, LOBBY.name);
  }

  lemma ResumesTidy(n: Node, r: Node, k: Socket, u: User, room: string)
    requires Core(n) && Tidy(n) && k in n.sessions && room in n.known && Resumes(n, r, k, u, room)
    ensures Tidy(r)
  {
    CoreRoom(n, room);
    hide Core, Tidy, Sits, Rejoin;
    MovedTidy(n, map x | x in n.db.membership :: if x.0 == u.name then n.self else n.db.membership[x], r.db.membership,
              u.name, n.sessions[k].room.id, n.known[room].id, n.self);
    SameTidy(n, r);
  }

  lemma EntersTidy(n: Node, r: Node, k: Socket, name: string)
    requires Core(n) && Tidy(n) && k in n.sessions && name in n.known && Enters(n, r, k, name)
    requires forall x :: x in r.db.allow ==> x in n.db.allow || x.0 in n.db.rooms
    ensures Tidy(r)
  {
    CoreRoom(n, name);
    hide Core, Tidy, Sits, Rejoin;
    var s := n.sessions[k];
    if s.auth {
      MovedTidy(n, n.db.membership, r.db.membership, s.user.name, s.room.id, n.known[name].id, n.self);
    }
    SameTidy(n, r);
  }

  lemma FewerRows(n: Node, r: Node, u: string)
    requires RowsGo(n.db.membership, r.db.membership, u)
    ensures forall x :: x in r.db.membership ==> x in n.db.membership
  {}

  lemma ClientTidy(n: Node, a: Action)
    requires Core(n) && Tidy(n) && Possible(n, a) && !a.DoPeer? && !a.DoRoomCreate? && !a.DoRoomDelete? && !a.DoKick?
    ensures Tidy(Step(n, a))
  {
    StepIs(n, a);
    hide *;
    match a
    case DoConnect(k, guest) => ConnectTidy(n, k, guest);
    case DoDisconnect(k) => DisconnectTidy(n, k);
    case DoLogin(k, name, ok) =>
      LoginOutcome(n, k, name, ok);
      if LoginOk(n, name, ok) { LogsInTidy(n, Login(n, k, name, ok), k, n.db.users[name]); }
    case DoRegister(k, name, password, email) =>
      RegisterOutcome(n, k, name, password, email);
      if RegisterOk(n.db, name, password, email) {
        LogsInTidy(n, Register(n, k, name, password, email), k, User(name, email, USER));
      }
    case DoReconnect(k, name, room, live, guest) =>
      ReconnectOutcome(n, k, name, room, live, guest);
      if ReconnectOk(n, name, live) {
        ReconnectNamed(n, name, live);
        ResumesTidy(n, Reconnect(n, k, name, room, live, guest), k, n.db.users[name],
                    ResumeRoom(n, n.db.users[name], room));
      }
    case DoLogout(k, guest) => LogoutTidy(n, k, guest);
    case DoMessage(k, id, text) => MessageTidy(n, k, id, text);
    case DoRoomJoin(k, room) => JoinTidy(n, k, room);
    case DoRoomLeave(k) =>
      LeaveOutcome(n, k);
      EntersTidy(n, PacketLeave(n, k), k, LOBBY.name);
    case DoInvite(k, room, invitee) => InviteTidy(n, k, room, invitee);
  }

  lemma ConnectTidy(n: Node, k: Socket, guest: User)
    requires Core(n) && Tidy(n) && Possible(n, DoConnect(k, guest))
    ensures Tidy(Open(n, k, guest))
  {
    hide Core, Tidy, Open, Sits;
    OpenOutcome(n, k, guest);
    RowsTidy(n, Open(n, k, guest));
  }

  lemma DisconnectTidy(n: Node, k: Socket)
    requires Core(n) && Tidy(n)
    ensures Tidy(Remove(n, k))
  {
    hide Core, Tidy, Remove, Sits, RowsGo;
    RemoveOutcome(n, k);
    if k in n.sessions && n.sessions[k].auth { FewerRows(n, Remove(n, k), n.sessions[k].user.name); }
    RowsTidy(n, Remove(n, k));
  }

  lemma LogoutTidy(n: Node, k: Socket, guest: User)
    requires Core(n) && Tidy(n) && k in n.sessions
    ensures Tidy(Logout(n, k, guest))
  {
    hide Core, Tidy, Logout, Sits, RowsGo;
    LogoutOutcome(n, k, guest);
    if n.sessions[k].auth { FewerRows(n, Logout(n, k, guest), n.sessions[k].user.name); }
    RowsTidy(n, Logout(n, k, guest));
  }

  lemma MessageTidy(n: Node, k: Socket, id: string, text: string)
    requires Core(n) && Tidy(n) && k in n.sessions
    ensures Tidy(SendMessage(n, k, id, text))
  {
    CoreSession(n, k);
    hide Core, Tidy, SendMessage;
    MessageOutcome(n, k, id, text);
    SameTidy(n, SendMessage(n, k, id, text));
  }

  lemma JoinTidy(n: Node, k: Socket, room: string)
    requires Core(n) && Tidy(n) && k in n.sessions
    ensures Tidy(PacketJoin(n, k, room))
  {
    var name := NameOr(room, LOBBY.name);
    hide Core, Tidy, PacketJoin, Enters;
    JoinOutcome(n, k, room);
    if EnterOk(n, n.sessions[k], name) {
      CoreRoom(n, name);
      EntersTidy(n, PacketJoin(n, k, room), k, name);
    }
  }

  lemma InviteTidy(n: Node, k: Socket, room: string, invitee: string)
    requires Core(n) && Tidy(n) && k in n.sessions
    ensures Tidy(PacketInvite(n, k, room, invitee))
  {
    var name := NameOr(room, n.sessions[k].room.name);
    hide Core, Tidy, PacketInvite;
    InviteOutcome(n, k, room, invitee);
    if name in n.known { CoreRoom(n, name); }
    SameTidy(n, PacketInvite(n, k, room, invitee));
  }

  lemma CreateTidy(n: Node, k: Socket, name: string, private: bool)
    requires Core(n) && Tidy(n) && k in n.sessions
    ensures Tidy(PacketCreate(n, k, name, private))
  {
    hide Core, Tidy, PacketCreate, Creates;
    CreateOutcome(n, k, name, private);
    var s := n.sessions[k];
    if s.auth && name != "" && name !in n.known && name !in n.db.rooms.Values {
      CreatesTidy(n, PacketCreate(n, k, name, private), name, private, s.user.email);
    }
  }

  lemma DeleteTidy(n: Node, k: Socket, room: string)
    requires Core(n) && Tidy(n) && k in n.sessions
    ensures Tidy(PacketDelete(n, k, room))
  {
    hide Core, Tidy, PacketDelete, Deletes;
    DeleteOutcome(n, k, room);
    var name := NameOr(room, n.sessions[k].room.name);
    if DeleteOk(n, n.sessions[k], name) { DeletesTidy(n, PacketDelete(n, k, room), name); }
  }

  lemma CutTidy(n: Node, id: int, email: string)
    requires Core(n) && Tidy(n)
    ensures Core(Unlisted(n, id, email)) && Tidy(Unlisted(n, id, email)) && Unlisted(n, id, email).known == n.known
    ensures Unlisted(n, id, email).sessions == n.sessions && Unlisted(n, id, email).db.rooms == n.db.rooms
  {
    TablesCore(n, Unlisted(n, id, email));
    hide Core;
    SameTidy(n, Unlisted(n, id, email));
  }

  lemma KickTidy(n: Node, k: Socket, room: string, target: string, found: Socket)
    requires Core(n) && Tidy(n) && k in n.sessions && (LoggedInAs(n, target) == {} || found in LoggedInAs(n, target))
    ensures Tidy(PacketKick(n, k, room, target, found))
  {
    hide Core, Tidy, PacketKick, Enters, Unlisted, LoggedInAs, SatIn;
    KickOutcome(n, k, room, target, found);
    var name := NameOr(room, n.sessions[k].room.name);
    if KickOk(n, n.sessions[k], name, target) {
      var id, email := n.known[name].id, n.db.users[target].email;
      CutTidy(n, id, email);
      if found in n.sessions && SatIn(n.sessions[found], name, target) {
        EntersTidy(Unlisted(n, id, email), PacketKick(n, k, room, target, found), found, LOBBY.name);
      }
    }
  }

  // ---------------------------------------------------------------- peers

  lemma EventTidy(n: Node, r: Node, e: Event, guest: User)
    requires Core(n) && Tidy(n) && Does(n, r, e, guest)
    ensures Tidy(r)
  {
    DoesIs(n, r, e, guest);
    hide *;
    match e
    case LoginEvent(u, node) => OnlineTidy(n, r, u, node);
    case ReconnectEvent(u, node) => TakenTidy(n, r, u, node, guest);
    case LogoutEvent(u) => OfflineTidy(n, r, u);
    case UserCreatedEvent(u) => StoresTidy(n, r, u);
    case RoomCreatedEvent(u, room, private) => AppearsTidy(n, r, u, room, private);
    case AclAddEvent(u, room, creator) => ListedTidy(n, r, u, room, creator);
    case RoomDeletedEvent(room) => DisappearsTidy(n, r, room);
    case KickEvent(u, room) => LeavesTidy(n, r, u, room);
    case RoomJoinEvent(u, node, prev, room) => RowMovesTidy(n, r, u, node, prev, room);
    case RoomLeaveEvent(u, room) => RowGoesTidy(n, r, u, room);
    case MessageEvent(id, u, room) => PostsTidy(n, r, id, u, room);
  }

  lemma OnlineTidy(n: Node, r: Node, u: string, node: string)
    requires Tidy(n) && ComesOnline(n, r, u, node)
    ensures Tidy(r)
  {
    hide Tidy;
    SameTidy(n, r);
  }

  lemma TakenTidy(n: Node, r: Node, u: string, node: string, guest: User)
    requires Tidy(n) && TakenOver(n, r, u, node, guest)
    ensures Tidy(r)
  {
    hide Tidy, Sits;
    if u != "" && node != "" { RowsTidy(n, r); }
  }

  lemma OfflineTidy(n: Node, r: Node, u: string)
    requires Tidy(n) && GoesOffline(n, r, u)
    ensures Tidy(r)
  {
    hide Tidy, RowsGo;
    if u != "" {
      FewerRows(n, r, u);
      SameTidy(n, r);
    }
  }

  lemma StoresTidy(n: Node, r: Node, u: User)
    requires Tidy(n) && Stores(n, r, u)
    ensures Tidy(r)
  {
    hide Tidy;
    SameTidy(n, r);
  }

  lemma AppearsTidy(n: Node, r: Node, u: string, name: string, private: bool)
    requires Core(n) && Tidy(n) && Appears(n, r, u, name, private)
    ensures Tidy(r)
  {
    hide Core, Tidy, Creates;
    if name in n.known {
      CoreRoom(n, name);
      SameTidy(n, r);
    } else if name != "" && name !in n.db.rooms.Values {
      CreatesTidy(n, r, name, private, EmailOf(n, u));
    }
  }

  lemma ListedTidy(n: Node, r: Node, u: string, name: string, creator: bool)
    requires Core(n) && Tidy(n) && IsListed(n, r, u, name, creator)
    ensures Tidy(r)
  {
    hide Core, Tidy;
    if name in n.known { CoreRoom(n, name); }
    SameTidy(n, r);
  }

  lemma DisappearsTidy(n: Node, r: Node, name: string)
    requires Core(n) && Tidy(n) && Disappears(n, r, name)
    ensures Tidy(r)
  {
    hide Core, Tidy, Deletes;
    if name in n.known && name != "Lobby" && name != "General" { DeletesTidy(n, r, name); }
  }

  lemma LeavesTidy(n: Node, r: Node, u: string, name: string)
    requires Core(n) && Tidy(n) && Leaves(n, r, u, name)
    ensures Tidy(r)
  {
    hide Core, Tidy, Enters, Unlisted, SatIn;
    if u != "" && name in n.known {
      var id := n.known[name].id;
      if u in n.db.users { CutTidy(n, id, n.db.users[u].email); }
      var cut := if u in n.db.users then Unlisted(n, id, n.db.users[u].email) else n;
      if j :| j in n.sessions && SatIn(n.sessions[j], name, u) {
        EntersTidy(cut, r, j, LOBBY.name);
      }
    }
  }

  lemma RowMovesTidy(n: Node, r: Node, u: string, node: string, prev: string, room: string)
    requires Core(n) && Tidy(n) && RowMoves(n, r, u, node, prev, room)
    ensures Tidy(r)
  {
    hide Core, Tidy;
    if Named(room) in n.known { CoreRoom(n, Named(room)); }
    SameTidy(n, r);
  }

  lemma RowGoesTidy(n: Node, r: Node, u: string, room: string)
    requires Tidy(n) && RowGoes(n, r, u, room)
    ensures Tidy(r)
  {
    hide Tidy;
    SameTidy(n, r);
  }

  lemma PostsTidy(n: Node, r: Node, id: string, u: string, room: string)
    requires Core(n) && Tidy(n) && Posts(n, r, id, u, room)
    ensures Tidy(r)
  {
    hide Core, Tidy;
    if Named(room) in n.known { CoreRoom(n, Named(room)); }
    SameTidy(n, r);
  }

  // ---------------------------------------------------------------- every run

  lemma StepTidy(n: Node, a: Action)
    requires Core(n) && Tidy(n)
    ensures Tidy(Step(n, a))
  {
    hide Core, Tidy, Step, Does;
    if !Possible(n, a) {
      NotPossible(n, a);
    } else if a.DoPeer? {
      StepIs(n, a);
      PeerOutcome(n, a.event, a.guest);
      EventTidy(n, ApplyEvent(n, a.event, a.guest), a.event, a.guest);
    } else if a.DoRoomCreate? {
      StepIs(n, a);
      CreateTidy(n, a.k, a.room, a.private);
    } else if a.DoRoomDelete? {
      StepIs(n, a);
      DeleteTidy(n, a.k, a.room);
    } else if a.DoKick? {
      StepIs(n, a);
      KickTidy(n, a.k, a.room, a.name, a.found);
    } else {
      ClientTidy(n, a);
    }
  }

  /** From boot, over every run: no row, entry or message of a room that does not exist, and no room in the table that
      is not known. */
  lemma {:induction false} RunTidy(n: Node, actions: seq<Action>)
    requires Core(n) && Tidy(n)
    ensures Tidy(Run(n, actions))
    decreases |actions|
  {
    hide Core, Tidy, Step;
    if actions != [] {
      StepCore(n, actions[0]);
      StepTidy(n, actions[0]);
      RunTidy(Step(n, actions[0]), actions[1..]);
    }
  }

  lemma BootTidy(n: Node, actions: seq<Action>)
    requires Boot(n)
    ensures Tidy(Run(n, actions))
  {
    BootCore(n);
    assert Tidy(n);
    hide Boot, Core, Tidy, Run;
    RunTidy(n, actions);
  }
}
