/** Private rooms: whatever packets and peer events a node processes, nobody sits in a private room without
    being an admin or on the room's allow-list. */
module NodeAccess {
  import opened ChatNode
  import opened RoomIndex
  import opened NodeShapes
  import opened NodePackets
  import opened NodeRuns
  import opened NodeMembership

  ghost predicate Access(n: Node)
  {
    forall k :: k in n.sessions ==> !Blocked(n, n.sessions[k], n.sessions[k].room)
  }

  /** The session sits in the Lobby, or is unchanged and keeps its allow-list entry. */
  predicate Settled(n: Node, r: Node, k: Socket)
    requires k in r.sessions
  {
    || r.sessions[k].room == LOBBY
    || (k in n.sessions && r.sessions[k] == n.sessions[k] && Kept(n, r, n.sessions[k]))
  }

  predicate Kept(n: Node, r: Node, s: Session)
  {
    (s.room.id, s.user.email) in n.db.allow ==> (s.room.id, s.user.email) in r.db.allow
  }

  lemma SettledAccess(n: Node, r: Node)
    requires Access(n) && forall k :: k in r.sessions ==> Settled(n, r, k)
    ensures Access(r)
  {
    forall k | k in r.sessions ensures !Blocked(r, r.sessions[k], r.sessions[k].room) {
      assert Settled(n, r, k);
      if k in n.sessions { assert !Blocked(n, n.sessions[k], n.sessions[k].room); }
    }
  }

  /** One session is put into the Lobby; the allow-list only grows. */
  lemma LobbyAccess(n: Node, r: Node, k: Socket, s: Session)
    requires Access(n) && r.sessions == n.sessions[k := s.(room := LOBBY)]
    requires forall x :: x in n.db.allow ==> x in r.db.allow
    ensures Access(r)
  {
    SettledAccess(n, r);
  }

  /** No session changes and the allow-list only grows. */
  lemma GrowAccess(n: Node, r: Node)
    requires Access(n) && r.sessions == n.sessions && forall x :: x in n.db.allow ==> x in r.db.allow
    ensures Access(r)
  {
    SettledAccess(n, r);
  }

  /** One session enters a room that is open to it. */
  lemma EnterAccess(n: Node, r: Node, k: Socket, s: Session)
    requires Access(n) && r.sessions == n.sessions[k := s] && !Blocked(n, s, s.room)
    requires forall x :: x in n.db.allow ==> x in r.db.allow
    ensures Access(r)
  {
    forall j | j in r.sessions ensures !Blocked(r, r.sessions[j], r.sessions[j].room) {
      if j != k { assert !Blocked(n, n.sessions[j], n.sessions[j].room); }
    }
  }

  // ---------------------------------------------------------------- packets

  lemma ConnectAccess(n: Node, k: Socket, guest: User)
    requires Core(n) && Access(n) && k !in n.sessions
    ensures Access(Open(n, k, guest))
  {
    hide Core, Access, Open, Move;
    CoreIndex(n);
    OpenIs(n, k, guest);
    MoveFrame(Opened(n, k, guest), k, LOBBY.name, LOBBY);
    LobbyAccess(n, Open(n, k, guest), k, Session(guest, LOBBY, false));
  }

  lemma DisconnectAccess(n: Node, k: Socket)
    requires Access(n)
    ensures Access(Remove(n, k))
  {
    hide Access, Unseat, ClearRows;
    SettledAccess(n, Remove(n, k));
  }

  lemma AuthenticateAccess(n: Node, k: Socket, u: User)
    requires Core(n) && Access(n) && k in n.sessions && u.name in n.db.users && n.db.users[u.name] == u
    requires !HasSession(n, u)
    ensures Access(Authenticate(n, k, u))
  {
    hide Core, Access, HasSession, Authenticate, Joined, Index, Seated, IdsOk, UsersOk;
    CoreIndex(n);
    AuthenticateIs(n, k, u);
    JoinedFrame(SetUser(n, k, u, true), k, LOBBY.name);
    LobbyAccess(n, Authenticate(n, k, u), k, Session(u, LOBBY, true));
  }

  lemma LoginAccess(n: Node, k: Socket, name: string, ok: bool)
    requires Core(n) && Access(n) && k in n.sessions
    ensures Access(Login(n, k, name, ok))
  {
    hide Core, Access, Authenticate, HasSession;
    if name in n.db.users {
      assert n.db.users[name].name == name by { CoreIndex(n); }
      if !HasSession(n, n.db.users[name]) { AuthenticateAccess(n, k, n.db.users[name]); }
    }
  }

  lemma RegisterAccess(n: Node, k: Socket, name: string, password: string, email: string)
    requires Core(n) && Access(n) && k in n.sessions
    ensures Access(Register(n, k, name, password, email))
  {
    hide Core, Access, Authenticate, CanCreateUser, HasSession;
    var u := User(name, email, USER);
    if name != "" && password != "" && email != "" && CanCreateUser(n.db, u) {
      RegisterReady(n, u);
      GrowAccess(n, WithUser(n, u));
      AuthenticateAccess(WithUser(n, u), k, u);
    }
  }

  lemma ReconnectAccess(n: Node, k: Socket, name: string, room: string, live: set<string>, guest: User)
    requires Core(n) && Access(n) && k in n.sessions
    ensures Access(Reconnect(n, k, name, room, live, guest))
  {
    hide Core, Access, HasSession, OwnerLive, Reconnected, Reconnect, Blocked, ReconnectRoom, ApplyRoomJoin, Joined,
      Claimed, JoinRoom;
    if CanReconnect(n, name, live) {
      var u := n.db.users[name];
      var into := ReconnectRoom(n, u, room);
      ReconnectIs(n, k, name, room, live, guest);
      ReconnectedFrame(n, k, u, into);
      ReconnectedAllow(n, k, u, into);
      OpenToUser(n, u, room);
      EnterAccess(n, Reconnect(n, k, name, room, live, guest), k, Session(u, n.known[into], true));
    }
    assert !CanReconnect(n, name, live) ==> Reconnect(n, k, name, room, live, guest) == n by {
      NotGranted(n, k, name, room, live, guest);
    }
  }

  lemma NotGranted(n: Node, k: Socket, name: string, room: string, live: set<string>, guest: User)
    requires k in n.sessions
    ensures !CanReconnect(n, name, live) ==> Reconnect(n, k, name, room, live, guest) == n
  {
    hide CanReconnect;
  }

  lemma ReconnectedAllow(n: Node, k: Socket, u: User, room: string)
    requires k in n.sessions && room in n.known
    ensures forall x :: x in n.db.allow ==> x in Reconnected(n, k, u, room).db.allow
  {
    hide Joined;
    var c := Claimed(n, k, u);
    JoinedFrame(c, k, room);
  }

  lemma OpenToUser(n: Node, u: User, requested: string)
    requires Core(n)
    ensures var into := ReconnectRoom(n, u, requested);
            into in n.known && !Blocked(n, Session(u, n.known[into], true), n.known[into])
  {
    CoreIndex(n);
    hide Core;
  }

  lemma LogoutAccess(n: Node, k: Socket, guest: User)
    requires Core(n) && Access(n) && k in n.sessions
    ensures Access(Logout(n, k, guest))
  {
    hide Core, Access, Demoted, Logout, ClearRows;
    DemotedFrame(n, k, guest);
    LogoutIs(n, k, guest);
    LobbyAccess(n, Logout(n, k, guest), k, Session(guest, LOBBY, false));
  }

  lemma JoinAccess(n: Node, k: Socket, room: string)
    requires Core(n) && Access(n) && k in n.sessions
    ensures Access(PacketJoin(n, k, room)) && Access(PacketLeave(n, k))
  {
    hide Core, Access, Joined, PacketJoin, PacketLeave;
    var name, s := NameOr(room, LOBBY.name), n.sessions[k];
    PacketJoinIs(n, k, room);
    if name in n.known && !Blocked(n, s, n.known[name]) {
      JoinedFrame(n, k, name);
      EnterAccess(n, PacketJoin(n, k, room), k, s.(room := n.known[name]));
    }
    PacketLeaveIs(n, k);
    CoreIndex(n);
    JoinedFrame(n, k, LOBBY.name);
    LobbyAccess(n, PacketLeave(n, k), k, s);
  }

  lemma CreatedAccess(n: Node, name: string, private: bool, email: string)
    requires Access(n)
    ensures Access(CreateRoom(n, name, private, email, true).0)
  {
    hide Access;
    GrowAccess(n, CreateRoom(n, name, private, email, true).0);
  }

  lemma CreateAccess(n: Node, k: Socket, name: string, private: bool)
    requires Core(n) && Access(n) && k in n.sessions
    ensures Access(PacketCreate(n, k, name, private))
  {
    hide Core, Access, CreateRoom, PacketCreate;
    PacketCreateIs(n, k, name, private);
    CreatedAccess(n, name, private, n.sessions[k].user.email);
  }

  lemma InviteAccess(n: Node, k: Socket, room: string, name: string)
    requires Access(n) && k in n.sessions
    ensures Access(PacketInvite(n, k, room, name))
  {
    hide Access, MayManage;
    GrowAccess(n, PacketInvite(n, k, room, name));
  }

  lemma MessageAccess(n: Node, id: string, u: string, room: string)
    requires Access(n)
    ensures Access(ApplyMessage(n, id, u, room))
  {
    hide Access;
    SettledAccess(n, ApplyMessage(n, id, u, room));
  }

  /** A deleted room's members are in the Lobby; the allow-lists of the other rooms are untouched. */
  lemma DeleteAccess(n: Node, name: string)
    requires Core(n) && Access(n) && Deletable(n, name)
    ensures Access(DeleteRoom(n, name, true).0)
  {
    hide Core, Access, DeleteRoom, ForgetRoom, Sitting;
    DeleteSucceeds(n, name);
    DeletedShape(n, name, true);
    DeletedAllow(n, name);
    var r := DeleteRoom(n, name, true).0;
    forall k | k in r.sessions ensures Settled(n, r, k) {
      if k !in Sitting(n, name) { OtherRoom(n, k, name); }
    }
    SettledAccess(n, r);
  }

  lemma DeletedAllow(n: Node, name: string)
    requires DeleteRoom(n, name, true).1
    ensures name in n.known
    ensures forall x :: x in n.db.allow && x.0 != n.known[name].id ==> x in DeleteRoom(n, name, true).0.db.allow
  {
    hide UsersOf, LobbyRows;
  }

  /** Taking a user off a list is safe when every session of that user in the room goes to the Lobby. */
  lemma CutAccess(n: Node, name: string, u: string, r: Node)
    requires Core(n) && Access(n) && name in n.known && r.db.allow == RemoveAllow(n, name, u).db.allow
    requires forall k :: k in r.sessions ==>
               r.sessions[k].room == LOBBY
                 || (k in n.sessions && r.sessions[k] == n.sessions[k] && k !in InRoomAs(n, u, name))
    ensures Access(r)
  {
    hide Core, InRoomAs;
    forall k | k in r.sessions ensures !Blocked(r, r.sessions[k], r.sessions[k].room) {
      var s := r.sessions[k];
      if s.room != LOBBY {
        AccessAt(n, k);
        if u in n.db.users && s.auth && s.room.id == n.known[name].id && s.user.email == n.db.users[u].email {
          SameUser(n, k, name, u);
        }
      }
    }
  }

  lemma AccessAt(n: Node, k: Socket)
    requires Access(n) && k in n.sessions
    ensures !Blocked(n, n.sessions[k], n.sessions[k].room)
  {}

  lemma SameUser(n: Node, k: Socket, name: string, u: string)
    requires Core(n) && k in n.sessions && n.sessions[k].auth && name in n.known && u in n.db.users
    requires n.sessions[k].room.id == n.known[name].id && n.sessions[k].user.email == n.db.users[u].email
    ensures k in InRoomAs(n, u, name)
  {
    CoreSession(n, k);
    IdsDiffer(n, n.sessions[k].room.name, name);
  }

  lemma KickAccess(n: Node, k: Socket, room: string, target: string, found: Socket)
    requires Core(n) && Access(n) && k in n.sessions
    requires LoggedInAs(n, target) == {} || found in LoggedInAs(n, target)
    ensures Access(PacketKick(n, k, room, target, found))
  {
    hide Core, Access, PacketKick, Joined, RemoveAllow;
    PacketKickIs(n, k, room, target, found);
    var r, name := PacketKick(n, k, room, target, found), NameOr(room, n.sessions[k].room.name);
    CoreIndex(n);
    if r != n { KickedAccess(n, target, name, r); }
  }

  lemma KickedAccess(n: Node, u: string, name: string, r: Node)
    requires Core(n) && Access(n) && name in n.known && LOBBY.name in n.known
    requires || (r == RemoveAllow(n, name, u) && InRoomAs(n, u, name) == {})
             || exists k ::
                  k in InRoomAs(n, u, name) && k in n.sessions && r == Joined(RemoveAllow(n, name, u), k, LOBBY.name)
    ensures Access(r)
  {
    hide Core, Access, Joined, RemoveAllow;
    var cut := CutCore(n, name, u);
    CoreIndex(n);
    if InRoomAs(n, u, name) != {} {
      var k :| k in InRoomAs(n, u, name) && k in n.sessions && r == Joined(cut, k, LOBBY.name);
      AtMostOne(n, u);
      JoinedFrame(cut, k, LOBBY.name);
    }
    CutAccess(n, name, u, r);
  }

  // ---------------------------------------------------------------- events

  lemma PeerAccess(n: Node, e: Event, guest: User)
    requires Core(n) && Access(n)
    ensures Access(ApplyEvent(n, e, guest))
  {
    hide *;
    ApplyEventIs(n, e, guest);
    match e
    case LoginEvent(u, node) => PresenceAccess(n, u, node);
    case ReconnectEvent(u, node) => PeerReconnectAccess(n, u, node, guest);
    case LogoutEvent(u) => PresenceAccess(n, u, "");
    case UserCreatedEvent(u) => UserAccess(n, u);
    case RoomCreatedEvent(u, room, private) => PeerCreatedAccess(n, u, room, private);
    case AclAddEvent(u, room, creator) => AclAccess(n, u, room, creator);
    case RoomDeletedEvent(room) => PeerDeletedAccess(n, room);
    case KickEvent(u, room) => PeerKickAccess(n, u, room);
    case RoomJoinEvent(u, node, prev, room) => JoinEventAccess(n, u, node, prev, room);
    case RoomLeaveEvent(u, room) => LeaveEventAccess(n, u, room);
    case MessageEvent(id, u, room) => MessageAccess(n, id, u, room);
  }

  lemma SameAccess(n: Node, r: Node)
    requires Access(n) && r.sessions == n.sessions && r.db.allow == n.db.allow
    ensures Access(r)
  {
    SettledAccess(n, r);
  }

  lemma PresenceAccess(n: Node, u: string, node: string)
    requires Access(n)
    ensures Access(ApplyLogin(n, u, node)) && Access(ApplyLogout(n, u))
  {
    hide Access, ClearRows;
    SameAccess(n, ApplyLogin(n, u, node));
    SameAccess(n, ApplyLogout(n, u));
  }

  lemma UserAccess(n: Node, u: User)
    requires Access(n)
    ensures Access(ApplyUserCreated(n, u))
  {
    hide Access, CanCreateUser;
    SameAccess(n, ApplyUserCreated(n, u));
  }

  lemma JoinEventAccess(n: Node, u: string, node: string, prev: string, room: string)
    requires Access(n)
    ensures Access(ApplyRoomJoin(n, u, node, prev, room))
  {
    hide Access;
    SameAccess(n, ApplyRoomJoin(n, u, node, prev, room));
  }

  lemma LeaveEventAccess(n: Node, u: string, room: string)
    requires Access(n)
    ensures Access(ApplyRoomLeave(n, u, room))
  {
    hide Access;
    SameAccess(n, ApplyRoomLeave(n, u, room));
  }

  lemma PeerReconnectAccess(n: Node, u: string, node: string, guest: User)
    requires Access(n)
    ensures Access(ApplyReconnect(n, u, node, guest))
  {
    hide Access, MoveRows, InLobby, LoggedInAs;
    SettledAccess(n, ApplyReconnect(n, u, node, guest));
  }

  lemma PeerCreatedAccess(n: Node, u: string, room: string, private: bool)
    requires Access(n)
    ensures Access(ApplyRoomCreated(n, u, room, private))
  {
    hide Access, CreateRoom;
    var email := if u in n.db.users then n.db.users[u].email else "";
    CreatedAccess(n, room, private, email);
    if room in n.known { GrowAccess(n, AddAllow(n, n.known[room].id, email, true)); }
  }

  lemma AclAccess(n: Node, u: string, room: string, creator: bool)
    requires Access(n)
    ensures Access(ApplyAclAdd(n, u, room, creator))
  {
    hide Access;
    GrowAccess(n, ApplyAclAdd(n, u, room, creator));
  }

  lemma PeerDeletedAccess(n: Node, room: string)
    requires Core(n) && Access(n)
    ensures Access(ApplyRoomDeleted(n, room))
  {
    hide Core, Access, DeleteRoom;
    if Deletable(n, room) { DeleteAccess(n, room); } else { NotDeleted(n, room); }
  }

  lemma PeerKickAccess(n: Node, u: string, name: string)
    requires Core(n) && Access(n)
    ensures Access(ApplyKick(n, u, name))
  {
    hide Core, Access, ApplyKick, Joined, RemoveAllow;
    if u != "" && name != "" && name in n.known {
      KickEventIs(n, u, name);
      if InRoomAs(n, u, name) != {} { var k :| k in InRoomAs(n, u, name); }
      KickedAccess(n, u, name, ApplyKick(n, u, name));
    } else {
      KickNothing(n, u, name);
    }
  }

  lemma PacketDeleteAccess(n: Node, k: Socket, room: string)
    requires Core(n) && Access(n) && k in n.sessions
    ensures Access(PacketDelete(n, k, room))
  {
    hide Core, Access, PacketDelete, DeleteRoom;
    PacketDeleteIs(n, k, room);
    var name := NameOr(room, n.sessions[k].room.name);
    if Deletable(n, name) { DeleteAccess(n, name); }
  }

  // ---------------------------------------------------------------- runs

  lemma StepAccess(n: Node, a: Action)
    requires Core(n) && Access(n)
    ensures Access(Step(n, a))
  {
    hide Core, Access, Open, Remove, Login, Register, Reconnect, Logout, PacketJoin, PacketLeave, PacketCreate,
      PacketInvite, PacketDelete, PacketKick, ApplyEvent, ApplyMessage;
    if Possible(n, a) {
      match a
      case DoConnect(k, guest) => ConnectAccess(n, k, guest);
      case DoDisconnect(k) => DisconnectAccess(n, k);
      case DoLogin(k, name, ok) => LoginAccess(n, k, name, ok);
      case DoRegister(k, name, password, email) => RegisterAccess(n, k, name, password, email);
      case DoReconnect(k, name, room, live, guest) => ReconnectAccess(n, k, name, room, live, guest);
      case DoLogout(k, guest) => LogoutAccess(n, k, guest);
      case DoMessage(k, id, text) => MessageAccess(n, id, n.sessions[k].user.name, n.sessions[k].room.name);
      case DoRoomJoin(k, room) => JoinAccess(n, k, room);
      case DoRoomLeave(k) => JoinAccess(n, k, "");
      case DoRoomCreate(k, room, private) => CreateAccess(n, k, room, private);
      case DoInvite(k, room, name) => InviteAccess(n, k, room, name);
      case DoRoomDelete(k, room) => PacketDeleteAccess(n, k, room);
      case DoKick(k, room, name, found) => KickAccess(n, k, room, name, found);
      case DoPeer(e, guest) => PeerAccess(n, e, guest);
    }
  }

  lemma {:induction false} RunAccess(n: Node, actions: seq<Action>)
    requires Core(n) && Access(n)
    ensures Access(Run(n, actions))
    decreases |actions|
  {
    hide Core, Access, Step;
    if actions != [] {
      StepCore(n, actions[0]);
      StepAccess(n, actions[0]);
      RunAccess(Step(n, actions[0]), actions[1..]);
    }
  }

  /** From boot, in every run of packets, disconnects and peer events: a session in a private room belongs to an
      admin, or to a logged-in user on the room's allow-list. */
  lemma BootAccess(n: Node, actions: seq<Action>, k: Socket)
    requires Boot(n) && k in Run(n, actions).sessions
    ensures var r := Run(n, actions);
            var s := r.sessions[k];
            s.room.private ==> s.auth && (s.user.kind == ADMIN || (s.room.id, s.user.email) in r.db.allow)
  {
    BootCore(n);
    assert Access(n);
    hide Boot, Step;
    RunAccess(n, actions);
    hide Run;
    AccessAt(Run(n, actions), k);
  }
}
