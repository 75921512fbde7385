/** Every packet, disconnect and peer event as one step of a node, and what all runs keep. */
module NodeRuns {
  import opened ChatNode
  import opened RoomIndex
  import opened NodeShapes
  import opened NodePackets

  datatype Action =
    | DoConnect(k: Socket, guest: User)
    | DoDisconnect(k: Socket)
    | DoLogin(k: Socket, name: string, passwordOk: bool)
    | DoRegister(k: Socket, name: string, password: string, email: string)
    | DoReconnect(k: Socket, name: string, room: string, live: set<string>, guest: User)
    | DoLogout(k: Socket, guest: User)
    | DoMessage(k: Socket, id: string, text: string)
    | DoRoomJoin(k: Socket, room: string)
    | DoRoomLeave(k: Socket)
    | DoRoomCreate(k: Socket, room: string, private: bool)
    | DoInvite(k: Socket, room: string, name: string)
    | DoRoomDelete(k: Socket, room: string)
    | DoKick(k: Socket, room: string, name: string, found: Socket)
    | DoPeer(event: Event, guest: User)

  /** A connecting socket is not in use; every packet comes from an open session; a search by user name
      finds a session when there is one. */
  predicate Possible(n: Node, a: Action)
  {
    match a
    case DoConnect(k, _) => k !in n.sessions
    case DoDisconnect(_) => true
    case DoPeer(_, _) => true
    case DoKick(k, _, name, found) => k in n.sessions && (LoggedInAs(n, name) == {} || found in LoggedInAs(n, name))
    case _ => a.k in n.sessions
  }

  function Step(n: Node, a: Action): (r: Node)
  {
    if !Possible(n, a) then n else
    match a
    case DoConnect(k, guest) => Open(n, k, guest)
    case DoDisconnect(k) => Remove(n, k)
    case DoLogin(k, name, ok) => Login(n, k, name, ok)
    case DoRegister(k, name, password, email) => Register(n, k, name, password, email)
    case DoReconnect(k, name, room, live, guest) => Reconnect(n, k, name, room, live, guest)
    case DoLogout(k, guest) => Logout(n, k, guest)
    case DoMessage(k, id, text) => SendMessage(n, k, id, text)
    case DoRoomJoin(k, room) => PacketJoin(n, k, room)
    case DoRoomLeave(k) => PacketLeave(n, k)
    case DoRoomCreate(k, room, private) => PacketCreate(n, k, room, private)
    case DoInvite(k, room, name) => PacketInvite(n, k, room, name)
    case DoRoomDelete(k, room) => PacketDelete(n, k, room)
    case DoKick(k, room, name, found) => PacketKick(n, k, room, name, found)
    case DoPeer(e, guest) => ApplyEvent(n, e, guest)
  }

  function Run(n: Node, actions: seq<Action>): (r: Node)
    decreases |actions|
  {
    if actions == [] then n else Run(Step(n, actions[0]), actions[1..])
  }

  lemma StepIs(n: Node, a: Action)
    requires Possible(n, a)
    ensures match a
            case DoConnect(k, guest) => Step(n, a) == Open(n, k, guest)
            case DoDisconnect(k) => Step(n, a) == Remove(n, k)
            case DoLogin(k, name, ok) => Step(n, a) == Login(n, k, name, ok)
            case DoRegister(k, name, password, email) => Step(n, a) == Register(n, k, name, password, email)
            case DoReconnect(k, name, room, live, guest) => Step(n, a) == Reconnect(n, k, name, room, live, guest)
            case DoLogout(k, guest) => Step(n, a) == Logout(n, k, guest)
            case DoMessage(k, id, text) => Step(n, a) == SendMessage(n, k, id, text)
            case DoRoomJoin(k, room) => Step(n, a) == PacketJoin(n, k, room)
            case DoRoomLeave(k) => Step(n, a) == PacketLeave(n, k)
            case DoRoomCreate(k, room, private) => Step(n, a) == PacketCreate(n, k, room, private)
            case DoInvite(k, room, name) => Step(n, a) == PacketInvite(n, k, room, name)
            case DoRoomDelete(k, room) => Step(n, a) == PacketDelete(n, k, room)
            case DoKick(k, room, name, found) => Step(n, a) == PacketKick(n, k, room, name, found)
            case DoPeer(e, guest) => Step(n, a) == ApplyEvent(n, e, guest)
  {
    hide Open, Remove, Login, Register, Reconnect, Logout, SendMessage, PacketJoin, PacketLeave, PacketCreate,
      PacketInvite, PacketDelete, PacketKick, ApplyEvent;
  }

  /** A node as it boots: seed rooms, some registered users, nobody connected or online, no rows. */
  ghost predicate Boot(n: Node)
  {
    && n.self != "" && n.sessions == map[] && n.members == map[] && n.pushed == n.dropped == multiset{}
    && n.known == map[LOBBY.name := LOBBY, GENERAL.name := GENERAL]
    && n.db.rooms == map[LOBBY.id := LOBBY.name, GENERAL.id := GENERAL.name] && n.db.nextRoom == 3
    && UsersOk(n.db.users)
    && n.db.online == map[] && n.db.membership == map[] && n.db.messages == map[]
    && (forall x :: x in n.db.allow ==> x.0 in n.db.rooms && exists u :: u in n.db.users && n.db.users[u].email == x.1)
  }

  lemma BootCore(n: Node)
    requires Boot(n)
    ensures Core(n)
  {}

  // ---------------------------------------------------------------- effects

  /** What a step that logs nobody in or out does to rooms and rows: nothing, or one session moves. */
  ghost predicate Relocates(n: Node, r: Node)
  {
    || (r.sessions == n.sessions && r.db.membership == n.db.membership)
    || exists k, name :: k in n.sessions && name in n.known
         && r.sessions == n.sessions[k := n.sessions[k].(room := n.known[name])]
         && r.db.membership == if n.sessions[k].auth
                               then Rejoin(n.db.membership, n.sessions[k].user.name, n.sessions[k].room.id,
                                           n.known[name].id, n.self)
                               else n.db.membership
  }

  /** The steps that neither log anyone in or out, nor delete a room, nor replay a peer's membership. */
  predicate Quiet(a: Action)
  {
    match a
    case DoMessage(_, _, _) => true
    case DoRoomJoin(_, _) => true
    case DoRoomLeave(_) => true
    case DoRoomCreate(_, _, _) => true
    case DoInvite(_, _, _) => true
    case DoKick(_, _, _, _) => true
    case DoPeer(e, _) => e.RoomCreatedEvent? || e.AclAddEvent? || e.KickEvent? || e.MessageEvent?
    case _ => false
  }

  ghost predicate QuietEffect(n: Node, r: Node)
  {
    r.self == n.self && r.db.users == n.db.users && r.db.online == n.db.online && Relocates(n, r) && Core(r)
  }

  lemma JoinedEffect(n: Node, k: Socket, name: string, r: Node)
    requires Core(n) && k in n.sessions && name in n.known
    requires var j := Joined(n, k, name); r == j.(db := j.db.(allow := r.db.allow))
    ensures QuietEffect(n, r)
  {
    hide Core, Joined, Rejoin;
    JoinedCore(n, k, name);
    JoinedFrame(n, k, name);
    TablesCore(Joined(n, k, name), r);
  }

  lemma SameEffect(n: Node, r: Node)
    requires Core(n) && r.self == n.self && r.sessions == n.sessions && r.known == n.known && r.members == n.members
    requires r.db.users == n.db.users && r.db.rooms == n.db.rooms && r.db.nextRoom == n.db.nextRoom
    requires r.db.online == n.db.online && r.db.membership == n.db.membership
    ensures QuietEffect(n, r)
  {
    hide Core;
    TablesCore(n, r);
  }

  lemma KickEffect(n: Node, u: string, name: string, r: Node)
    requires Core(n) && name in n.known && LOBBY.name in n.known
    requires || r == n || r == RemoveAllow(n, name, u)
             || exists k :: k in n.sessions && r == Joined(RemoveAllow(n, name, u), k, LOBBY.name)
    ensures QuietEffect(n, r)
  {
    hide Core, Joined;
    var cut := RemoveAllow(n, name, u);
    if r == n || r == cut {
      SameEffect(n, r);
    } else {
      var k :| k in n.sessions && r == Joined(cut, k, LOBBY.name);
      TablesCore(n, cut);
      JoinedCore(cut, k, LOBBY.name);
      JoinedFrame(cut, k, LOBBY.name);
      hide Rejoin;
    }
  }

  lemma QuietSteps(n: Node, a: Action)
    requires Core(n) && Possible(n, a) && Quiet(a)
    ensures QuietEffect(n, Step(n, a))
  {
    hide Core, QuietEffect, SendMessage, PacketJoin, PacketLeave, PacketCreate, PacketInvite, PacketKick, ApplyEvent;
    match a
    case DoMessage(k, id, text) => QuietSend(n, k, id, text);
    case DoRoomJoin(k, room) => QuietJoin(n, k, room);
    case DoRoomLeave(k) => PacketLeaveIs(n, k); JoinedEffect(n, k, LOBBY.name, PacketLeave(n, k));
    case DoRoomCreate(k, room, private) => QuietCreate(n, k, room, private);
    case DoInvite(k, room, name) => QuietInvite(n, k, room, name);
    case DoKick(k, room, name, found) => QuietKick(n, k, room, name, found);
    case DoPeer(e, guest) => QuietEvent(n, e, guest);
  }

  lemma QuietSend(n: Node, k: Socket, id: string, text: string)
    requires Core(n) && k in n.sessions
    ensures QuietEffect(n, SendMessage(n, k, id, text))
  {
    hide Core, QuietEffect;
    SameEffect(n, SendMessage(n, k, id, text));
  }

  lemma QuietInvite(n: Node, k: Socket, room: string, name: string)
    requires Core(n) && k in n.sessions
    ensures QuietEffect(n, PacketInvite(n, k, room, name))
  {
    hide Core, QuietEffect, MayManage;
    SameEffect(n, PacketInvite(n, k, room, name));
  }

  lemma QuietJoin(n: Node, k: Socket, room: string)
    requires Core(n) && k in n.sessions
    ensures QuietEffect(n, PacketJoin(n, k, room))
  {
    hide Core, QuietEffect, Joined, Blocked, PacketJoin;
    PacketJoinIs(n, k, room);
    var name, r := NameOr(room, LOBBY.name), PacketJoin(n, k, room);
    if r == n { SameEffect(n, r); } else { JoinedEffect(n, k, name, r); }
  }

  lemma QuietCreate(n: Node, k: Socket, name: string, private: bool)
    requires Core(n) && k in n.sessions
    ensures QuietEffect(n, PacketCreate(n, k, name, private))
  {
    hide Core, PacketCreate, CreateRoom;
    PacketCreateIs(n, k, name, private);
    CreateFrame(n, name, private, n.sessions[k].user.email);
  }

  lemma QuietKick(n: Node, k: Socket, room: string, name: string, found: Socket)
    requires Core(n) && k in n.sessions && (LoggedInAs(n, name) == {} || found in LoggedInAs(n, name))
    ensures QuietEffect(n, PacketKick(n, k, room, name, found))
  {
    hide Core, QuietEffect, PacketKick, RemoveAllow, Joined;
    PacketKickIs(n, k, room, name, found);
    var r, from := PacketKick(n, k, room, name, found), NameOr(room, n.sessions[k].room.name);
    if r == n { SameEffect(n, r); } else { CoreKnown(n); KickEffect(n, name, from, r); }
  }

  lemma QuietEvent(n: Node, e: Event, guest: User)
    requires Core(n) && (e.RoomCreatedEvent? || e.AclAddEvent? || e.KickEvent? || e.MessageEvent?)
    ensures QuietEffect(n, ApplyEvent(n, e, guest))
  {
    hide *;
    ApplyEventIs(n, e, guest);
    match e
    case RoomCreatedEvent(u, name, private) => QuietCreated(n, u, name, private);
    case AclAddEvent(u, name, creator) => QuietAcl(n, u, name, creator);
    case MessageEvent(id, u, room) => QuietMessage(n, id, u, room);
    case KickEvent(u, name) => QuietKicked(n, u, name);
  }

  lemma QuietCreated(n: Node, u: string, name: string, private: bool)
    requires Core(n)
    ensures QuietEffect(n, ApplyRoomCreated(n, u, name, private))
  {
    hide Core, QuietEffect, CreateRoom;
    var r := ApplyRoomCreated(n, u, name, private);
    if name != "" && name !in n.known {
      var email := if u in n.db.users then n.db.users[u].email else "";
      CreateCore(n, name, private, email);
      CreateFrame(n, name, private, email);
      CreatedEffect(n, r);
    } else {
      SameEffect(n, r);
    }
  }

  lemma QuietAcl(n: Node, u: string, name: string, creator: bool)
    requires Core(n)
    ensures QuietEffect(n, ApplyAclAdd(n, u, name, creator))
  {
    hide Core, QuietEffect;
    SameEffect(n, ApplyAclAdd(n, u, name, creator));
  }

  lemma QuietMessage(n: Node, id: string, u: string, room: string)
    requires Core(n)
    ensures QuietEffect(n, ApplyMessage(n, id, u, room))
  {
    hide Core, QuietEffect;
    SameEffect(n, ApplyMessage(n, id, u, room));
  }

  lemma QuietKicked(n: Node, u: string, name: string)
    requires Core(n)
    ensures QuietEffect(n, ApplyKick(n, u, name))
  {
    hide Core, QuietEffect, ApplyKick, RemoveAllow, Joined;
    if u != "" && name != "" && name in n.known {
      KickEventIs(n, u, name);
      if InRoomAs(n, u, name) != {} { var k :| k in InRoomAs(n, u, name); }
      KickEffect(n, u, name, ApplyKick(n, u, name));
    } else {
      KickNothing(n, u, name);
      SameEffect(n, n);
    }
  }

  lemma KickNothing(n: Node, u: string, name: string)
    requires u == "" || name == "" || name !in n.known
    ensures ApplyKick(n, u, name) == n
  {}

  lemma CreatedEffect(n: Node, r: Node)
    requires Core(r) && r.self == n.self && r.sessions == n.sessions && r.db.users == n.db.users
    requires r.db.online == n.db.online && r.db.membership == n.db.membership
    ensures QuietEffect(n, r)
  {
    hide Core;
  }

  // ---------------------------------------------------------------- the core holds in every run

  lemma EventCore(n: Node, e: Event, guest: User)
    requires Core(n)
    ensures Core(ApplyEvent(n, e, guest))
  {
    hide *;
    ApplyEventIs(n, e, guest);
    match e
    case LoginEvent(u, node) => PeerLoginCore(n, u, node);
    case ReconnectEvent(u, node) => PeerReconnectCore(n, u, node, guest);
    case LogoutEvent(u) => PeerLogoutCore(n, u);
    case UserCreatedEvent(u) => PeerUserCore(n, u);
    case RoomDeletedEvent(name) => PeerDeleteCore(n, name);
    case RoomJoinEvent(u, node, prev, room) => PeerJoinCore(n, u, node, prev, room);
    case RoomLeaveEvent(u, room) => PeerLeaveCore(n, u, room);
    case _ => QuietEvent(n, e, guest); QuietCore(n, ApplyEvent(n, e, guest));
  }

  /** The events that write presence or membership rows only. */
  lemma PeerLoginCore(n: Node, u: string, node: string)
    requires Core(n)
    ensures Core(ApplyLogin(n, u, node))
  {
    hide Core;
    TablesCore(n, ApplyLogin(n, u, node));
  }

  lemma PeerLogoutCore(n: Node, u: string)
    requires Core(n)
    ensures Core(ApplyLogout(n, u))
  {
    hide Core, ClearRows;
    TablesCore(n, ApplyLogout(n, u));
  }

  lemma PeerJoinCore(n: Node, u: string, node: string, prev: string, room: string)
    requires Core(n)
    ensures Core(ApplyRoomJoin(n, u, node, prev, room))
  {
    hide Core, ApplyRoomJoin;
    JoinEventFrame(n, u, node, prev, room);
    TablesCore(n, ApplyRoomJoin(n, u, node, prev, room));
  }

  lemma PeerLeaveCore(n: Node, u: string, room: string)
    requires Core(n)
    ensures Core(ApplyRoomLeave(n, u, room))
  {
    hide Core;
    TablesCore(n, ApplyRoomLeave(n, u, room));
  }

  lemma ApplyEventIs(n: Node, e: Event, guest: User)
    ensures match e
            case LoginEvent(u, node) => ApplyEvent(n, e, guest) == ApplyLogin(n, u, node)
            case ReconnectEvent(u, node) => ApplyEvent(n, e, guest) == ApplyReconnect(n, u, node, guest)
            case LogoutEvent(u) => ApplyEvent(n, e, guest) == ApplyLogout(n, u)
            case UserCreatedEvent(u) => ApplyEvent(n, e, guest) == ApplyUserCreated(n, u)
            case RoomCreatedEvent(u, room, private) => ApplyEvent(n, e, guest) == ApplyRoomCreated(n, u, room, private)
            case AclAddEvent(u, room, creator) => ApplyEvent(n, e, guest) == ApplyAclAdd(n, u, room, creator)
            case RoomDeletedEvent(room) => ApplyEvent(n, e, guest) == ApplyRoomDeleted(n, room)
            case KickEvent(u, room) => ApplyEvent(n, e, guest) == ApplyKick(n, u, room)
            case RoomJoinEvent(u, node, prev, room) => ApplyEvent(n, e, guest) == ApplyRoomJoin(n, u, node, prev, room)
            case RoomLeaveEvent(u, room) => ApplyEvent(n, e, guest) == ApplyRoomLeave(n, u, room)
            case MessageEvent(id, u, room) => ApplyEvent(n, e, guest) == ApplyMessage(n, id, u, room)
  {
    hide ApplyLogin, ApplyReconnect, ApplyLogout, ApplyUserCreated, ApplyRoomCreated, ApplyAclAdd, ApplyRoomDeleted,
      ApplyKick, ApplyRoomJoin, ApplyRoomLeave, ApplyMessage;
  }

  lemma PeerUserCore(n: Node, u: User)
    requires Core(n)
    ensures Core(ApplyUserCreated(n, u))
  {
    hide Core, CanCreateUser;
    if ApplyUserCreated(n, u) != n { UserAddedCore(n, u); }
  }

  lemma PeerReconnectCore(n: Node, u: string, node: string, guest: User)
    requires Core(n)
    ensures Core(ApplyReconnect(n, u, node, guest))
  {
    hide Core, MoveRows, SendToLobby;
    if u != "" && node != "" {
      if node == n.self {
        TablesCore(n, ApplyReconnect(n, u, node, guest));
      } else {
        ReconnectEventIs(n, u, node, guest);
      }
    }
  }

  lemma PeerDeleteCore(n: Node, name: string)
    requires Core(n)
    ensures Core(ApplyRoomDeleted(n, name))
  {
    hide Core, DeleteRoom;
    if Deletable(n, name) { DeleteCore(n, name); } else { NotDeleted(n, name); }
  }

  lemma QuietCore(n: Node, r: Node)
    requires QuietEffect(n, r)
    ensures Core(r)
  {}

  lemma LoginCore(n: Node, k: Socket, name: string, ok: bool)
    requires Core(n) && k in n.sessions
    ensures Core(Login(n, k, name, ok))
  {
    if name in n.db.users {
      assert n.db.users[name].name == name by { CoreIndex(n); }
      hide Core, Authenticate, HasSession;
      if !HasSession(n, n.db.users[name]) { AuthenticateIs(n, k, n.db.users[name]); }
    }
  }

  /** The node a registration authenticates on. */
  function WithUser(n: Node, u: User): (r: Node) { n.(db := n.db.(users := n.db.users[u.name := u])) }

  lemma RegisterReady(n: Node, u: User)
    requires Core(n) && CanCreateUser(n.db, u) && u.name != ""
    ensures Core(WithUser(n, u)) && !HasSession(WithUser(n, u), u)
  {
    hide Core, CanCreateUser;
    UserAddedCore(n, u);
  }

  lemma RegisterCore(n: Node, k: Socket, name: string, password: string, email: string)
    requires Core(n) && k in n.sessions
    ensures Core(Register(n, k, name, password, email))
  {
    hide Core, Authenticate, CanCreateUser, HasSession;
    var u := User(name, email, USER);
    if Register(n, k, name, password, email) != n {
      RegisterReady(n, u);
      AuthenticateIs(WithUser(n, u), k, u);
    }
  }

  /** Whatever the packets, disconnects and peer events: the room index stays sound, every session sits in its
      room, and no two logged-in sessions belong to one user. */
  lemma StepCore(n: Node, a: Action)
    requires Core(n)
    ensures Core(Step(n, a))
  {
    hide Core;
    if Possible(n, a) {
      if Quiet(a) {
        hide Step, QuietEffect;
        QuietSteps(n, a);
        QuietCore(n, Step(n, a));
      } else {
        hide Register, Login, Reconnect, Logout, Remove, Open, PacketDelete, ApplyEvent;
        match a
        case DoConnect(k, guest) => OpenCore(n, k, guest);
        case DoDisconnect(k) => RemoveCore(n, k);
        case DoLogin(k, name, ok) => LoginCore(n, k, name, ok);
        case DoRegister(k, name, password, email) => RegisterCore(n, k, name, password, email);
        case DoReconnect(k, name, room, live, guest) => ReconnectCore(n, k, name, room, live, guest);
        case DoLogout(k, guest) => LogoutIs(n, k, guest);
        case DoRoomDelete(k, room) => PacketDeleteIs(n, k, room);
        case DoPeer(e, guest) => EventCore(n, e, guest);
        case _ =>
      }
    }
  }

  lemma ReconnectCore(n: Node, k: Socket, name: string, room: string, live: set<string>, guest: User)
    requires Core(n) && k in n.sessions
    ensures Core(Reconnect(n, k, name, room, live, guest))
  {
    hide Core, CanReconnect;
    if CanReconnect(n, name, live) { ReconnectIs(n, k, name, room, live, guest); }
  }

  lemma {:induction false} RunCore(n: Node, actions: seq<Action>)
    requires Core(n)
    ensures Core(Run(n, actions))
    decreases |actions|
  {
    hide Core, Step;
    if actions != [] {
      StepCore(n, actions[0]);
      RunCore(Step(n, actions[0]), actions[1..]);
    }
  }

  /** The state after i steps, seen from the state after the first. */
  lemma RunPrefix(n: Node, actions: seq<Action>, i: nat)
    requires i <= |actions|
    ensures Run(n, actions[..i]) == if i == 0 then n else Run(Step(n, actions[0]), actions[1..][..i - 1])
  {
    hide Step;
    if i > 0 { assert actions[..i][1..] == actions[1..][..i - 1]; }
  }

  lemma {:induction false} RunAppend(n: Node, a: seq<Action>, b: seq<Action>)
    ensures Run(n, a + b) == Run(Run(n, a), b)
    decreases |a|
  {
    hide Step;
    if a == [] {
      assert a + b == b;
    } else {
      assert (a + b)[1..] == a[1..] + b;
      RunAppend(Step(n, a[0]), a[1..], b);
    }
  }

  lemma RunOne(n: Node, a: Action)
    ensures Run(n, [a]) == Step(n, a) && Run(n, []) == n
  {
    hide Step;
    assert [a][1..] == [];
    assert Run(Step(n, a), []) == Step(n, a);
  }

  lemma NotPossible(n: Node, a: Action)
    requires !Possible(n, a)
    ensures Step(n, a) == n
  {
    hide Possible;
  }
}
