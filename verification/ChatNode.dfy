/** One chat node as a value: client sessions, the room index and the database tables, with the room
    operations, the gossip events it applies and the client packets it processes. */
module ChatNode {

  type Socket = nat

  datatype Kind = ADMIN | USER | GUEST
  datatype User = User(name: string, email: string, kind: Kind)
  datatype Room = Room(id: int, name: string, private: bool)
  datatype Session = Session(user: User, room: Room, auth: bool)

  type Rows = map<(string, int), string>  // (username, room id) -> node id

  datatype Tables = Tables(
    users: map<string, User>,
    rooms: map<int, string>, nextRoom: int,
    online: map<string, string>,
    membership: Rows,
    messages: map<string, int>,
    allow: map<(int, string), bool>)

  /** pushed counts the MESSAGE pushes to local rooms per event id; dropped counts the message rows that
      went away with their room. */
  datatype Node = Node(
    self: string,
    sessions: map<Socket, Session>,
    known: map<string, Room>,
    members: map<string, set<Socket>>,
    db: Tables,
    pushed: multiset<string>, dropped: multiset<string>)

  const LOBBY: Room := Room(1, "Lobby", false)
  const GENERAL: Room := Room(2, "General", false)

  // ---------------------------------------------------------------- tables

  function SetRow(m: Rows, u: string, r: int, node: string): (x: Rows) { m[(u, r) := node] }
  function ClearRow(m: Rows, u: string, r: int): (x: Rows) { m - {(u, r)} }
  function ClearRows(m: Rows, u: string): (x: Rows) { map k | k in m && k.0 != u :: m[k] }
  function MoveRows(m: Rows, u: string, node: string): (x: Rows) { map k | k in m :: if k.0 == u then node else m[k] }

  function WithRows(n: Node, m: Rows): (r: Node) { n.(db := n.db.(membership := m)) }
  function WithOnline(n: Node, o: map<string, string>): (r: Node) { n.(db := n.db.(online := o)) }

  /** Foreign keys of the membership table. */
  predicate CanSetRow(db: Tables, u: string, r: int) { u in db.users && r in db.rooms }

  /** Inserting a user fails when the name or the email is taken. */
  predicate CanCreateUser(db: Tables, u: User)
  {
    u.name !in db.users && forall x :: x in db.users ==> db.users[x].email != u.email
  }

  function AddAllow(n: Node, room: int, email: string, creator: bool): (r: Node)
  {
    if (room, email) in n.db.allow then n else n.(db := n.db.(allow := n.db.allow[(room, email) := creator]))
  }

  /** Deleting a room row deletes everything that refers to it. */
  function DropRoom(n: Node, id: int): (r: Node)
  {
    n.(db := n.db.(rooms := n.db.rooms - {id},
                   allow := map k | k in n.db.allow && k.0 != id :: n.db.allow[k],
                   membership := map k | k in n.db.membership && k.1 != id :: n.db.membership[k],
                   messages := map m | m in n.db.messages && n.db.messages[m] != id :: n.db.messages[m]),
       dropped := n.dropped + multiset(set m | m in n.db.messages && n.db.messages[m] == id))
  }

  // ---------------------------------------------------------------- the room index

  function Unseat(members: map<string, set<Socket>>, k: Socket, name: string): (r: map<string, set<Socket>>)
  {
    if name !in members then members
    else if members[name] - {k} == {} then members - {name}
    else members[name := members[name] - {k}]
  }

  function Seat(members: map<string, set<Socket>>, k: Socket, name: string): (r: map<string, set<Socket>>)
  {
    members[name := (if name in members then members[name] else {}) + {k}]
  }

  function NameOr(name: string, default: string): (r: string) { if name == "" then default else name }

  function SetRoom(n: Node, k: Socket, room: Room): (r: Node)
    requires k in n.sessions
  {
    n.(sessions := n.sessions[k := n.sessions[k].(room := room)])
  }

  /** Moving a socket from its session's room to another room, in memory. */
  function Move(n: Node, k: Socket, name: string, room: Room): (r: Node)
    requires k in n.sessions
  {
    SetRoom(n, k, room).(members := Seat(Unseat(n.members, k, n.sessions[k].room.name), k, name))
  }

  datatype Fault = NoFault | ClearFails | SetFails

  /** joinRoom: in memory first, then the membership rows of an authenticated user; when a write fails the
      in-memory move is taken back. */
  function JoinRoom(n: Node, k: Socket, roomName: string, fault: Fault): (r: (Node, bool))
    requires k in n.sessions
  {
    var name := NameOr(roomName, LOBBY.name);
    if name !in n.known then (n, false) else
    var s, room := n.sessions[k], n.known[name];
    var moved := Move(n, k, name, room);
    if !s.auth then (moved, true) else
    var back := if s.room.name in n.known then s.room.name else LOBBY.name;
    var undone := SetRoom(moved, k, if s.room.name in n.known then n.known[back] else LOBBY)
                  .(members := Seat(Unseat(moved.members, k, name), k, back));
    if fault == ClearFails && s.room.id != room.id then (undone, false) else
    var cleared := if s.room.id != room.id then ClearRow(n.db.membership, s.user.name, s.room.id)
                   else n.db.membership;
    if fault == SetFails || !CanSetRow(n.db, s.user.name, room.id) then (WithRows(undone, cleared), false)
    else (WithRows(moved, SetRow(cleared, s.user.name, room.id, n.self)), true)
  }

  /** leaveAll on a session that is still in the session map. */
  function LeaveAll(n: Node, k: Socket, ok: bool): (r: Node)
    requires k in n.sessions
  {
    var s := n.sessions[k];
    var out := SetRoom(n, k, LOBBY).(members := Unseat(n.members, k, s.room.name));
    if s.auth && s.user.name != "" && ok then WithRows(out, ClearRows(n.db.membership, s.user.name)) else out
  }

  function CreateRoom(n: Node, name: string, private: bool, creatorEmail: string, ok: bool): (r: (Node, bool))
  {
    if name in n.known || !ok || name in n.db.rooms.Values then (n, false)
    else
      var id := n.db.nextRoom;
      var made := n.(known := n.known[name := Room(id, name, private)],
                     db := n.db.(rooms := n.db.rooms[id := name], nextRoom := id + 1));
      (if creatorEmail == "" then made else AddAllow(made, id, creatorEmail, true), true)
  }

  predicate Deletable(n: Node, name: string)
  {
    name != LOBBY.name && name != GENERAL.name && name in n.known
  }

  function Sitting(n: Node, name: string): (r: set<Socket>) { if name in n.members then n.members[name] else {} }

  /** The users of these sockets that are logged in. */
  function UsersOf(n: Node, ks: set<Socket>): (r: set<string>)
  {
    set k | k in ks && k in n.sessions && n.sessions[k].auth && n.sessions[k].user.name != "" :: n.sessions[k].user.name
  }

  function LobbyRows(db: Tables, users: set<string>, node: string): (r: Rows)
  {
    map u | u in users && CanSetRow(db, u, LOBBY.id) :: (u, LOBBY.id) := node
  }

  /** The room is gone from memory and its sockets sit in the Lobby; sessions and rows are untouched. */
  function ForgetRoom(n: Node, name: string): (r: Node)
    requires name in n.known
  {
    var moved := Sitting(n, name);
    var rest := n.members - {name};
    n.(known := n.known - {name},
       members := if moved == {} then rest else rest[LOBBY.name := Sitting(n, LOBBY.name) + moved])
  }

  /** deleteRoom: forget the room, delete its rows, then move its sessions to the Lobby. A failing database
      delete leaves the sessions where they were. */
  function DeleteRoom(n: Node, name: string, ok: bool): (r: (Node, bool))
  {
    if !Deletable(n, name) then (n, false) else
    var id := n.known[name].id;
    var gone := ForgetRoom(n, name);
    if !ok || id < 3 || id !in n.db.rooms then (gone, false) else
    var moved := Sitting(n, name);
    var users := UsersOf(n, moved);
    var dropped := DropRoom(gone, id);
    (WithRows(dropped.(sessions := map k | k in n.sessions ::
                                   if k in moved then n.sessions[k].(room := LOBBY) else n.sessions[k]),
              dropped.db.membership + LobbyRows(dropped.db, users, n.self)),
     true)
  }

  // ---------------------------------------------------------------- sessions

  function Opened(n: Node, k: Socket, guest: User): (r: Node)
  {
    n.(sessions := n.sessions[k := Session(guest, LOBBY, false)])
  }

  /** openSession up to the welcome. */
  function Open(n: Node, k: Socket, guest: User): (r: Node)
  {
    JoinRoom(Opened(n, k, guest), k, LOBBY.name, NoFault).0
  }

  /** removeSession: the session leaves the map before it leaves its room, then a LOGOUT event is rumored
      for a logged-in user. */
  function Remove(n: Node, k: Socket): (r: Node)
  {
    if k !in n.sessions then n else
    var s := n.sessions[k];
    var out := n.(sessions := n.sessions - {k}, members := Unseat(n.members, k, s.room.name));
    if s.auth && s.user.name != ""
    then ApplyLogout(WithRows(out, ClearRows(n.db.membership, s.user.name)), s.user.name)
    else out
  }

  predicate HasSession(n: Node, u: User)
  {
    exists k :: k in n.sessions && n.sessions[k].auth && n.sessions[k].user.email == u.email
  }

  function LoggedInAs(n: Node, name: string): (r: set<Socket>)
  {
    set k | k in n.sessions && n.sessions[k].auth && n.sessions[k].user.name == name
  }

  function SetUser(n: Node, k: Socket, u: User, auth: bool): (r: Node)
    requires k in n.sessions
  {
    n.(sessions := n.sessions[k := n.sessions[k].(user := u, auth := auth)])
  }

  // ---------------------------------------------------------------- gossip events

  function ApplyLogin(n: Node, u: string, node: string): (r: Node)
  {
    if u == "" || node == "" then n
    else if u in n.db.online && n.db.online[u] != node then n
    else WithOnline(n, n.db.online[u := node])
  }

  /** These sockets become anonymous guests in the Lobby. */
  function SendToLobby(n: Node, ks: set<Socket>, guest: User): (r: Node)
  {
    n.(sessions := map k | k in n.sessions :: if k in ks then Session(guest, LOBBY, false) else n.sessions[k],
       members := InLobby(n.members, ks))
  }

  function InLobby(members: map<string, set<Socket>>, ks: set<Socket>): (r: map<string, set<Socket>>)
  {
    map name | name in members.Keys + {LOBBY.name} && AfterMove(members, ks, name) != {} :: AfterMove(members, ks, name)
  }

  function AfterMove(members: map<string, set<Socket>>, ks: set<Socket>, name: string): (r: set<Socket>)
  {
    (if name in members then members[name] - ks else {}) + (if name == LOBBY.name then ks else {})
  }

  function ApplyReconnect(n: Node, u: string, node: string, guest: User): (r: Node)
  {
    if u == "" || node == "" then n else
    var placed := WithOnline(WithRows(n, MoveRows(n.db.membership, u, node)), n.db.online[u := node]);
    if node == n.self then placed else SendToLobby(placed, LoggedInAs(n, u), guest)
  }

  function ApplyLogout(n: Node, u: string): (r: Node)
  {
    if u == "" then n
    else WithOnline(WithRows(n, ClearRows(n.db.membership, u)), n.db.online - {u})
  }

  function ApplyUserCreated(n: Node, u: User): (r: Node)
  {
    if u.name == "" || u.email == "" || !CanCreateUser(n.db, u) then n
    else n.(db := n.db.(users := n.db.users[u.name := u]))
  }

  function ApplyRoomCreated(n: Node, creator: string, name: string, private: bool): (r: Node)
  {
    if name == "" then n else
    var email := if creator in n.db.users then n.db.users[creator].email else "";
    if name !in n.known then CreateRoom(n, name, private, email, true).0
    else if email == "" then n else AddAllow(n, n.known[name].id, email, true)
  }

  function ApplyAclAdd(n: Node, u: string, name: string, creator: bool): (r: Node)
  {
    if u == "" || name == "" || name !in n.known || u !in n.db.users then n
    else AddAllow(n, n.known[name].id, n.db.users[u].email, creator)
  }

  function ApplyRoomDeleted(n: Node, name: string): (r: Node)
  {
    if name == "" then n else DeleteRoom(n, name, true).0
  }

  function RemoveAllow(n: Node, name: string, u: string): (r: Node)
  {
    if name in n.known && u in n.db.users
    then n.(db := n.db.(allow := n.db.allow - {(n.known[name].id, n.db.users[u].email)}))
    else n
  }

  /** The sockets logged in as u that sit in the named room. */
  function InRoomAs(n: Node, u: string, name: string): (r: set<Socket>)
  {
    set k | k in LoggedInAs(n, u) && n.sessions[k].room.name == name
  }

  /** Moving logged-in sockets of one user from one room to the Lobby, with the user's rows. */
  function KickToLobby(n: Node, ks: set<Socket>, u: string, from: int): (r: Node)
  {
    if ks == {} then n else
    WithRows(n.(sessions := map k | k in n.sessions :: if k in ks then n.sessions[k].(room := LOBBY) else n.sessions[k],
                members := InLobby(n.members, ks)),
             SetRow(if from == LOBBY.id then n.db.membership
                    else ClearRow(n.db.membership, u, from), u, LOBBY.id, n.self))
  }

  function ApplyKick(n: Node, u: string, name: string): (r: Node)
  {
    if u == "" || name == "" then n else
    var cut := RemoveAllow(n, name, u);
    if name !in n.known then cut else KickToLobby(cut, InRoomAs(n, u, name), u, n.known[name].id)
  }

  function ApplyRoomJoin(n: Node, u: string, node: string, prev: string, roomName: string): (r: Node)
  {
    var name := NameOr(roomName, LOBBY.name);
    if u == "" || node == "" || name !in n.known then n else
    var cleared := if prev != "" && prev != name && prev in n.known
                   then ClearRow(n.db.membership, u, n.known[prev].id) else n.db.membership;
    if u !in n.db.users then WithRows(n, cleared)
    else WithRows(n, SetRow(cleared, u, n.known[name].id, node))
  }

  function ApplyRoomLeave(n: Node, u: string, name: string): (r: Node)
  {
    if u == "" || name == "" || name !in n.known then n
    else WithRows(n, ClearRow(n.db.membership, u, n.known[name].id))
  }

  /** A MESSAGE is stored when its id has no row yet, and only then pushed to the local room. */
  function ApplyMessage(n: Node, id: string, u: string, roomName: string): (r: Node)
  {
    var name := NameOr(roomName, LOBBY.name);
    if name !in n.known || u !in n.db.users || n.known[name].id !in n.db.rooms || id in n.db.messages then n
    else n.(db := n.db.(messages := n.db.messages[id := n.known[name].id]), pushed := n.pushed + multiset{id})
  }

  datatype Event =
    | LoginEvent(user: string, node: string)
    | ReconnectEvent(user: string, node: string)
    | LogoutEvent(user: string)
    | UserCreatedEvent(created: User)
    | RoomCreatedEvent(user: string, room: string, private: bool)
    | AclAddEvent(user: string, room: string, creator: bool)
    | RoomDeletedEvent(room: string)
    | KickEvent(user: string, room: string)
    | RoomJoinEvent(user: string, node: string, prev: string, room: string)
    | RoomLeaveEvent(user: string, room: string)
    | MessageEvent(id: string, user: string, room: string)

  function ApplyEvent(n: Node, e: Event, guest: User): (r: Node)
  {
    match e
    case LoginEvent(u, node) => ApplyLogin(n, u, node)
    case ReconnectEvent(u, node) => ApplyReconnect(n, u, node, guest)
    case LogoutEvent(u) => ApplyLogout(n, u)
    case UserCreatedEvent(u) => ApplyUserCreated(n, u)
    case RoomCreatedEvent(u, room, private) => ApplyRoomCreated(n, u, room, private)
    case AclAddEvent(u, room, creator) => ApplyAclAdd(n, u, room, creator)
    case RoomDeletedEvent(room) => ApplyRoomDeleted(n, room)
    case KickEvent(u, room) => ApplyKick(n, u, room)
    case RoomJoinEvent(u, node, prev, room) => ApplyRoomJoin(n, u, node, prev, room)
    case RoomLeaveEvent(u, room) => ApplyRoomLeave(n, u, room)
    case MessageEvent(id, u, room) => ApplyMessage(n, id, u, room)
  }

  // ---------------------------------------------------------------- client packets

  predicate IsAdmin(s: Session) { s.auth && s.user.kind == ADMIN }

  /** The tail shared by LOGIN and REGISTER: authenticate, join the Lobby, rumor LOGIN and ROOM_JOIN. */
  function Authenticate(n: Node, k: Socket, u: User): (r: Node)
    requires k in n.sessions
  {
    var prev := n.sessions[k].room.name;
    var joined := JoinRoom(SetUser(n, k, u, true), k, LOBBY.name, NoFault).0;
    ApplyRoomJoin(ApplyLogin(joined, u.name, n.self), u.name, n.self, prev, LOBBY.name)
  }

  function Login(n: Node, k: Socket, name: string, passwordOk: bool): (r: Node)
    requires k in n.sessions
  {
    if name !in n.db.users || !passwordOk then n else
    var u := n.db.users[name];
    if HasSession(n, u) || name in n.db.online then n else Authenticate(n, k, u)
  }

  function Register(n: Node, k: Socket, name: string, password: string, email: string): (r: Node)
    requires k in n.sessions
  {
    var u := User(name, email, USER);
    if name == "" || password == "" || email == "" || !CanCreateUser(n.db, u) then n
    else Authenticate(n.(db := n.db.(users := n.db.users[name := u])), k, u)
  }

  /** Whether the node that owns the presence row is still live. */
  predicate OwnerLive(n: Node, name: string, u: User, live: set<string>)
    requires name in n.db.online
  {
    if n.db.online[name] == n.self then HasSession(n, u) else n.db.online[name] in live
  }

  predicate CanReconnect(n: Node, name: string, live: set<string>)
  {
    && name in n.db.users && name in n.db.online
    && !HasSession(n, n.db.users[name]) && !OwnerLive(n, name, n.db.users[name], live)
  }

  predicate Blocked(n: Node, s: Session, room: Room)
  {
    room.private && !IsAdmin(s) && (!s.auth || (room.id, s.user.email) !in n.db.allow)
  }

  /** The room a RECONNECT ends up in. */
  function ReconnectRoom(n: Node, u: User, requested: string): (r: string)
  {
    var name := NameOr(requested, LOBBY.name);
    if name in n.known && !Blocked(n, Session(u, LOBBY, true), n.known[name]) then name else LOBBY.name
  }

  function Reconnect(n: Node, k: Socket, name: string, requested: string, live: set<string>, guest: User): (r: Node)
    requires k in n.sessions
  {
    if !CanReconnect(n, name, live) then n else
    var u, prev := n.db.users[name], n.sessions[k].room.name;
    var claimed := WithOnline(WithRows(SetUser(n, k, u, true), MoveRows(n.db.membership, name, n.self)),
                              n.db.online[name := n.self]);
    var room := ReconnectRoom(n, u, requested);
    var joined := JoinRoom(claimed, k, room, NoFault).0;
    var listed := if room != LOBBY.name && room in n.known && !n.known[room].private
                  then AddAllow(joined, n.known[room].id, u.email, false) else joined;
    ApplyRoomJoin(ApplyReconnect(listed, name, n.self, guest), name, n.self, prev, room)
  }

  function Logout(n: Node, k: Socket, guest: User): (r: Node)
    requires k in n.sessions
  {
    var s := n.sessions[k];
    var left := SetUser(LeaveAll(n, k, true), k, guest, false);
    var out := JoinRoom(left, k, LOBBY.name, NoFault).0;
    if s.auth && s.user.name != "" then ApplyLogout(out, s.user.name) else out
  }

  /** A logged-in user's message is rumored under a fresh event id; a guest's goes only to the room. */
  function SendMessage(n: Node, k: Socket, id: string, text: string): (r: Node)
    requires k in n.sessions
  {
    var s := n.sessions[k];
    if text == "" || !s.auth then n else ApplyMessage(n, id, s.user.name, s.room.name)
  }

  function PacketJoin(n: Node, k: Socket, roomName: string): (r: Node)
    requires k in n.sessions
  {
    var name, s := NameOr(roomName, LOBBY.name), n.sessions[k];
    if name !in n.known || Blocked(n, s, n.known[name]) then n else
    var (joined, ok) := JoinRoom(n, k, name, NoFault);
    if !ok || !s.auth then joined else
    var listed := if n.known[name].private then joined else AddAllow(joined, n.known[name].id, s.user.email, false);
    ApplyRoomJoin(listed, s.user.name, n.self, s.room.name, name)
  }

  function PacketLeave(n: Node, k: Socket): (r: Node)
    requires k in n.sessions
  {
    var s := n.sessions[k];
    var (joined, ok) := JoinRoom(n, k, LOBBY.name, NoFault);
    if ok && s.auth then ApplyRoomJoin(joined, s.user.name, n.self, s.room.name, LOBBY.name) else joined
  }

  function PacketCreate(n: Node, k: Socket, name: string, private: bool): (r: Node)
    requires k in n.sessions
  {
    var s := n.sessions[k];
    if !s.auth || name == "" then n else
    var (made, ok) := CreateRoom(n, name, private, s.user.email, true);
    if ok then ApplyRoomCreated(made, s.user.name, name, private) else made
  }

  /** Admins and the room's creator. */
  predicate MayManage(n: Node, s: Session, room: Room)
  {
    IsAdmin(s) || ((room.id, s.user.email) in n.db.allow && n.db.allow[(room.id, s.user.email)])
  }

  function PacketInvite(n: Node, k: Socket, roomName: string, invitee: string): (r: Node)
    requires k in n.sessions
  {
    var s := n.sessions[k];
    var name := NameOr(roomName, s.room.name);
    if !s.auth || name == "" || invitee == "" || name !in n.known then n
    else if !n.known[name].private && !IsAdmin(s) then n
    else if !MayManage(n, s, n.known[name]) || invitee !in n.db.users then n
    else ApplyAclAdd(AddAllow(n, n.known[name].id, n.db.users[invitee].email, false), invitee, name, false)
  }

  function PacketDelete(n: Node, k: Socket, roomName: string): (r: Node)
    requires k in n.sessions
  {
    var s := n.sessions[k];
    var name := NameOr(roomName, s.room.name);
    if !IsAdmin(s) || name == "" then n else
    var (gone, ok) := DeleteRoom(n, name, true);
    if ok then ApplyRoomDeleted(gone, name) else gone
  }

  /** found is the session the search by user name comes upon, if there is one. */
  function PacketKick(n: Node, k: Socket, roomName: string, target: string, found: Socket): (r: Node)
    requires k in n.sessions
  {
    var s := n.sessions[k];
    var name := NameOr(roomName, s.room.name);
    if !s.auth || name == "" || target == "" || name == LOBBY.name || target == s.user.name then n
    else if name !in n.known || !MayManage(n, s, n.known[name]) || target !in n.db.users then n
    else
      var cut := RemoveAllow(n, name, target);
      var first := if found in LoggedInAs(n, target) then KickOne(cut, found, target, name) else cut;
      ApplyKick(first, target, name)
  }

  function KickOne(n: Node, k: Socket, target: string, name: string): (r: Node)
    requires k in n.sessions
  {
    if n.sessions[k].room.name != name then n
    else ApplyRoomJoin(JoinRoom(n, k, LOBBY.name, NoFault).0, target, n.self, name, LOBBY.name)
  }
}
