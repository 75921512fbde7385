/** MESSAGE events are stored and pushed at most once while their row remains, however often an id comes
    back. */
module NodeMessages {
  import opened ChatNode
  import opened NodeRuns

  /** Every push put a row into the table, and every row left it only with its room. */
  ghost predicate Ledger(n: Node)
  {
    n.pushed == n.dropped + multiset(n.db.messages.Keys)
  }

  ghost predicate SameLedger(n: Node, r: Node)
  {
    r.pushed == n.pushed && r.dropped == n.dropped && r.db.messages == n.db.messages
  }

  /** Rows may be missing, but none is new and none has changed. */
  ghost predicate RowsKept(n: Node, r: Node)
  {
    forall x :: x in r.db.messages ==> x in n.db.messages && r.db.messages[x] == n.db.messages[x]
  }

  lemma JoinLedger(n: Node, k: Socket, name: string, fault: Fault)
    requires k in n.sessions
    ensures SameLedger(n, JoinRoom(n, k, name, fault).0) && k in JoinRoom(n, k, name, fault).0.sessions
  {
    hide Seat, Unseat;
  }

  lemma MessageLedger(n: Node, id: string, u: string, room: string)
    requires Ledger(n)
    ensures Ledger(ApplyMessage(n, id, u, room)) && ApplyMessage(n, id, u, room).dropped == n.dropped
    ensures n.db.messages.Keys <= ApplyMessage(n, id, u, room).db.messages.Keys
  {
    var r := ApplyMessage(n, id, u, room);
    if r != n {
      assert r.db.messages.Keys == n.db.messages.Keys + {id};
      assert multiset(r.db.messages.Keys) == multiset(n.db.messages.Keys) + multiset{id};
    }
  }

  lemma DropLedger(n: Node, id: int)
    requires Ledger(n)
    ensures Ledger(DropRoom(n, id)) && DropRoom(n, id).pushed == n.pushed && RowsKept(n, DropRoom(n, id))
  {
    var r := DropRoom(n, id);
    var all, kept := n.db.messages.Keys, r.db.messages.Keys;
    var gone := set m | m in n.db.messages && n.db.messages[m] == id;
    assert r.pushed == n.pushed && r.dropped == n.dropped + multiset(gone);
    assert forall m :: m in kept <==> m in all && m !in gone;
    hide DropRoom;
    SplitRows(all, kept, gone);
  }

  lemma SplitRows(all: set<string>, kept: set<string>, gone: set<string>)
    requires gone <= all && forall m :: m in kept <==> m in all && m !in gone
    ensures multiset(all) == multiset(kept) + multiset(gone)
  {
    assert all == kept + gone;
  }

  lemma DeleteLedger(n: Node, name: string, ok: bool)
    requires Ledger(n)
    ensures Ledger(DeleteRoom(n, name, ok).0) && DeleteRoom(n, name, ok).0.pushed == n.pushed
    ensures RowsKept(n, DeleteRoom(n, name, ok).0)
  {
    if Deletable(n, name) {
      var gone := ForgetRoom(n, name);
      assert SameLedger(n, gone);
      DropLedger(gone, n.known[name].id);
      hide ForgetRoom, DropRoom, UsersOf;
    }
  }

  /** The room deletions, the only steps that take message rows away. */
  predicate Deletes(a: Action)
  {
    a.DoRoomDelete? || (a.DoPeer? && a.event.RoomDeletedEvent?)
  }

  /** The messages of clients and peers, the only steps that push. */
  predicate IsMessage(a: Action)
  {
    a.DoMessage? || (a.DoPeer? && a.event.MessageEvent?)
  }

  /** The node knows the room and the sender of a message. */
  predicate Knows(n: Node, user: string, room: string)
  {
    var name := NameOr(room, LOBBY.name);
    name in n.known && user in n.db.users && n.known[name].id in n.db.rooms
  }

  lemma EventLedger(n: Node, e: Event, guest: User)
    requires Ledger(n)
    ensures Ledger(ApplyEvent(n, e, guest))
    ensures !e.RoomDeletedEvent? ==>
              ApplyEvent(n, e, guest).dropped == n.dropped
                && n.db.messages.Keys <= ApplyEvent(n, e, guest).db.messages.Keys
    ensures !e.MessageEvent? ==> ApplyEvent(n, e, guest).pushed == n.pushed && RowsKept(n, ApplyEvent(n, e, guest))
  {
    hide *;
    ApplyEventIs(n, e, guest);
    var r := ApplyEvent(n, e, guest);
    match e
    case MessageEvent(id, u, room) => MessageLedger(n, id, u, room);
    case RoomDeletedEvent(room) => DeletedLedger(n, room);
    case ReconnectEvent(_, _) => EventsLedger(n, guest); KeepsLedger(n, r);
    case RoomJoinEvent(_, _, _, _) => EventsLedger(n, guest); KeepsLedger(n, r);
    case KickEvent(_, _) => EventsLedger(n, guest); KeepsLedger(n, r);
    case RoomCreatedEvent(u, room, private) => CreatedLedger(n, u, room, private, guest); KeepsLedger(n, r);
    case _ => TableEventsLedger(n, e); KeepsLedger(n, r);
  }

  lemma DeletedLedger(n: Node, room: string)
    requires Ledger(n)
    ensures Ledger(ApplyRoomDeleted(n, room)) && ApplyRoomDeleted(n, room).pushed == n.pushed
    ensures RowsKept(n, ApplyRoomDeleted(n, room))
  {
    hide Ledger, DeleteRoom;
    DeleteLedger(n, room, true);
  }

  lemma CreatedLedger(n: Node, u: string, room: string, private: bool, guest: User)
    ensures SameLedger(n, ApplyRoomCreated(n, u, room, private))
  {
    hide CreateRoom;
    EventsLedger(n, guest);
  }

  lemma TableEventsLedger(n: Node, e: Event)
    ensures match e
            case LoginEvent(u, node) => SameLedger(n, ApplyLogin(n, u, node))
            case LogoutEvent(u) => SameLedger(n, ApplyLogout(n, u))
            case UserCreatedEvent(u) => SameLedger(n, ApplyUserCreated(n, u))
            case AclAddEvent(u, room, creator) => SameLedger(n, ApplyAclAdd(n, u, room, creator))
            case RoomLeaveEvent(u, room) => SameLedger(n, ApplyRoomLeave(n, u, room))
            case _ => true
  {
    hide ClearRows, CanCreateUser;
  }

  /** The other events leave messages and pushes alone. */
  lemma EventsLedger(n: Node, guest: User)
    ensures forall u, node :: SameLedger(n, ApplyReconnect(n, u, node, guest))
    ensures forall u, node, prev, room :: SameLedger(n, ApplyRoomJoin(n, u, node, prev, room))
    ensures forall u, room :: SameLedger(n, ApplyKick(n, u, room))
    ensures forall room, private, email :: SameLedger(n, CreateRoom(n, room, private, email, true).0)
  {
    hide SameLedger, ApplyReconnect, ApplyRoomJoin, ApplyKick, CreateRoom;
    forall u, node ensures SameLedger(n, ApplyReconnect(n, u, node, guest)) { ReconnectEventLedger(n, u, node, guest); }
    forall u, node, prev, room ensures SameLedger(n, ApplyRoomJoin(n, u, node, prev, room)) {
      JoinEventLedger(n, u, node, prev, room);
    }
    forall u, room ensures SameLedger(n, ApplyKick(n, u, room)) { KickEventLedger(n, u, room); }
    forall room, private, email ensures SameLedger(n, CreateRoom(n, room, private, email, true).0) {
      MadeLedger(n, room, private, email);
    }
  }

  lemma ReconnectEventLedger(n: Node, u: string, node: string, guest: User)
    ensures SameLedger(n, ApplyReconnect(n, u, node, guest))
  {
    hide InLobby, MoveRows, LoggedInAs;
  }

  lemma JoinEventLedger(n: Node, u: string, node: string, prev: string, room: string)
    ensures SameLedger(n, ApplyRoomJoin(n, u, node, prev, room))
  {}

  lemma KickEventLedger(n: Node, u: string, room: string)
    ensures SameLedger(n, ApplyKick(n, u, room))
  {
    hide InLobby, LoggedInAs;
  }

  lemma MadeLedger(n: Node, room: string, private: bool, email: string)
    ensures SameLedger(n, CreateRoom(n, room, private, email, true).0)
  {}

  lemma KeepsLedger(n: Node, r: Node)
    requires Ledger(n) && SameLedger(n, r)
    ensures Ledger(r) && r.dropped == n.dropped && n.db.messages.Keys <= r.db.messages.Keys && r.pushed == n.pushed
    ensures RowsKept(n, r)
  {}

  lemma LoginLedger(n: Node, k: Socket, u: User)
    requires k in n.sessions
    ensures SameLedger(n, Authenticate(n, k, u))
  {
    hide JoinRoom, ApplyRoomJoin, ApplyLogin;
    JoinLedger(SetUser(n, k, u, true), k, LOBBY.name, NoFault);
    var joined := JoinRoom(SetUser(n, k, u, true), k, LOBBY.name, NoFault).0;
    var owned := ApplyLogin(joined, u.name, n.self);
    LoginEventLedger(joined, u.name, n.self);
    JoinEventLedger(owned, u.name, n.self, n.sessions[k].room.name, LOBBY.name);
  }

  lemma LoginEventLedger(n: Node, u: string, node: string)
    ensures SameLedger(n, ApplyLogin(n, u, node))
  {}

  lemma ReconnectLedger(n: Node, k: Socket, name: string, room: string, live: set<string>, guest: User)
    requires k in n.sessions
    ensures SameLedger(n, Reconnect(n, k, name, room, live, guest))
  {
    hide JoinRoom, ApplyReconnect, ApplyRoomJoin, MoveRows, CanReconnect, ReconnectRoom;
    if CanReconnect(n, name, live) {
      CanMeans(n, name, live);
      var u := n.db.users[name];
      var claimed := WithOnline(WithRows(SetUser(n, k, u, true), MoveRows(n.db.membership, name, n.self)),
                                n.db.online[name := n.self]);
      var into := ReconnectRoom(n, u, room);
      JoinLedger(claimed, k, into, NoFault);
      var joined := JoinRoom(claimed, k, into, NoFault).0;
      var listed := if into != LOBBY.name && into in n.known && !n.known[into].private
                    then AddAllow(joined, n.known[into].id, u.email, false) else joined;
      assert SameLedger(n, listed);
      EventsLedger(listed, guest);
      EventsLedger(ApplyReconnect(listed, name, n.self, guest), guest);
    }
  }

  lemma CanMeans(n: Node, name: string, live: set<string>)
    requires CanReconnect(n, name, live)
    ensures name in n.db.users
  {}

  lemma LogoutLedger(n: Node, k: Socket, guest: User)
    requires k in n.sessions
    ensures SameLedger(n, Logout(n, k, guest))
  {
    hide JoinRoom, ClearRows, Unseat;
    JoinLedger(SetUser(LeaveAll(n, k, true), k, guest, false), k, LOBBY.name, NoFault);
  }

  lemma RoomPacketsLedger(n: Node, k: Socket, room: string, guest: User)
    requires k in n.sessions
    ensures SameLedger(n, PacketJoin(n, k, room)) && SameLedger(n, PacketLeave(n, k))
  {
    hide JoinRoom, Blocked, ApplyRoomJoin;
    var s := n.sessions[k];
    var name := NameOr(room, LOBBY.name);
    JoinLedger(n, k, name, NoFault);
    JoinLedger(n, k, LOBBY.name, NoFault);
    EventsLedger(JoinRoom(n, k, LOBBY.name, NoFault).0, guest);
    var joined := JoinRoom(n, k, name, NoFault).0;
    if name in n.known {
      var listed := if n.known[name].private then joined else AddAllow(joined, n.known[name].id, s.user.email, false);
      assert SameLedger(n, listed);
      EventsLedger(listed, guest);
    }
  }

  lemma KickLedger(n: Node, k: Socket, room: string, target: string, found: Socket, guest: User)
    requires k in n.sessions
    ensures SameLedger(n, PacketKick(n, k, room, target, found))
  {
    hide JoinRoom, MayManage, ApplyKick, ApplyRoomJoin;
    var name := NameOr(room, n.sessions[k].room.name);
    var cut := RemoveAllow(n, name, target);
    EventsLedger(cut, guest);
    if found in n.sessions {
      JoinLedger(cut, found, LOBBY.name, NoFault);
      EventsLedger(JoinRoom(cut, found, LOBBY.name, NoFault).0, guest);
      EventsLedger(KickOne(cut, found, target, name), guest);
    }
  }

  lemma StepLedger(n: Node, a: Action)
    requires Ledger(n)
    ensures Ledger(Step(n, a))
    ensures !Deletes(a) ==> Step(n, a).dropped == n.dropped && n.db.messages.Keys <= Step(n, a).db.messages.Keys
    ensures !IsMessage(a) ==> Step(n, a).pushed == n.pushed && RowsKept(n, Step(n, a))
  {
    hide Ledger, Open, Remove, Login, Register, Reconnect, Logout, PacketJoin, PacketLeave, PacketCreate, PacketInvite,
      PacketDelete, PacketKick, ApplyEvent, ApplyMessage;
    if Possible(n, a) {
      var r := Step(n, a);
      match a
      case DoMessage(k, id, text) => MessageLedger(n, id, n.sessions[k].user.name, n.sessions[k].room.name);
      case DoRoomDelete(k, room) => DeletePacketLedger(n, k, room);
      case DoPeer(e, guest) => EventLedger(n, e, guest);
      case DoLogin(k, name, ok) => LoginPacketLedger(n, k, name, ok); KeepsLedger(n, r);
      case DoRegister(k, name, password, email) => RegisterLedger(n, k, name, password, email); KeepsLedger(n, r);
      case DoReconnect(k, name, room, live, guest) => ReconnectLedger(n, k, name, room, live, guest); KeepsLedger(n, r);
      case DoLogout(k, guest) => LogoutLedger(n, k, guest); KeepsLedger(n, r);
      case DoRoomJoin(k, room) => RoomPacketsLedger(n, k, room, n.sessions[k].user); KeepsLedger(n, r);
      case DoRoomLeave(k) => RoomPacketsLedger(n, k, "", n.sessions[k].user); KeepsLedger(n, r);
      case DoKick(k, room, name, found) => KickLedger(n, k, room, name, found, n.sessions[k].user); KeepsLedger(n, r);
      case DoConnect(k, guest) => OpenLedger(n, k, guest); KeepsLedger(n, r);
      case DoDisconnect(k) => RemoveLedger(n, k); KeepsLedger(n, r);
      case DoRoomCreate(k, room, private) => CreateLedger(n, k, room, private); KeepsLedger(n, r);
      case DoInvite(k, room, name) => InviteLedger(n, k, room, name); KeepsLedger(n, r);
    }
  }

  /** A logged-in client sends message x. */
  predicate Sends(n: Node, a: Action, x: string)
  {
    a.DoMessage? && a.id == x && Possible(n, a) && n.sessions[a.k].auth && a.text != ""
  }

  /** A message of a peer finds its room and its sender known. */
  predicate Arrives(n: Node, a: Action, x: string)
  {
    a.DoPeer? && a.event.MessageEvent? && a.event.id == x && Knows(n, a.event.user, a.event.room)
  }

  /** Nothing else is ever pushed, and a message of a peer that arrives so has been pushed, then or before. */
  lemma StepPushes(n: Node, a: Action, x: string)
    requires Ledger(n)
    ensures Step(n, a).pushed[x] >= n.pushed[x]
    ensures Step(n, a).pushed[x] > n.pushed[x] ==> Sends(n, a, x) || Arrives(n, a, x)
    ensures Arrives(n, a, x) ==> Step(n, a).pushed[x] > 0
  {
    hide Ledger, Step, ApplyEvent;
    StepLedger(n, a);
    if a.DoMessage? && Possible(n, a) {
      StepIs(n, a);
    } else if a.DoPeer? && a.event.MessageEvent? {
      StepIs(n, a);
      ApplyEventIs(n, a.event, a.guest);
      if x in n.db.messages { StoredIsPushed(n, x); }
    } else if !Possible(n, a) {
      NotPossible(n, a);
    }
  }

  lemma OnlyPeersArrive(n: Node, a: Action, x: string)
    ensures Arrives(n, a, x) ==> a.DoPeer?
  {}

  lemma StoredIsPushed(n: Node, x: string)
    requires Ledger(n) && x in n.db.messages
    ensures n.pushed[x] > 0
  {}

  lemma DeletePacketLedger(n: Node, k: Socket, room: string)
    requires Ledger(n) && k in n.sessions
    ensures Ledger(PacketDelete(n, k, room)) && PacketDelete(n, k, room).pushed == n.pushed
    ensures RowsKept(n, PacketDelete(n, k, room))
  {
    hide Ledger, DeleteRoom;
    var name := NameOr(room, n.sessions[k].room.name);
    DeleteLedger(n, name, true);
    DeleteLedger(DeleteRoom(n, name, true).0, name, true);
  }

  lemma LoginPacketLedger(n: Node, k: Socket, name: string, ok: bool)
    requires k in n.sessions
    ensures SameLedger(n, Login(n, k, name, ok))
  {
    hide Authenticate, HasSession;
    if name in n.db.users { LoginLedger(n, k, n.db.users[name]); }
  }

  lemma RegisterLedger(n: Node, k: Socket, name: string, password: string, email: string)
    requires k in n.sessions
    ensures SameLedger(n, Register(n, k, name, password, email))
  {
    hide Authenticate, CanCreateUser;
    var u := User(name, email, USER);
    LoginLedger(WithUser(n, u), k, u);
  }

  lemma OpenLedger(n: Node, k: Socket, guest: User)
    ensures SameLedger(n, Open(n, k, guest))
  {
    hide JoinRoom;
    JoinLedger(Opened(n, k, guest), k, LOBBY.name, NoFault);
  }

  lemma RemoveLedger(n: Node, k: Socket)
    ensures SameLedger(n, Remove(n, k))
  {
    hide ClearRows, Unseat;
  }

  lemma CreateLedger(n: Node, k: Socket, room: string, private: bool)
    requires k in n.sessions
    ensures SameLedger(n, PacketCreate(n, k, room, private))
  {
    hide CreateRoom;
    var s := n.sessions[k];
    EventsLedger(n, s.user);
    EventsLedger(CreateRoom(n, room, private, s.user.email, true).0, s.user);
  }

  lemma InviteLedger(n: Node, k: Socket, room: string, name: string)
    requires k in n.sessions
    ensures SameLedger(n, PacketInvite(n, k, room, name))
  {
    hide MayManage;
  }

  /** In every run, including any number of redeliveries of an id: pushes of an id equal the rows of it that went
      away with their rooms, plus one if its row is there now. Nothing is pushed twice while its row remains. */
  lemma {:induction false} RunLedger(n: Node, actions: seq<Action>, id: string)
    requires Ledger(n)
    ensures Ledger(Run(n, actions))
    ensures Run(n, actions).pushed[id]
         == Run(n, actions).dropped[id] + if id in Run(n, actions).db.messages then 1 else 0
    decreases |actions|
  {
    if actions == [] {
      assert id in multiset(n.db.messages.Keys) <==> id in n.db.messages.Keys;
    } else {
      hide Ledger, Step;
      StepLedger(n, actions[0]);
      RunLedger(Step(n, actions[0]), actions[1..], id);
    }
  }

  /** Where no room is deleted, an id is pushed at most once over the whole run, and exactly when it is stored. */
  lemma {:induction false} PushedAtMostOnce(n: Node, actions: seq<Action>, id: string)
    requires Ledger(n) && n.dropped == multiset{} && forall a :: a in actions ==> !Deletes(a)
    ensures Run(n, actions).pushed[id] == if id in Run(n, actions).db.messages then 1 else 0
    decreases |actions|
  {
    RunLedger(n, actions, id);
    if actions != [] {
      hide Ledger, Step, Deletes;
      assert actions[0] in actions;
      StepLedger(n, actions[0]);
      PushedAtMostOnce(Step(n, actions[0]), actions[1..], id);
    }
  }

  /** What has been pushed stays pushed. */
  lemma {:induction false} PushesStay(n: Node, actions: seq<Action>, x: string)
    requires Ledger(n)
    ensures Run(n, actions).pushed[x] >= n.pushed[x]
    decreases |actions|
  {
    if actions != [] {
      hide Ledger, Step;
      StepLedger(n, actions[0]);
      StepPushes(n, actions[0], x);
      PushesStay(Step(n, actions[0]), actions[1..], x);
    }
  }
}
