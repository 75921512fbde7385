/** The events a client's action rumors. The action's own effect already contains them: applied again right away, each
    changes nothing. */
module NodeEvents {
  import opened ChatNode
  import opened RoomIndex
  import opened NodeShapes
  import opened NodePackets
  import opened NodeRuns
  import opened NodeOutcomes

  /** In the order in which the handlers rumor them. */
  function Emitted(n: Node, a: Action): (r: seq<Event>)
  {
    if !Possible(n, a) then [] else
    match a
    case DoConnect(_, _) => []
    case DoDisconnect(k) =>
      if k in n.sessions && n.sessions[k].auth && n.sessions[k].user.name != ""
        then [LogoutEvent(n.sessions[k].user.name)] else []
    case DoLogin(k, name, ok) =>
      if LoginOk(n, name, ok)
        then [LoginEvent(name, n.self), RoomJoinEvent(name, n.self, n.sessions[k].room.name, LOBBY.name)] else []
    case DoRegister(k, name, password, email) =>
      if RegisterOk(n.db, name, password, email)
      then [UserCreatedEvent(User(name, email, USER)), LoginEvent(name, n.self),
            RoomJoinEvent(name, n.self, n.sessions[k].room.name, LOBBY.name)]
      else []
    case DoReconnect(k, name, room, live, _) =>
      if ReconnectOk(n, name, live)
      then [ReconnectEvent(name, n.self),
            RoomJoinEvent(name, n.self, n.sessions[k].room.name, ResumeRoom(n, n.db.users[name], room))]
      else []
    case DoLogout(k, _) =>
      if n.sessions[k].auth && n.sessions[k].user.name != "" then [LogoutEvent(n.sessions[k].user.name)] else []
    case DoMessage(k, id, text) =>
      if text != "" && n.sessions[k].auth then [MessageEvent(id, n.sessions[k].user.name, n.sessions[k].room.name)]
        else []
    case DoRoomJoin(k, room) =>
      var name, s := NameOr(room, LOBBY.name), n.sessions[k];
      if EnterOk(n, s, name) && s.auth
        then [RoomJoinEvent(s.user.name, n.self, s.room.name, name)] else []
    case DoRoomLeave(k) =>
      var s := n.sessions[k];
      if s.auth then [RoomJoinEvent(s.user.name, n.self, s.room.name, LOBBY.name)] else []
    case DoRoomCreate(k, name, private) =>
      var s := n.sessions[k];
      if s.auth && name != "" && name !in n.known && name !in n.db.rooms.Values
        then [RoomCreatedEvent(s.user.name, name, private)] else []
    case DoInvite(k, room, invitee) =>
      var name := NameOr(room, n.sessions[k].room.name);
      if InviteOk(n, n.sessions[k], name, invitee) then [AclAddEvent(invitee, name, false)] else []
    case DoRoomDelete(k, room) =>
      var name := NameOr(room, n.sessions[k].room.name);
      if DeleteOk(n, n.sessions[k], name) then [RoomDeletedEvent(name)] else []
    case DoKick(k, room, target, found) =>
      var name := NameOr(room, n.sessions[k].room.name);
      var moved := if found in InRoomAs(n, target, name) then [RoomJoinEvent(target, n.self, name, LOBBY.name)] else [];
      if !KickOk(n, n.sessions[k], name, target) then [] else moved + [KickEvent(target, name)]
    case DoPeer(_, _) => []
  }

  /** Applied to this state the event changes nothing. */
  ghost predicate Absorbed(r: Node, e: Event) { forall guest :: ApplyEvent(r, e, guest) == r }

  lemma AbsorbedIf(r: Node, e: Event)
    requires match e
             case LoginEvent(u, node) => ApplyLogin(r, u, node) == r
             case LogoutEvent(u) => ApplyLogout(r, u) == r
             case UserCreatedEvent(u) => ApplyUserCreated(r, u) == r
             case RoomCreatedEvent(u, room, private) => ApplyRoomCreated(r, u, room, private) == r
             case AclAddEvent(u, room, creator) => ApplyAclAdd(r, u, room, creator) == r
             case RoomDeletedEvent(room) => ApplyRoomDeleted(r, room) == r
             case KickEvent(u, room) => ApplyKick(r, u, room) == r
             case RoomJoinEvent(u, node, prev, room) => ApplyRoomJoin(r, u, node, prev, room) == r
             case MessageEvent(id, u, room) => ApplyMessage(r, id, u, room) == r
             case ReconnectEvent(u, node) => forall guest :: ApplyReconnect(r, u, node, guest) == r
             case RoomLeaveEvent(_, _) => false
    ensures Absorbed(r, e)
  {
    hide ApplyEvent;
    forall guest ensures ApplyEvent(r, e, guest) == r { ApplyEventIs(r, e, guest); }
  }

  // ---------------------------------------------------------------- the single events

  /** A join's event, after the join. */
  lemma JoinAbsorbed(n: Node, r: Node, m: Rows, u: string, prev: Room, name: string)
    requires Core(n) && r.self == n.self && r.known == n.known && name in n.known && u != "" && u in r.db.users
    requires prev.name in n.known && n.known[prev.name] == prev && IdsOk(r)
    requires r.db.membership == Rejoin(m, u, prev.id, n.known[name].id, n.self)
    ensures Absorbed(r, RoomJoinEvent(u, n.self, prev.name, name))
  {
    CoreKnown(n);
    CoreIndex(n);
    hide Core, Rejoin, ApplyRoomJoin, Index, Seated, IdsOk, UsersOk;
    JoinEventRepeats(r, u, prev, name, m);
    AbsorbedIf(r, RoomJoinEvent(u, n.self, prev.name, name));
  }

  lemma LoginAbsorbed(n: Node, r: Node, u: string)
    requires r.self == n.self && r.db.online == LoginRow(n.db.online, u, n.self)
    ensures Absorbed(r, LoginEvent(u, n.self))
  {
    assert ApplyLogin(r, u, n.self) == r;
    AbsorbedIf(r, LoginEvent(u, n.self));
  }

  lemma LogoutAbsorbed(r: Node, u: string)
    requires u !in r.db.online && forall x :: x in r.db.membership ==> x.0 != u
    ensures Absorbed(r, LogoutEvent(u))
  {
    assert ClearRows(r.db.membership, u) == r.db.membership;
    assert r.db.online - {u} == r.db.online;
    AbsorbedIf(r, LogoutEvent(u));
  }

  lemma UserAbsorbed(r: Node, u: User)
    requires u.name in r.db.users
    ensures Absorbed(r, UserCreatedEvent(u))
  {
    AbsorbedIf(r, UserCreatedEvent(u));
  }

  lemma MessageAbsorbed(n: Node, id: string, u: string, room: string)
    ensures Absorbed(ApplyMessage(n, id, u, room), MessageEvent(id, u, room))
  {
    AbsorbedIf(ApplyMessage(n, id, u, room), MessageEvent(id, u, room));
  }

  lemma ReconnectAbsorbed(r: Node, m: Rows, u: string, from: int, to: int)
    requires u in r.db.online && r.db.online[u] == r.self
    requires r.db.membership == Rejoin(MoveRows(m, u, r.self), u, from, to, r.self)
    ensures Absorbed(r, ReconnectEvent(u, r.self))
  {
    MovedStay(m, u, from, to, r.self);
    hide Rejoin, MoveRows;
    assert r.db.online[u := r.self] == r.db.online;
    forall guest ensures ApplyReconnect(r, u, r.self, guest) == r {}
    hide ApplyReconnect;
    AbsorbedIf(r, ReconnectEvent(u, r.self));
  }

  // ---------------------------------------------------------------- the actions

  lemma LoginEvents(n: Node, r: Node, k: Socket, u: User)
    requires Core(n) && Core(r) && k in n.sessions && LogsIn(n, r, k, u) && u.name in r.db.users && u.name != ""
    ensures Absorbed(r, LoginEvent(u.name, n.self))
    ensures Absorbed(r, RoomJoinEvent(u.name, n.self, n.sessions[k].room.name, LOBBY.name))
  {
    hide Absorbed;
    CoreSession(n, k);
    CoreIndex(n);
    CoreIndex(r);
    hide Core, Rejoin, LoginRow, Sits, Index, Seated, IdsOk, UsersOk;
    LoginAbsorbed(n, r, u.name);
    JoinAbsorbed(n, r, n.db.membership, u.name, n.sessions[k].room, LOBBY.name);
  }

  lemma LoginActionEvents(n: Node, k: Socket, name: string, ok: bool)
    requires Core(n) && k in n.sessions
    ensures forall e :: e in Emitted(n, DoLogin(k, name, ok)) ==> Absorbed(Login(n, k, name, ok), e)
  {
    hide Core, Absorbed, Login, HasSession, LogsIn;
    LoginOutcome(n, k, name, ok);
    if LoginOk(n, name, ok) {
      NameOf(n, name);
      LoginEvents(n, Login(n, k, name, ok), k, n.db.users[name]);
    }
  }

  lemma NameOf(n: Node, name: string)
    requires Core(n) && name in n.db.users
    ensures n.db.users[name].name == name && name != ""
  {
    CoreIndex(n);
    hide Core;
  }

  lemma RegisterActionEvents(n: Node, k: Socket, name: string, password: string, email: string)
    requires Core(n) && k in n.sessions
    ensures forall e :: e in Emitted(n, DoRegister(k, name, password, email)) ==>
            Absorbed(Register(n, k, name, password, email), e)
  {
    hide Core, Absorbed, Register, CanCreateUser, LogsIn;
    RegisterOutcome(n, k, name, password, email);
    if RegisterOk(n.db, name, password, email) {
      var r, u := Register(n, k, name, password, email), User(name, email, USER);
      UserAbsorbed(r, u);
      LoginEvents(n, r, k, u);
    }
  }

  lemma ReconnectActionEvents(n: Node, k: Socket, name: string, room: string, live: set<string>, guest: User)
    requires Core(n) && k in n.sessions
    ensures forall e :: e in Emitted(n, DoReconnect(k, name, room, live, guest)) ==>
            Absorbed(Reconnect(n, k, name, room, live, guest), e)
  {
    hide Core, Absorbed, Reconnect, ReconnectOk, ResumeRoom, Resumes;
    ReconnectOutcome(n, k, name, room, live, guest);
    if ReconnectOk(n, name, live) {
      ReconnectNamed(n, name, live);
      NameOf(n, name);
      ResumeEvents(n, Reconnect(n, k, name, room, live, guest), k, n.db.users[name],
                   ResumeRoom(n, n.db.users[name], room));
    }
  }

  lemma ResumeEvents(n: Node, r: Node, k: Socket, u: User, room: string)
    requires Core(n) && Core(r) && k in n.sessions && room in n.known && Resumes(n, r, k, u, room)
    requires u.name in n.db.users && u.name != ""
    ensures Absorbed(r, ReconnectEvent(u.name, n.self))
    ensures Absorbed(r, RoomJoinEvent(u.name, n.self, n.sessions[k].room.name, room))
  {
    hide Absorbed;
    CoreSession(n, k);
    CoreIndex(r);
    hide Core, Rejoin, MoveRows, Sits, Index, Seated, IdsOk, UsersOk;
    ReconnectAbsorbed(r, n.db.membership, u.name, n.sessions[k].room.id, n.known[room].id);
    JoinAbsorbed(n, r, MoveRows(n.db.membership, u.name, n.self), u.name, n.sessions[k].room, room);
  }

  lemma GoneEvents(n: Node, r: Node, u: string)
    requires r.db.online == n.db.online - {u} && r.db.membership == ClearRows(n.db.membership, u)
    ensures Absorbed(r, LogoutEvent(u))
  {
    hide Absorbed;
    LogoutAbsorbed(r, u);
  }

  lemma EntersEvents(n: Node, r: Node, k: Socket, name: string)
    requires Core(n) && Core(r) && k in n.sessions && name in n.known && Enters(n, r, k, name) && n.sessions[k].auth
    ensures Absorbed(r, RoomJoinEvent(n.sessions[k].user.name, n.self, n.sessions[k].room.name, name))
  {
    hide Absorbed;
    CoreSession(n, k);
    CoreIndex(r);
    hide Core, Rejoin, Sits, Index, Seated, IdsOk, UsersOk;
    JoinAbsorbed(n, r, n.db.membership, n.sessions[k].user.name, n.sessions[k].room, name);
  }

  lemma CreateEvents(n: Node, r: Node, k: Socket, name: string, private: bool)
    requires Core(n) && k in n.sessions && n.sessions[k].auth && name != ""
    requires Creates(n, r, name, private, n.sessions[k].user.email)
    ensures Absorbed(r, RoomCreatedEvent(n.sessions[k].user.name, name, private))
  {
    CoreSession(n, k);
    hide Core, CreateRoom;
    AbsorbedIf(r, RoomCreatedEvent(n.sessions[k].user.name, name, private));
  }

  lemma DeleteEvents(n: Node, r: Node, name: string)
    requires name in n.known && name !in r.known
    ensures Absorbed(r, RoomDeletedEvent(name))
  {
    AbsorbedIf(r, RoomDeletedEvent(name));
  }

  lemma InviteEvents(n: Node, name: string, invitee: string)
    requires name in n.known && invitee in n.db.users
    ensures Absorbed(AddAllow(n, n.known[name].id, n.db.users[invitee].email, false), AclAddEvent(invitee, name, false))
  {
    AbsorbedIf(AddAllow(n, n.known[name].id, n.db.users[invitee].email, false), AclAddEvent(invitee, name, false));
  }

  lemma KickActionEvents(n: Node, k: Socket, room: string, target: string, found: Socket)
    requires Core(n) && Possible(n, DoKick(k, room, target, found))
    ensures forall e :: e in Emitted(n, DoKick(k, room, target, found)) ==>
            Absorbed(PacketKick(n, k, room, target, found), e)
  {
    hide Core, Absorbed, PacketKick, KickOk, InRoomAs, Enters, LoggedInAs, RemoveAllow;
    KickShape(n, k, room, target, found);
    var r, name := PacketKick(n, k, room, target, found), NameOr(room, n.sessions[k].room.name);
    if KickOk(n, n.sessions[k], name, target) {
      KickMeans(n, k, name, target);
      CutSelf(n, name, target);
      if found in InRoomAs(n, target, name) { CutSame(n, name, target, found); }
      KickLeft(n, r, name, target, found);
      KickAbsorbed(r, name, target);
      if found in InRoomAs(n, target, name) {
        var cut := CutCore(n, name, target);
        EntersEvents(cut, r, found, LOBBY.name);
      }
    }
  }

  lemma KickMeans(n: Node, k: Socket, name: string, target: string)
    requires k in n.sessions && KickOk(n, n.sessions[k], name, target)
    ensures name in n.known && name != "" && target != "" && target in n.db.users
  {}

  lemma CutSelf(n: Node, name: string, target: string)
    ensures RemoveAllow(n, name, target).self == n.self && RemoveAllow(n, name, target).known == n.known
    ensures RemoveAllow(n, name, target).db.users == n.db.users
  {}

  lemma KickLeft(n: Node, r: Node, name: string, target: string, found: Socket)
    requires Core(n) && name in n.known && target in n.db.users && LOBBY.name in n.known
    requires (n.known[name].id, n.db.users[target].email) !in r.db.allow
    requires if found in InRoomAs(n, target, name)
             then found in RemoveAllow(n, name, target).sessions && LOBBY.name in RemoveAllow(n, name, target).known
                  && Enters(RemoveAllow(n, name, target), r, found, LOBBY.name)
             else r == RemoveAllow(n, name, target)
    ensures r.known == n.known && r.db.users == n.db.users && RemoveAllow(r, name, target) == r
  {
    hide Core, Rejoin, Sits, InRoomAs;
    assert r.known == n.known && r.db.users == n.db.users;
    assert r.db.allow - {(n.known[name].id, n.db.users[target].email)} == r.db.allow;
  }

  lemma KickAbsorbed(r: Node, name: string, target: string)
    requires Core(r) && RemoveAllow(r, name, target) == r && InRoomAs(r, target, name) == {} && target != ""
    requires name != ""
    ensures Absorbed(r, KickEvent(target, name))
  {
    hide Core, RemoveAllow, InRoomAs;
    assert ApplyKick(r, target, name) == r;
    AbsorbedIf(r, KickEvent(target, name));
  }

  /** Every event a client's action rumors is absorbed by the state the action leads to. */
  lemma EmittedAbsorbed(n: Node, a: Action)
    requires Core(n)
    ensures forall e :: e in Emitted(n, a) ==> Absorbed(Step(n, a), e)
  {
    hide Core, Absorbed, Step;
    if Possible(n, a) {
      hide Open, Remove, Login, Register, Reconnect, Logout, PacketJoin, PacketLeave, PacketCreate, PacketInvite,
        PacketDelete, PacketKick, ApplyEvent, ApplyMessage, AddAllow, Opens, Closes, LogsOut, Enters, Creates, Deletes,
        InviteOk, KickOk, EnterOk, DeleteOk, ReconnectOk, ResumeRoom, LoginOk, RegisterOk;
      StepIs(n, a);
      match a
      case DoDisconnect(k) => DisconnectEvents(n, k);
      case DoLogin(k, name, ok) => LoginActionEvents(n, k, name, ok);
      case DoRegister(k, name, password, email) => RegisterActionEvents(n, k, name, password, email);
      case DoReconnect(k, name, room, live, guest) => ReconnectActionEvents(n, k, name, room, live, guest);
      case DoLogout(k, guest) => LogoutEvents(n, k, guest);
      case DoMessage(k, id, text) => MessageAbsorbed(n, id, n.sessions[k].user.name, n.sessions[k].room.name);
      case DoRoomJoin(k, room) => JoinEvents(n, k, room);
      case DoRoomLeave(k) =>
        LeaveOutcome(n, k);
        if n.sessions[k].auth { EntersEvents(n, PacketLeave(n, k), k, LOBBY.name); }
      case DoRoomCreate(k, room, private) =>
        CreateOutcome(n, k, room, private);
        if Emitted(n, a) != [] { CreateEvents(n, PacketCreate(n, k, room, private), k, room, private); }
      case DoInvite(k, room, invitee) => InviteActionEvents(n, k, room, invitee);
      case DoRoomDelete(k, room) => DeleteActionEvents(n, k, room);
      case DoKick(k, room, target, found) => KickActionEvents(n, k, room, target, found);
      case _ =>
    }
  }

  lemma DisconnectEvents(n: Node, k: Socket)
    requires Core(n)
    ensures forall e :: e in Emitted(n, DoDisconnect(k)) ==> Absorbed(Remove(n, k), e)
  {
    hide Core, Absorbed, Remove;
    RemoveOutcome(n, k);
    if k in n.sessions && n.sessions[k].auth { GoneEvents(n, Remove(n, k), n.sessions[k].user.name); }
  }

  lemma LogoutEvents(n: Node, k: Socket, guest: User)
    requires Core(n) && k in n.sessions
    ensures forall e :: e in Emitted(n, DoLogout(k, guest)) ==> Absorbed(Logout(n, k, guest), e)
  {
    hide Core, Absorbed, Logout;
    LogoutOutcome(n, k, guest);
    if n.sessions[k].auth { GoneEvents(n, Logout(n, k, guest), n.sessions[k].user.name); }
  }

  lemma JoinEvents(n: Node, k: Socket, room: string)
    requires Core(n) && k in n.sessions
    ensures forall e :: e in Emitted(n, DoRoomJoin(k, room)) ==> Absorbed(PacketJoin(n, k, room), e)
  {
    hide Core, Absorbed, PacketJoin, Enters, NodeOutcomes.Lists;
    JoinOutcome(n, k, room);
    var name := NameOr(room, LOBBY.name);
    if EnterOk(n, n.sessions[k], name) && n.sessions[k].auth {
      EntersEvents(n, PacketJoin(n, k, room), k, name);
    }
  }

  lemma InviteActionEvents(n: Node, k: Socket, room: string, invitee: string)
    requires Core(n) && k in n.sessions
    ensures forall e :: e in Emitted(n, DoInvite(k, room, invitee)) ==> Absorbed(PacketInvite(n, k, room, invitee), e)
  {
    hide Core, Absorbed, PacketInvite;
    InviteOutcome(n, k, room, invitee);
    var name := NameOr(room, n.sessions[k].room.name);
    if InviteOk(n, n.sessions[k], name, invitee) { InviteEvents(n, name, invitee); }
  }

  lemma DeleteActionEvents(n: Node, k: Socket, room: string)
    requires Core(n) && k in n.sessions
    ensures forall e :: e in Emitted(n, DoRoomDelete(k, room)) ==> Absorbed(PacketDelete(n, k, room), e)
  {
    hide Core, Absorbed, PacketDelete, SitsAs, Sits;
    DeleteOutcome(n, k, room);
    var name := NameOr(room, n.sessions[k].room.name);
    if DeleteOk(n, n.sessions[k], name) { DeleteEvents(n, PacketDelete(n, k, room), name); }
  }
}
