/** Replication: two nodes whose tables agree before a client's action agree after it, once the other node has applied
    the events the action rumors; rooms are told apart by their names, as their numbers may differ. Where membership
    rows do not follow, exactly when. */
module NodeReplication {
  import opened ChatNode
  import opened RoomIndex
  import opened NodeShapes
  import opened NodePackets
  import opened NodeRuns
  import opened NodeOutcomes
  import opened PeerOutcomes
  import opened NodeTables
  import opened NodeEvents
  import opened Bytes

  // ---------------------------------------------------------------- agreement

  /** The user's row of the room so named: the node it is at. */
  function RowAt(n: Node, u: string, name: string): (r: Option<string>)
  {
    if name in n.known && (u, n.known[name].id) in n.db.membership then Some(n.db.membership[(u, n.known[name].id)])
      else None
  }

  /** An entry of a private room lets its user in. */
  predicate ListedIn(n: Node, name: string, email: string)
  {
    name in n.known && n.known[name].private && (n.known[name].id, email) in n.db.allow
  }

  predicate MadeIn(n: Node, name: string, email: string)
  {
    name in n.known && Made(n, email, n.known[name].id)
  }

  predicate MessageIn(n: Node, x: string, name: string)
  {
    x in n.db.messages && name in n.known && n.db.messages[x] == n.known[name].id
  }

  ghost predicate AgreeRooms(n: Node, m: Node)
  {
    n.known.Keys == m.known.Keys && forall name :: name in n.known ==> n.known[name].private == m.known[name].private
  }

  ghost predicate AgreeEntries(n: Node, m: Node)
  {
    && (forall name, email :: ListedIn(n, name, email) <==> ListedIn(m, name, email))
    && (forall name, email :: MadeIn(n, name, email) <==> MadeIn(m, name, email))
  }

  ghost predicate AgreeMessages(n: Node, m: Node)
  {
    && n.db.messages.Keys == m.db.messages.Keys
    && forall x, name :: MessageIn(n, x, name) <==> MessageIn(m, x, name)
  }

  ghost predicate AgreeRows(n: Node, m: Node) { forall u, name :: RowAt(n, u, name) == RowAt(m, u, name) }

  /** Users, presence, rooms with their privacy, who is let into private rooms, who made a room, and messages by room.
      */
  ghost predicate AgreeTables(n: Node, m: Node)
  {
    && n.db.users == m.db.users && n.db.online == m.db.online && AgreeRooms(n, m) && AgreeEntries(n, m)
    && AgreeMessages(n, m)
  }

  function ApplyAll(m: Node, es: seq<Event>, guest: User): (r: Node)
    decreases |es|
  {
    if es == [] then m else ApplyAll(ApplyEvent(m, es[0], guest), es[1..], guest)
  }

  lemma AllOne(m: Node, a: Event, guest: User)
    ensures ApplyAll(m, [], guest) == m && ApplyAll(m, [a], guest) == ApplyEvent(m, a, guest)
  {
    hide ApplyEvent;
    assert [a][1..] == [];
    assert ApplyAll(ApplyEvent(m, a, guest), [], guest) == ApplyEvent(m, a, guest);
  }

  lemma AllTwo(m: Node, a: Event, b: Event, guest: User)
    ensures ApplyAll(m, [a, b], guest) == ApplyEvent(ApplyEvent(m, a, guest), b, guest)
  {
    hide ApplyEvent;
    assert [a, b][1..] == [b];
    AllOne(ApplyEvent(m, a, guest), b, guest);
  }

  lemma AllThree(m: Node, a: Event, b: Event, c: Event, guest: User)
    ensures ApplyAll(m, [a, b, c], guest) == ApplyEvent(ApplyEvent(ApplyEvent(m, a, guest), b, guest), c, guest)
  {
    hide ApplyEvent;
    assert [a, b, c][1..] == [b, c];
    AllTwo(ApplyEvent(m, a, guest), b, c, guest);
  }

  // ---------------------------------------------------------------- what does not matter to the named view

  lemma SameView(n: Node, r: Node)
    requires r.known == n.known && r.db.allow == n.db.allow && r.db.messages == n.db.messages
    ensures forall name, email :: ListedIn(n, name, email) <==> ListedIn(r, name, email)
    ensures forall name, email :: MadeIn(n, name, email) <==> MadeIn(r, name, email)
    ensures forall x, name :: MessageIn(n, x, name) <==> MessageIn(r, x, name)
  {}

  lemma SameRowView(n: Node, r: Node)
    requires r.known == n.known && r.db.membership == n.db.membership
    ensures forall u, name :: RowAt(n, u, name) == RowAt(r, u, name)
  {}

  /** Only users, presence and rows have changed, and the first two alike. */
  lemma StillAgree(n: Node, m: Node, r: Node, q: Node)
    requires AgreeTables(n, m)
    requires r.known == n.known && r.db.allow == n.db.allow && r.db.messages == n.db.messages
    requires q.known == m.known && q.db.allow == m.db.allow && q.db.messages == m.db.messages
    requires r.db.users == q.db.users && r.db.online == q.db.online
    ensures AgreeTables(r, q)
  {
    SameView(n, r);
    SameView(m, q);
    hide ListedIn, MadeIn, MessageIn;
  }

  lemma IdsApart(n: Node)
    requires Core(n)
    ensures forall a, b :: a in n.known && b in n.known && n.known[a].id == n.known[b].id ==> a == b
  {
    CoreIndex(n);
    CoreKnown(n);
    hide Core;
    forall a, b | a in n.known && b in n.known && n.known[a].id == n.known[b].id ensures a == b { IdsDiffer(n, a, b); }
  }

  // ---------------------------------------------------------------- rows

  /** A user's row moves from one room to another. */
  function Shift(was: Option<string>, v: string, name: string, u: string, from: string, to: string,
                 node: string): (r: Option<string>)
  {
    if v == u && name == to then Some(node) else if v == u && name == from then None else was
  }

  lemma RejoinAt(n: Node, r: Node, u: string, from: string, to: string, node: string)
    requires Core(n) && from in n.known && to in n.known && r.known == n.known
    requires r.db.membership == Rejoin(n.db.membership, u, n.known[from].id, n.known[to].id, node)
    ensures forall v, name :: RowAt(r, v, name) == Shift(RowAt(n, v, name), v, name, u, from, to, node)
  {
    IdsApart(n);
    hide Core;
  }

  lemma JoinEventAt(m: Node, q: Node, u: string, node: string, from: string, to: string)
    requires Core(m) && RowMoves(m, q, u, node, from, to) && u in m.db.users && u != "" && node != ""
    requires from in m.known && to in m.known && to != ""
    ensures forall v, name :: RowAt(q, v, name) == Shift(RowAt(m, v, name), v, name, u, from, to, node)
  {
    IdsApart(m);
    hide Core;
  }

  /** A join here and its event there. */
  lemma JoinAgrees(n: Node, m: Node, r: Node, q: Node, u: string, from: string, to: string)
    requires Core(n) && Core(m) && AgreeRooms(n, m) && AgreeRows(n, m) && from in n.known && to in n.known
    requires r.known == n.known
    requires r.db.membership == Rejoin(n.db.membership, u, n.known[from].id, n.known[to].id, n.self)
    requires RowMoves(m, q, u, n.self, from, to) && u in m.db.users && u != ""
    ensures AgreeRows(r, q)
  {
    assert to != "" by { CoreRoom(n, to); }
    assert n.self != "" by { CoreIndex(n); }
    hide Core, RowMoves, Rejoin, RowAt;
    RejoinAt(n, r, u, from, to, n.self);
    JoinEventAt(m, q, u, n.self, from, to);
  }

  lemma GoneAgrees(n: Node, m: Node, r: Node, q: Node, u: string)
    requires AgreeRows(n, m) && r.known == n.known && q.known == m.known
    requires RowsGo(n.db.membership, r.db.membership, u) && RowsGo(m.db.membership, q.db.membership, u)
    ensures AgreeRows(r, q)
  {
    GoneAt(n, r, u);
    GoneAt(m, q, u);
    hide RowAt, RowsGo;
  }

  lemma GoneAt(n: Node, r: Node, u: string)
    requires r.known == n.known && RowsGo(n.db.membership, r.db.membership, u)
    ensures forall v, name :: RowAt(r, v, name) == if v == u then None else RowAt(n, v, name)
  {}

  lemma TakenAt(n: Node, r: Node, u: string, node: string)
    requires r.known == n.known
    requires r.db.membership == map x | x in n.db.membership :: if x.0 == u then node else n.db.membership[x]
    ensures forall v, name ::
            RowAt(r, v, name) == if v == u && RowAt(n, v, name).Some? then Some(node) else RowAt(n, v, name)
  {}

  // ---------------------------------------------------------------- logging in and out

  ghost predicate Twins(n: Node, m: Node)
  {
    Core(n) && Core(m) && Tidy(n) && Tidy(m) && AgreeTables(n, m) && AgreeRows(n, m) && n.self != m.self
  }

  /** Rooms, entries and messages are untouched. */
  predicate Untouched(m: Node, q: Node)
  {
    q.self == m.self && q.known == m.known && q.db.allow == m.db.allow && q.db.messages == m.db.messages
  }

  lemma OwnRoom(n: Node, k: Socket)
    requires Core(n) && k in n.sessions
    ensures var room := n.sessions[k].room; room.name in n.known && n.known[room.name] == room && n.self != ""
    ensures LOBBY.name in n.known && n.known[LOBBY.name] == LOBBY
    ensures n.sessions[k].auth ==> n.sessions[k].user.name in n.db.users && n.sessions[k].user.name != ""
                                   && n.db.users[n.sessions[k].user.name] == n.sessions[k].user
  {
    CoreSession(n, k);
    CoreIndex(n);
    hide Core;
  }

  /** A login here; LOGIN and ROOM_JOIN there. */
  lemma LogsInThere(n: Node, m: Node, r: Node, m1: Node, q: Node, k: Socket, u: User)
    requires Core(n) && Core(m) && Core(m1) && k in n.sessions && AgreeRooms(n, m) && AgreeRows(n, m)
    requires n.db.online == m.db.online && LogsIn(n, r, k, u) && u.name in m.db.users && u.name != ""
    requires ComesOnline(m, m1, u.name, n.self) && RowMoves(m1, q, u.name, n.self, n.sessions[k].room.name, LOBBY.name)
    ensures AgreeRows(r, q) && r.db.online == q.db.online && q.db.users == m.db.users && Untouched(m, q)
    ensures Untouched(n, r)
  {
    OwnRoom(n, k);
    hide Core, AgreeRows, RowAt, Sits, Rejoin;
    AgreeOver(n, m, m1);
    JoinAgrees(n, m1, r, q, u.name, n.sessions[k].room.name, LOBBY.name);
  }

  lemma AgreeOver(n: Node, m: Node, q: Node)
    requires AgreeRows(n, m) && q.known == m.known && q.db.membership == m.db.membership
    ensures AgreeRows(n, q)
  {
    SameRowView(m, q);
    hide RowAt;
  }

  lemma LoginAgrees(n: Node, m: Node, k: Socket, name: string, ok: bool, guest: User)
    requires Twins(n, m) && k in n.sessions && LoginOk(n, name, ok)
    ensures var r := Login(n, k, name, ok);
            var q := ApplyAll(m, [LoginEvent(name, n.self),
                                  RoomJoinEvent(name, n.self, n.sessions[k].room.name, LOBBY.name)],
                              guest);
            AgreeTables(r, q) && AgreeRows(r, q)
  {
    var a, b := LoginEvent(name, n.self), RoomJoinEvent(name, n.self, n.sessions[k].room.name, LOBBY.name);
    var r, m1 := Login(n, k, name, ok), ApplyEvent(m, a, guest);
    var q := ApplyEvent(m1, b, guest);
    hide Core, Tidy, AgreeRows, AgreeRooms, AgreeEntries, AgreeMessages, ApplyEvent, Login, LogsIn, ApplyAll, Does,
      ComesOnline, RowMoves;
    AllTwo(m, a, b, guest);
    NameOf(n, name);
    LoginOutcome(n, k, name, ok);
    PeerOutcome(m, a, guest);
    DoesIs(m, m1, a, guest);
    PeerOutcome(m1, b, guest);
    DoesIs(m1, q, b, guest);
    LogsInThere(n, m, r, m1, q, k, n.db.users[name]);
    StillAgree(n, m, r, q);
  }

  lemma RegisterAgrees(n: Node, m: Node, k: Socket, name: string, password: string, email: string, guest: User)
    requires Twins(n, m) && k in n.sessions && RegisterOk(n.db, name, password, email)
    ensures var r := Register(n, k, name, password, email);
            var q := ApplyAll(m, [UserCreatedEvent(User(name, email, USER)), LoginEvent(name, n.self),
                                  RoomJoinEvent(name, n.self, n.sessions[k].room.name, LOBBY.name)], guest);
            AgreeTables(r, q) && AgreeRows(r, q)
  {
    var u := User(name, email, USER);
    var a, b, c := UserCreatedEvent(u), LoginEvent(name, n.self),
        RoomJoinEvent(name, n.self, n.sessions[k].room.name, LOBBY.name);
    var r, m1 := Register(n, k, name, password, email), ApplyEvent(m, a, guest);
    var m2 := ApplyEvent(m1, b, guest);
    var q := ApplyEvent(m2, c, guest);
    assert name != "";
    hide Core, Tidy, AgreeRows, AgreeRooms, AgreeEntries, AgreeMessages, ApplyEvent, Register, LogsIn, ApplyAll, Does,
      ComesOnline, RowMoves;
    AllThree(m, a, b, c, guest);
    RegisterOutcome(n, k, name, password, email);
    PeerOutcome(m, a, guest);
    DoesIs(m, m1, a, guest);
    PeerOutcome(m1, b, guest);
    DoesIs(m1, m2, b, guest);
    PeerOutcome(m2, c, guest);
    DoesIs(m2, q, c, guest);
    assert m1 == m.(db := m.db.(users := m.db.users[name := u])) by { StoredThere(n, m, m1, u, password); }
    AgreeOver(n, m, m1);
    RoomsOver(n, m, m1);
    LogsInThere(n, m1, r, m2, q, k, u);
    StillAgree(n, m, r, q);
  }

  lemma StoredThere(n: Node, m: Node, m1: Node, u: User, password: string)
    requires n.db.users == m.db.users && RegisterOk(n.db, u.name, password, u.email) && Stores(m, m1, u)
    ensures m1 == m.(db := m.db.(users := m.db.users[u.name := u]))
  {}

  lemma RoomsOver(n: Node, m: Node, q: Node)
    requires AgreeRooms(n, m) && q.known == m.known
    ensures AgreeRooms(n, q)
  {}

  /** LOGOUT, of a packet or of a disconnect. */
  lemma GoesAgrees(n: Node, m: Node, r: Node, u: string, guest: User)
    requires Twins(n, m) && u != "" && Untouched(n, r) && r.db.users == n.db.users
    requires r.db.online == n.db.online - {u} && RowsGo(n.db.membership, r.db.membership, u)
    ensures var q := ApplyAll(m, [LogoutEvent(u)], guest); AgreeTables(r, q) && AgreeRows(r, q)
  {
    var a := LogoutEvent(u);
    var q := ApplyEvent(m, a, guest);
    hide Core, Tidy, AgreeRows, AgreeRooms, AgreeEntries, AgreeMessages, ApplyEvent, ApplyAll, Does, RowsGo;
    AllOne(m, a, guest);
    PeerOutcome(m, a, guest);
    DoesIs(m, q, a, guest);
    GoneAgrees(n, m, r, q, u);
    StillAgree(n, m, r, q);
  }

  lemma LogoutAgrees(n: Node, m: Node, k: Socket, guest: User, other: User)
    requires Twins(n, m) && k in n.sessions && n.sessions[k].auth
    ensures var r, q := Logout(n, k, guest), ApplyAll(m, [LogoutEvent(n.sessions[k].user.name)], other);
            AgreeTables(r, q) && AgreeRows(r, q)
  {
    OwnRoom(n, k);
    hide Twins, Core, Logout, RowsGo, Sits;
    LogoutOutcome(n, k, guest) by { TwinCore(n, m); }
    GoesAgrees(n, m, Logout(n, k, guest), n.sessions[k].user.name, other);
  }

  lemma TwinCore(n: Node, m: Node)
    requires Twins(n, m)
    ensures Core(n) && Core(m) && Tidy(n) && Tidy(m) && AgreeTables(n, m) && AgreeRows(n, m) && n.self != m.self
  {
    hide Core, Tidy, AgreeTables, AgreeRows;
  }

  lemma DropAgrees(n: Node, m: Node, k: Socket, other: User)
    requires Twins(n, m) && k in n.sessions && n.sessions[k].auth
    ensures var r, q := Remove(n, k), ApplyAll(m, [LogoutEvent(n.sessions[k].user.name)], other);
            AgreeTables(r, q) && AgreeRows(r, q)
  {
    OwnRoom(n, k);
    hide Twins, Core, Remove, RowsGo, Sits;
    RemoveOutcome(n, k) by { TwinCore(n, m); }
    GoesAgrees(n, m, Remove(n, k), n.sessions[k].user.name, other);
  }

  /** No event, no change to the tables. */
  lemma QuietAgrees(n: Node, m: Node, r: Node, guest: User)
    requires Twins(n, m) && r.known == n.known && r.db == n.db
    ensures AgreeTables(r, ApplyAll(m, [], guest)) && AgreeRows(r, ApplyAll(m, [], guest))
  {
    hide Core, Tidy, AgreeRooms, AgreeEntries, AgreeMessages, AgreeRows, ApplyAll;
    AllOne(m, LogoutEvent(""), guest);
    StillAgree(n, m, r, m) by { RoomsSelf(n); }
    RowsFrom(n, m, r);
  }

  lemma RoomsSelf(n: Node)
    ensures AgreeRooms(n, n)
  {}

  lemma RowsFrom(n: Node, m: Node, r: Node)
    requires AgreeRows(n, m) && r.known == n.known && r.db.membership == n.db.membership
    ensures AgreeRows(r, m)
  {
    SameRowView(n, r);
    hide RowAt;
  }

  // ---------------------------------------------------------------- entering rooms

  /** A join here that changes entries of public rooms at most; its ROOM_JOIN there. */
  lemma EnterAgrees(n: Node, m: Node, r: Node, k: Socket, name: string, guest: User)
    requires Twins(n, m) && k in n.sessions && n.sessions[k].auth && name in n.known && Enters(n, r, k, name)
    requires forall a, e :: ListedIn(n, a, e) <==> ListedIn(r, a, e)
    requires forall a, e :: MadeIn(n, a, e) <==> MadeIn(r, a, e)
    ensures var q := ApplyAll(m, [RoomJoinEvent(n.sessions[k].user.name, n.self, n.sessions[k].room.name, name)],
                              guest);
            AgreeTables(r, q) && AgreeRows(r, q)
  {
    OwnRoom(n, k);
    var u, from := n.sessions[k].user.name, n.sessions[k].room.name;
    var a := RoomJoinEvent(u, n.self, from, name);
    var q := ApplyEvent(m, a, guest);
    hide Core, Tidy, AgreeRows, AgreeRooms, AgreeEntries, AgreeMessages, ApplyEvent, ApplyAll, Does, Rejoin, Sits,
      RowMoves, ListedIn, MadeIn;
    AllOne(m, a, guest);
    PeerOutcome(m, a, guest);
    DoesIs(m, q, a, guest);
    JoinAgrees(n, m, r, q, u, from, name);
    MovesOnly(m, q, u, n.self, from, name);
    EntriesOver(n, m, r, q);
  }

  lemma MovesOnly(m: Node, q: Node, u: string, node: string, from: string, to: string)
    requires RowMoves(m, q, u, node, from, to)
    ensures Untouched(m, q) && q.db.users == m.db.users && q.db.online == m.db.online && q.sessions == m.sessions
  {}

  lemma EntriesOver(n: Node, m: Node, r: Node, q: Node)
    requires AgreeTables(n, m) && Untouched(m, q) && q.db.users == m.db.users && q.db.online == m.db.online
    requires r.known == n.known && r.db.messages == n.db.messages && r.db.users == n.db.users
    requires r.db.online == n.db.online
    requires forall a, e :: ListedIn(n, a, e) <==> ListedIn(r, a, e)
    requires forall a, e :: MadeIn(n, a, e) <==> MadeIn(r, a, e)
    ensures AgreeTables(r, q)
  {
    SameView(m, q);
    SameView(n, r.(db := r.db.(allow := n.db.allow)));
    hide ListedIn, MadeIn;
    forall x, name ensures MessageIn(r, x, name) <==> MessageIn(q, x, name) {
      assert MessageIn(r, x, name) <==> MessageIn(n, x, name);
    }
  }

  /** An entry that is added on a public room's list, without a creator's rights, is no difference. */
  lemma PublicEntry(n: Node, r: Node, room: Room, email: string)
    requires Core(n) && room.name in n.known && n.known[room.name] == room && !room.private && r.known == n.known
    requires r.db.allow == if (room.id, email) in n.db.allow then n.db.allow else n.db.allow[(room.id, email) := false]
    ensures forall a, e :: ListedIn(n, a, e) <==> ListedIn(r, a, e)
    ensures forall a, e :: MadeIn(n, a, e) <==> MadeIn(r, a, e)
  {
    IdsApart(n);
    hide Core;
  }

  lemma RoomJoinAgrees(n: Node, m: Node, k: Socket, room: string, guest: User)
    requires Twins(n, m) && k in n.sessions && n.sessions[k].auth && EnterOk(n, n.sessions[k], NameOr(room, LOBBY.name))
    ensures var name := NameOr(room, LOBBY.name);
            var q := ApplyAll(m, [RoomJoinEvent(n.sessions[k].user.name, n.self, n.sessions[k].room.name, name)],
                              guest);
            AgreeTables(PacketJoin(n, k, room), q) && AgreeRows(PacketJoin(n, k, room), q)
  {
    var r, name := PacketJoin(n, k, room), NameOr(room, LOBBY.name);
    TwinCore(n, m);
    assert name in n.known;
    hide Twins, Core, Tidy, AgreeTables, AgreeRows, PacketJoin, ApplyAll, Rejoin, Sits, EnterOk;
    JoinOutcome(n, k, room);
    CoreRoom(n, name);
    var to := n.known[name];
    if to.private { SameEntryView(n, r); } else { PublicEntry(n, r, to, n.sessions[k].user.email); }
    EnterAgrees(n, m, r, k, name, guest);
  }

  lemma SameEntryView(n: Node, r: Node)
    requires r.known == n.known && r.db.allow == n.db.allow
    ensures forall a, e :: ListedIn(n, a, e) <==> ListedIn(r, a, e)
    ensures forall a, e :: MadeIn(n, a, e) <==> MadeIn(r, a, e)
  {}

  lemma RoomLeaveAgrees(n: Node, m: Node, k: Socket, guest: User)
    requires Twins(n, m) && k in n.sessions && n.sessions[k].auth
    ensures var q := ApplyAll(m, [RoomJoinEvent(n.sessions[k].user.name, n.self, n.sessions[k].room.name, LOBBY.name)],
                              guest);
            AgreeTables(PacketLeave(n, k), q) && AgreeRows(PacketLeave(n, k), q)
  {
    TwinCore(n, m);
    hide Twins, Core, Tidy, AgreeTables, AgreeRows, PacketLeave, ApplyAll, Rejoin, Sits;
    LeaveOutcome(n, k);
    SameEntryView(n, PacketLeave(n, k));
    EnterAgrees(n, m, PacketLeave(n, k), k, LOBBY.name, guest);
  }

  /** RECONNECT and ROOM_JOIN. */
  lemma ReconnectAgrees(n: Node, m: Node, k: Socket, name: string, room: string, live: set<string>, guest: User,
                        other: User)
    requires Twins(n, m) && k in n.sessions && ReconnectOk(n, name, live)
    ensures name in n.db.users
    ensures var r := Reconnect(n, k, name, room, live, guest);
            var into := ResumeRoom(n, n.db.users[name], room);
            var q := ApplyAll(m, [ReconnectEvent(name, n.self),
                                  RoomJoinEvent(name, n.self, n.sessions[k].room.name, into)], other);
            AgreeTables(r, q) && AgreeRows(r, q)
  {
    ReconnectNamed(n, name, live);
    TwinCore(n, m);
    var u := n.db.users[name];
    var into := ResumeRoom(n, u, room);
    var a, b := ReconnectEvent(name, n.self), RoomJoinEvent(name, n.self, n.sessions[k].room.name, into);
    var r, m1 := Reconnect(n, k, name, room, live, guest), ApplyEvent(m, a, other);
    var q := ApplyEvent(m1, b, other);
    hide *;
    AllTwo(m, a, b, other);
    NameOf(n, name);
    ReconnectOutcome(n, k, name, room, live, guest);
    PeerOutcome(m, a, other);
    DoesIs(m, m1, a, other);
    PeerOutcome(m1, b, other);
    DoesIs(m1, q, b, other);
    ResumesThere(n, m, r, m1, q, k, u, into, other);
  }

  lemma ResumesThere(n: Node, m: Node, r: Node, m1: Node, q: Node, k: Socket, u: User, into: string, other: User)
    requires Core(n) && Core(m) && Core(m1) && AgreeTables(n, m) && AgreeRows(n, m) && k in n.sessions
    requires into in n.known
    requires Resumes(n, r, k, u, into) && u.name in n.db.users && u.name != ""
    requires TakenOver(m, m1, u.name, n.self, other) && RowMoves(m1, q, u.name, n.self, n.sessions[k].room.name, into)
    ensures AgreeTables(r, q) && AgreeRows(r, q)
  {
    hide *;
    OwnRoom(n, k);
    CoreRoom(n, into);
    TablesParts(n, m);
    ResumesParts(n, r, k, u, into);
    TakenParts(m, m1, u.name, n.self, other);
    var moved := n.(db := n.db.(membership := map x | x in n.db.membership ::
                                if x.0 == u.name then n.self else n.db.membership[x]));
    TablesCore(n, moved);
    TakenRows(n, m, moved, m1, u.name, n.self);
    RoomsOver(n, m, m1);
    RoomsBack(n, m1, moved);
    JoinAgrees(moved, m1, r, q, u.name, n.sessions[k].room.name, into);
    MovesOnly(m1, q, u.name, n.self, n.sessions[k].room.name, into);
    var to := n.known[into];
    if to.private || into == LOBBY.name { SameEntryView(n, r); } else { PublicEntry(n, r, to, u.email); }
    UntouchedTrans(m, m1, q);
    TakenEntries(n, m, r, q, u.name);
  }

  lemma TablesParts(n: Node, m: Node)
    requires AgreeTables(n, m)
    ensures n.db.users == m.db.users && n.db.online == m.db.online && AgreeRooms(n, m) && AgreeEntries(n, m)
    ensures AgreeMessages(n, m)
  {
    hide AgreeRooms, AgreeEntries, AgreeMessages;
  }

  lemma UntouchedTrans(a: Node, b: Node, c: Node)
    requires Untouched(a, b) && Untouched(b, c)
    ensures Untouched(a, c)
  {}

  lemma ResumesParts(n: Node, r: Node, k: Socket, u: User, into: string)
    requires k in n.sessions && into in n.known && Resumes(n, r, k, u, into)
    ensures r.known == n.known && r.db.users == n.db.users && r.db.messages == n.db.messages
    ensures r.db.online == n.db.online[u.name := n.self]
    ensures r.db.membership
            == Rejoin((map x | x in n.db.membership :: if x.0 == u.name then n.self else n.db.membership[x]),
                                      u.name, n.sessions[k].room.id, n.known[into].id, n.self)
    ensures r.db.allow == if into == LOBBY.name || n.known[into].private || (n.known[into].id, u.email) in n.db.allow
                          then n.db.allow else n.db.allow[(n.known[into].id, u.email) := false]
  {
    hide Sits, Rejoin;
  }

  lemma TakenParts(m: Node, q: Node, u: string, node: string, guest: User)
    requires TakenOver(m, q, u, node, guest) && u != "" && node != ""
    ensures Untouched(m, q) && q.db.users == m.db.users && q.db.online == m.db.online[u := node]
    ensures q.known == m.known
    ensures q.db.membership == map x | x in m.db.membership :: if x.0 == u then node else m.db.membership[x]
  {
    hide Sits;
  }

  lemma TakenEntries(n: Node, m: Node, r: Node, q: Node, u: string)
    requires AgreeTables(n, m) && Untouched(m, q) && q.db.users == m.db.users && q.db.online == m.db.online[u := n.self]
    requires r.known == n.known && r.db.messages == n.db.messages && r.db.users == n.db.users
    requires r.db.online == n.db.online[u := n.self]
    requires forall a, e :: ListedIn(n, a, e) <==> ListedIn(r, a, e)
    requires forall a, e :: MadeIn(n, a, e) <==> MadeIn(r, a, e)
    ensures AgreeTables(r, q)
  {
    EntriesOver(n, m, r.(db := r.db.(online := n.db.online)), q.(db := q.db.(online := m.db.online))) by {
      SameEntryView(r, r.(db := r.db.(online := n.db.online)));
    }
    hide AgreeRooms, AgreeEntries, AgreeMessages;
    EntriesBack(r.(db := r.db.(online := n.db.online)), q.(db := q.db.(online := m.db.online)), r, q);
  }

  lemma EntriesBack(r0: Node, q0: Node, r: Node, q: Node)
    requires AgreeTables(r0, q0) && Untouched(r0, r) && Untouched(q0, q)
    requires r.db.users == q.db.users && r.db.online == q.db.online
    ensures AgreeTables(r, q)
  {
    SameView(r0, r);
    SameView(q0, q);
    hide ListedIn, MadeIn, MessageIn;
  }

  lemma TakenRows(n: Node, m: Node, r: Node, q: Node, u: string, node: string)
    requires AgreeRows(n, m) && r.known == n.known && q.known == m.known
    requires r.db.membership == map x | x in n.db.membership :: if x.0 == u then node else n.db.membership[x]
    requires q.db.membership == map x | x in m.db.membership :: if x.0 == u then node else m.db.membership[x]
    ensures AgreeRows(r, q)
  {
    TakenAt(n, r, u, node);
    TakenAt(m, q, u, node);
    hide RowAt;
  }

  lemma RoomsBack(n: Node, m: Node, r: Node)
    requires AgreeRooms(n, m) && r.known == n.known
    ensures AgreeRooms(r, m)
  {}

  // ---------------------------------------------------------------- messages

  lemma MessageAgrees(n: Node, m: Node, k: Socket, id: string, text: string, guest: User)
    requires Twins(n, m) && k in n.sessions && n.sessions[k].auth && text != ""
    ensures var q := ApplyAll(m, [MessageEvent(id, n.sessions[k].user.name, n.sessions[k].room.name)], guest);
            AgreeTables(SendMessage(n, k, id, text), q) && AgreeRows(SendMessage(n, k, id, text), q)
  {
    var r, a := SendMessage(n, k, id, text), MessageEvent(id, n.sessions[k].user.name, n.sessions[k].room.name);
    var q, name := ApplyEvent(m, a, guest), n.sessions[k].room.name;
    TwinCore(n, m);
    hide Twins, Core, Tidy, AgreeRows, AgreeEntries, AgreeMessages, ApplyEvent, ApplyAll, Does, SendMessage;
    AllOne(m, a, guest);
    OwnRoom(n, k);
    CoreRoom(n, name);
    MessageOutcome(n, k, id, text);
    PeerOutcome(m, a, guest);
    DoesIs(m, q, a, guest);
    RowsFrom(n, m, r);
    AgreeOver(r, m, q);
    SameKeys(n, m);
    if id !in n.db.messages {
      PostedAgrees(n, m, r, q, id, name);
    } else {
      assert r == n && q == m;
    }
  }

  lemma SameKeys(n: Node, m: Node)
    requires AgreeMessages(n, m)
    ensures n.db.messages.Keys == m.db.messages.Keys
  {}

  lemma PostedAgrees(n: Node, m: Node, r: Node, q: Node, id: string, name: string)
    requires Core(n) && Core(m) && AgreeTables(n, m) && name in n.known && name in m.known
    requires r.known == n.known && r.db == n.db.(messages := n.db.messages[id := n.known[name].id])
    requires q.known == m.known && q.db == m.db.(messages := m.db.messages[id := m.known[name].id])
    ensures AgreeTables(r, q)
  {
    PostedAt(n, r, id, name);
    PostedAt(m, q, id, name);
    SameEntryView(n, r);
    SameEntryView(m, q);
    hide ListedIn, MadeIn, MessageIn, Core;
  }

  lemma PostedAt(n: Node, r: Node, id: string, name: string)
    requires Core(n) && name in n.known && r.known == n.known && r.db.messages == n.db.messages[id := n.known[name].id]
    ensures forall x, a :: MessageIn(r, x, a) <==> if x == id then a == name else MessageIn(n, x, a)
  {
    IdsApart(n);
    hide Core;
  }

  // ---------------------------------------------------------------- rooms and lists

  /** A new room, as others see it: nobody's row, no message, and an entry for its creator alone. */
  lemma CreatedAt(n: Node, r: Node, name: string, private: bool, email: string)
    requires Core(n) && Tidy(n) && name !in n.known && Creates(n, r, name, private, email)
    ensures r.known.Keys == n.known.Keys + {name} && r.known[name].private == private
    ensures forall a :: a in n.known ==> r.known[a] == n.known[a]
    ensures forall u, a :: RowAt(r, u, a) == if a == name then None else RowAt(n, u, a)
    ensures forall x, a :: MessageIn(r, x, a) <==> a != name && MessageIn(n, x, a)
    ensures forall a, e :: ListedIn(r, a, e) <==>
            if a == name then private && email != "" && e == email else ListedIn(n, a, e)
    ensures forall a, e :: MadeIn(r, a, e) <==> if a == name then email != "" && e == email else MadeIn(n, a, e)
  {
    var id := n.db.nextRoom;
    assert id !in n.db.rooms by { CoreIndex(n); }
    forall a | a in n.known ensures n.known[a].id in n.db.rooms && n.known[a].id != id { CoreRoom(n, a); }
    hide Core;
  }

  lemma CreatesAgrees(n: Node, m: Node, r: Node, q: Node, name: string, private: bool, email: string)
    requires Core(n) && Tidy(n) && Core(m) && Tidy(m) && AgreeTables(n, m) && AgreeRows(n, m)
    requires name !in n.known && name !in m.known && Creates(n, r, name, private, email)
    requires Creates(m, q, name, private, email)
    ensures AgreeTables(r, q) && AgreeRows(r, q)
  {
    CreatedAt(n, r, name, private, email);
    CreatedAt(m, q, name, private, email);
    CreatesKeeps(n, r, name, private, email);
    CreatesKeeps(m, q, name, private, email);
    hide Core, Tidy, RowAt, MessageIn, ListedIn, MadeIn, Creates, AgreeTables;
    forall u, a ensures RowAt(r, u, a) == RowAt(q, u, a) { assert RowAt(n, u, a) == RowAt(m, u, a); }
    TablesParts(n, m);
    hide AgreeRows;
    CreatedTables(n, m, r, q, name, private, email);
  }

  lemma CreatesKeeps(n: Node, r: Node, name: string, private: bool, email: string)
    requires Creates(n, r, name, private, email)
    ensures r.db.messages == n.db.messages && r.db.users == n.db.users && r.db.online == n.db.online
  {}

  lemma CreatedTables(n: Node, m: Node, r: Node, q: Node, name: string, private: bool, email: string)
    requires AgreeTables(n, m) && name !in n.known && name !in m.known
    requires r.db.messages == n.db.messages && r.db.users == n.db.users && r.db.online == n.db.online
    requires q.db.messages == m.db.messages && q.db.users == m.db.users && q.db.online == m.db.online
    requires r.known.Keys == n.known.Keys + {name} && r.known[name].private == private
    requires q.known.Keys == m.known.Keys + {name} && q.known[name].private == private
    requires forall a :: a in n.known ==> r.known[a] == n.known[a]
    requires forall a :: a in m.known ==> q.known[a] == m.known[a]
    requires forall x, a :: MessageIn(r, x, a) <==> a != name && MessageIn(n, x, a)
    requires forall x, a :: MessageIn(q, x, a) <==> a != name && MessageIn(m, x, a)
    requires forall a, e :: ListedIn(r, a, e) <==>
             if a == name then private && email != "" && e == email else ListedIn(n, a, e)
    requires forall a, e :: ListedIn(q, a, e) <==>
             if a == name then private && email != "" && e == email else ListedIn(m, a, e)
    requires forall a, e :: MadeIn(r, a, e) <==> if a == name then email != "" && e == email else MadeIn(n, a, e)
    requires forall a, e :: MadeIn(q, a, e) <==> if a == name then email != "" && e == email else MadeIn(m, a, e)
    ensures AgreeTables(r, q)
  {
    hide MessageIn, ListedIn, MadeIn;
  }

  lemma CreateAgrees(n: Node, m: Node, k: Socket, name: string, private: bool, guest: User)
    requires Twins(n, m) && k in n.sessions && n.sessions[k].auth && name != "" && name !in n.known
    requires name !in n.db.rooms.Values
    ensures var q := ApplyAll(m, [RoomCreatedEvent(n.sessions[k].user.name, name, private)], guest);
            AgreeTables(PacketCreate(n, k, name, private), q) && AgreeRows(PacketCreate(n, k, name, private), q)
  {
    var u, r := n.sessions[k].user, PacketCreate(n, k, name, private);
    var a := RoomCreatedEvent(u.name, name, private);
    var q := ApplyEvent(m, a, guest);
    TwinCore(n, m);
    TablesParts(n, m);
    RoomKeys(n, m);
    FreeThere(m, name);
    hide Twins, Core, Tidy, AgreeTables, AgreeRows, AgreeRooms, AgreeEntries, AgreeMessages, ApplyEvent, ApplyAll, Does,
      PacketCreate, Creates;
    OwnRoom(n, k);
    AllOne(m, a, guest);
    CreateOutcome(n, k, name, private);
    PeerOutcome(m, a, guest);
    DoesIs(m, q, a, guest);
    CreatesAgrees(n, m, r, q, name, private, u.email);
  }

  lemma RoomKeys(n: Node, m: Node)
    requires AgreeRooms(n, m)
    ensures n.known.Keys == m.known.Keys
  {}

  lemma FreeThere(m: Node, name: string)
    requires Tidy(m) && name !in m.known
    ensures name !in m.db.rooms.Values
  {
    forall id | id in m.db.rooms ensures m.db.rooms[id] != name { assert KnownRoom(m, id); }
  }

  lemma InvitedAt(n: Node, r: Node, name: string, email: string)
    requires Core(n) && name in n.known && r.known == n.known
    requires var x := (n.known[name].id, email); r.db.allow == if x in n.db.allow then n.db.allow
             else n.db.allow[x := false]
    ensures forall a, e :: ListedIn(r, a, e) <==>
            ListedIn(n, a, e) || (a == name && e == email && n.known[name].private)
    ensures forall a, e :: MadeIn(r, a, e) <==> MadeIn(n, a, e)
  {
    IdsApart(n);
    hide Core;
  }

  lemma InviteAgrees(n: Node, m: Node, k: Socket, room: string, invitee: string, guest: User)
    requires Twins(n, m) && k in n.sessions
    requires InviteOk(n, n.sessions[k], NameOr(room, n.sessions[k].room.name), invitee)
    ensures var q := ApplyAll(m, [AclAddEvent(invitee, NameOr(room, n.sessions[k].room.name), false)], guest);
            AgreeTables(PacketInvite(n, k, room, invitee), q) && AgreeRows(PacketInvite(n, k, room, invitee), q)
  {
    var r, name := PacketInvite(n, k, room, invitee), NameOr(room, n.sessions[k].room.name);
    var a := AclAddEvent(invitee, name, false);
    var q := ApplyEvent(m, a, guest);
    InviteNamed(n, k, name, invitee);
    TwinCore(n, m);
    hide *;
    AllOne(m, a, guest);
    InviteOutcome(n, k, room, invitee);
    PeerOutcome(m, a, guest);
    DoesIs(m, q, a, guest);
    InvitedBoth(n, m, r, q, name, invitee);
  }

  lemma InviteNamed(n: Node, k: Socket, name: string, invitee: string)
    requires k in n.sessions && InviteOk(n, n.sessions[k], name, invitee)
    ensures name in n.known && invitee in n.db.users
  {}

  lemma InvitedBoth(n: Node, m: Node, r: Node, q: Node, name: string, invitee: string)
    requires Core(n) && Core(m) && AgreeTables(n, m) && AgreeRows(n, m) && name in n.known && invitee in n.db.users
    requires var x := (n.known[name].id, n.db.users[invitee].email);
             r == n.(db := n.db.(allow := if x in n.db.allow then n.db.allow else n.db.allow[x := false]))
    requires IsListed(m, q, invitee, name, false)
    ensures AgreeTables(r, q) && AgreeRows(r, q)
  {
    var email := n.db.users[invitee].email;
    TablesParts(n, m);
    RoomKeys(n, m);
    hide Core, AgreeTables, AgreeRows, AgreeRooms, AgreeEntries, AgreeMessages;
    InvitedAt(n, r, name, email);
    InvitedAt(m, q, name, email);
    RowsFrom(n, m, r);
    AgreeOver(r, m, q);
    EntriesBoth(n, m, r, q, name, email);
  }

  lemma EntriesBoth(n: Node, m: Node, r: Node, q: Node, name: string, email: string)
    requires AgreeTables(n, m) && name in n.known && name in m.known
    requires r.known == n.known && r.db.messages == n.db.messages && r.db.users == n.db.users
    requires r.db.online == n.db.online
    requires q.known == m.known && q.db.messages == m.db.messages && q.db.users == m.db.users
    requires q.db.online == m.db.online
    requires forall a, e :: ListedIn(r, a, e) <==>
             ListedIn(n, a, e) || (a == name && e == email && n.known[name].private)
    requires forall a, e :: ListedIn(q, a, e) <==>
             ListedIn(m, a, e) || (a == name && e == email && m.known[name].private)
    requires forall a, e :: MadeIn(r, a, e) <==> MadeIn(n, a, e)
    requires forall a, e :: MadeIn(q, a, e) <==> MadeIn(m, a, e)
    ensures AgreeTables(r, q)
  {
    hide ListedIn, MadeIn;
    forall x, b ensures MessageIn(r, x, b) <==> MessageIn(q, x, b) {
      assert (MessageIn(r, x, b) <==> MessageIn(n, x, b)) && (MessageIn(q, x, b) <==> MessageIn(m, x, b));
    }
  }

  // ---------------------------------------------------------------- deleting a room

  /** What a deletion leaves, as others see it. */
  lemma DeletedAt(n: Node, r: Node, name: string)
    requires Core(n) && name in n.known && name != LOBBY.name && Deletes(n, r, name)
    ensures r.known == n.known - {name} && r.db.users == n.db.users && r.db.online == n.db.online
    ensures forall u, a :: RowAt(r, u, a) == if a == name then None
                                             else if a == LOBBY.name && SitsAs(n, name, u) then Some(n.self)
                                               else RowAt(n, u, a)
    ensures forall x, a :: MessageIn(r, x, a) <==> a != name && MessageIn(n, x, a)
    ensures forall x :: x in r.db.messages <==> x in n.db.messages && !MessageIn(n, x, name)
    ensures forall a, e :: ListedIn(r, a, e) <==> a != name && ListedIn(n, a, e)
    ensures forall a, e :: MadeIn(r, a, e) <==> a != name && MadeIn(n, a, e)
  {
    IdsApart(n);
    CoreKnown(n);
    hide Core, SitsAs, Sits;
    DeletedEntries(n, r, name);
    DeletedRows(n, r, name);
  }

  lemma DeletedEntries(n: Node, r: Node, name: string)
    requires name in n.known && Deletes(n, r, name)
    requires forall a, b :: a in n.known && b in n.known && n.known[a].id == n.known[b].id ==> a == b
    ensures forall a, e :: ListedIn(r, a, e) <==> a != name && ListedIn(n, a, e)
    ensures forall a, e :: MadeIn(r, a, e) <==> a != name && MadeIn(n, a, e)
  {
    hide SitsAs, Sits;
  }

  lemma DeletedRows(n: Node, r: Node, name: string)
    requires name in n.known && name != LOBBY.name && KnownOk(n.known) && Deletes(n, r, name)
    requires forall a, b :: a in n.known && b in n.known && n.known[a].id == n.known[b].id ==> a == b
    ensures forall u, a :: RowAt(r, u, a) == if a == name then None
                                             else if a == LOBBY.name && SitsAs(n, name, u) then Some(n.self)
                                               else RowAt(n, u, a)
  {
    hide SitsAs, Sits;
    forall u, a ensures RowAt(r, u, a) == if a == name then None
                                          else if a == LOBBY.name && SitsAs(n, name, u) then Some(n.self)
                                            else RowAt(n, u, a)
    {
      if a in r.known {
        var x := (u, r.known[a].id);
        assert x in r.db.membership <==>
               (x in n.db.membership && x.1 != n.known[name].id) || (x.1 == LOBBY.id && SitsAs(n, name, x.0));
      }
    }
  }

  /** The Lobby rows that a node gives to those who sat in the room are rumored to nobody; so rows agree exactly when
      they were there already. */
  ghost predicate EvictedFollow(n: Node, m: Node, name: string)
  {
    && (forall u :: SitsAs(n, name, u) ==> RowAt(n, u, LOBBY.name) == Some(n.self))
    && (forall u :: SitsAs(m, name, u) ==> RowAt(m, u, LOBBY.name) == Some(m.self))
  }

  lemma DeletesAgree(n: Node, m: Node, r: Node, q: Node, name: string)
    requires Core(n) && Core(m) && AgreeTables(n, m) && AgreeRows(n, m) && n.self != m.self
    requires name in n.known && name in m.known && name != LOBBY.name && Deletes(n, r, name) && Deletes(m, q, name)
    ensures AgreeTables(r, q) && (AgreeRows(r, q) <==> EvictedFollow(n, m, name))
  {
    hide *;
    TablesParts(n, m);
    DeletedAt(n, r, name);
    DeletedAt(m, q, name);
    LobbyKnown(n);
    DeletedTables(n, m, r, q, name);
    DeletedAgree(n, m, r, q, name);
  }

  lemma DeletedTables(n: Node, m: Node, r: Node, q: Node, name: string)
    requires AgreeTables(n, m) && r.known == n.known - {name} && q.known == m.known - {name}
    requires r.db.users == n.db.users && r.db.online == n.db.online && q.db.users == m.db.users
    requires q.db.online == m.db.online
    requires forall x, a :: MessageIn(r, x, a) <==> a != name && MessageIn(n, x, a)
    requires forall x, a :: MessageIn(q, x, a) <==> a != name && MessageIn(m, x, a)
    requires forall x :: x in r.db.messages <==> x in n.db.messages && !MessageIn(n, x, name)
    requires forall x :: x in q.db.messages <==> x in m.db.messages && !MessageIn(m, x, name)
    requires forall a, e :: ListedIn(r, a, e) <==> a != name && ListedIn(n, a, e)
    requires forall a, e :: ListedIn(q, a, e) <==> a != name && ListedIn(m, a, e)
    requires forall a, e :: MadeIn(r, a, e) <==> a != name && MadeIn(n, a, e)
    requires forall a, e :: MadeIn(q, a, e) <==> a != name && MadeIn(m, a, e)
    ensures AgreeTables(r, q)
  {
    hide MessageIn, ListedIn, MadeIn;
    forall x ensures x in r.db.messages <==> x in q.db.messages {
      assert MessageIn(n, x, name) <==> MessageIn(m, x, name);
    }
  }

  lemma DeletedAgree(n: Node, m: Node, r: Node, q: Node, name: string)
    requires AgreeRows(n, m) && n.self != m.self && name != LOBBY.name
    requires forall u, a :: RowAt(r, u, a) == if a == name then None
                              else if a == LOBBY.name && SitsAs(n, name, u) then Some(n.self) else RowAt(n, u, a)
    requires forall u, a :: RowAt(q, u, a) == if a == name then None
                              else if a == LOBBY.name && SitsAs(m, name, u) then Some(m.self) else RowAt(m, u, a)
    ensures AgreeRows(r, q) <==> EvictedFollow(n, m, name)
  {
    hide RowAt, SitsAs;
    if AgreeRows(r, q) {
      forall u ensures SitsAs(n, name, u) ==> RowAt(n, u, LOBBY.name) == Some(n.self)
               ensures SitsAs(m, name, u) ==> RowAt(m, u, LOBBY.name) == Some(m.self)
      {
        assert RowAt(r, u, LOBBY.name) == RowAt(q, u, LOBBY.name) && RowAt(n, u, LOBBY.name) == RowAt(m, u, LOBBY.name);
      }
    }
    if EvictedFollow(n, m, name) {
      forall u, a ensures RowAt(r, u, a) == RowAt(q, u, a) { assert RowAt(n, u, a) == RowAt(m, u, a); }
    }
  }

  lemma LobbyKnown(n: Node)
    requires Core(n)
    ensures LOBBY.name in n.known
  {
    CoreIndex(n);
    hide Core;
  }

  lemma DeleteAgrees(n: Node, m: Node, k: Socket, room: string, guest: User)
    requires Twins(n, m) && k in n.sessions && DeleteOk(n, n.sessions[k], NameOr(room, n.sessions[k].room.name))
    ensures var r, name := PacketDelete(n, k, room), NameOr(room, n.sessions[k].room.name);
            var q := ApplyAll(m, [RoomDeletedEvent(name)], guest);
            AgreeTables(r, q) && (AgreeRows(r, q) <==> EvictedFollow(n, m, name))
  {
    var r, name := PacketDelete(n, k, room), NameOr(room, n.sessions[k].room.name);
    var a := RoomDeletedEvent(name);
    var q := ApplyEvent(m, a, guest);
    TwinCore(n, m);
    TablesParts(n, m);
    RoomKeys(n, m);
    hide Twins, Core, Tidy, AgreeTables, AgreeRows, AgreeRooms, AgreeEntries, AgreeMessages, ApplyEvent, ApplyAll, Does,
      PacketDelete, Deletes, EvictedFollow;
    AllOne(m, a, guest);
    DeleteOutcome(n, k, room);
    PeerOutcome(m, a, guest);
    DoesIs(m, q, a, guest);
    DeletesAgree(n, m, r, q, name);
  }

  // ---------------------------------------------------------------- kicking

  /** A node that puts the user into the Lobby itself rumors nothing about it; so rows agree exactly when the user sat
      nowhere there, or had that row already and the other node moved nobody. */
  ghost predicate KickFollows(n: Node, m: Node, name: string, target: string)
  {
    || !SitsAs(m, name, target)
    || (!SitsAs(n, name, target) && RowAt(m, target, name) == None && RowAt(m, target, LOBBY.name) == Some(m.self))
  }

  lemma CutAt(n: Node, r: Node, name: string, email: string)
    requires Core(n) && name in n.known && r.known == n.known && r.db.allow == n.db.allow - {(n.known[name].id, email)}
    ensures forall a, e :: ListedIn(r, a, e) <==> ListedIn(n, a, e) && !(a == name && e == email)
    ensures forall a, e :: MadeIn(r, a, e) <==> MadeIn(n, a, e) && !(a == name && e == email)
  {
    IdsApart(n);
    hide Core;
  }

  /** The tables after a kick on both sides, rows aside. */
  lemma CutAgrees(n: Node, m: Node, r: Node, q: Node, name: string, email: string)
    requires Core(n) && Core(m) && AgreeTables(n, m) && name in n.known && name in m.known
    requires r.known == n.known && r.db.allow == n.db.allow - {(n.known[name].id, email)}
    requires q.known == m.known && q.db.allow == m.db.allow - {(m.known[name].id, email)}
    requires r.db.messages == n.db.messages && r.db.users == n.db.users && r.db.online == n.db.online
    requires q.db.messages == m.db.messages && q.db.users == m.db.users && q.db.online == m.db.online
    ensures AgreeTables(r, q)
  {
    CutAt(n, r, name, email);
    CutAt(m, q, name, email);
    hide ListedIn, MadeIn, Core;
    forall x, b ensures MessageIn(r, x, b) <==> MessageIn(q, x, b) {
      assert (MessageIn(r, x, b) <==> MessageIn(n, x, b)) && (MessageIn(q, x, b) <==> MessageIn(m, x, b));
    }
  }

  /** Entering the Lobby from the room, as others see it. */
  lemma EntersAt(n: Node, r: Node, k: Socket, name: string, u: string)
    requires Core(n) && k in n.sessions && SatIn(n.sessions[k], name, u) && LOBBY.name in n.known
    requires Enters(n, r, k, LOBBY.name)
    ensures name in n.known && r.known == n.known && r.db.users == n.db.users && r.db.online == n.db.online
    ensures r.db.messages == n.db.messages
    ensures r.db.membership == Rejoin(n.db.membership, u, n.known[name].id, n.known[LOBBY.name].id, n.self)
    ensures forall v, a :: RowAt(r, v, a) == Shift(RowAt(n, v, a), v, a, u, name, LOBBY.name, n.self)
  {
    OwnRoom(n, k);
    hide Core, Sits, Rejoin, RowAt;
    RejoinAt(n, r, u, name, LOBBY.name, n.self);
  }

  /** What a ROOM_KICK event leaves, as others see it. */
  lemma LeftAt(m: Node, q: Node, u: string, name: string)
    requires Core(m) && name in m.known && u in m.db.users && u != "" && Leaves(m, q, u, name)
    ensures q.known == m.known && q.db.users == m.db.users && q.db.online == m.db.online
    ensures q.db.messages == m.db.messages
    ensures q.db.allow == m.db.allow - {(m.known[name].id, m.db.users[u].email)}
    ensures forall v, a :: RowAt(q, v, a) == if SitsAs(m, name, u)
            then Shift(RowAt(m, v, a), v, a, u, name, LOBBY.name, m.self)
                                             else RowAt(m, v, a)
  {
    var cut := Unlisted(m, m.known[name].id, m.db.users[u].email);
    TablesCore(m, cut);
    SameRowView(m, cut);
    hide Core, Enters, RowAt, SatIn;
    if SitsAs(m, name, u) {
      var j :| j in m.sessions && SatIn(m.sessions[j], name, u);
      EntersAt(cut, q, j, name, u);
    }
  }

  lemma FoundSits(n: Node, target: string, name: string, found: Socket)
    requires Core(n) && (LoggedInAs(n, target) == {} || found in LoggedInAs(n, target))
    ensures SitsAs(n, name, target) <==> found in n.sessions && SatIn(n.sessions[found], name, target)
    ensures found in InRoomAs(n, target, name) <==> SitsAs(n, name, target)
  {
    AtMostOne(n, target);
    hide Core;
    if j :| j in n.sessions && SatIn(n.sessions[j], name, target) { assert j in LoggedInAs(n, target); }
  }

  lemma ShiftAgain(m: Node, q: Node, u: string, name: string)
    requires name != LOBBY.name
    requires forall v, a :: RowAt(q, v, a) == Shift(RowAt(m, v, a), v, a, u, name, LOBBY.name, m.self)
    ensures AgreeRows(m, q) <==> RowAt(m, u, name) == None && RowAt(m, u, LOBBY.name) == Some(m.self)
  {
    hide RowAt;
    if AgreeRows(m, q) {
      assert RowAt(m, u, name) == RowAt(q, u, name) && RowAt(m, u, LOBBY.name) == RowAt(q, u, LOBBY.name);
    }
  }

  /** Nobody was moved here: only the event goes out. */
  lemma KickWithout(n: Node, m: Node, r: Node, q: Node, name: string, target: string)
    requires Core(n) && Core(m) && AgreeTables(n, m) && AgreeRows(n, m) && name in n.known && name in m.known
    requires target in n.db.users && target != "" && name != LOBBY.name && !SitsAs(n, name, target)
    requires r == Unlisted(n, n.known[name].id, n.db.users[target].email) && Leaves(m, q, target, name)
    ensures AgreeTables(r, q) && (AgreeRows(r, q) <==> KickFollows(n, m, name, target))
  {
    TablesParts(n, m);
    LeftAt(m, q, target, name);
    hide Core, Leaves, AgreeTables, AgreeRows, RowAt, AgreeRooms, AgreeEntries, AgreeMessages, SitsAs;
    CutAgrees(n, m, r, q, name, n.db.users[target].email);
    SameRowView(n, r);
    if SitsAs(m, name, target) {
      ShiftAgain(m, q, target, name);
    }
    RowsChain(n, m, r, q);
    RowsSelf(m, q);
  }

  lemma RowsChain(n: Node, m: Node, r: Node, q: Node)
    requires AgreeRows(n, m) && forall u, a :: RowAt(n, u, a) == RowAt(r, u, a)
    ensures AgreeRows(r, q) <==> AgreeRows(m, q)
  {
    hide RowAt;
  }

  lemma RowsSelf(m: Node, q: Node)
    ensures (forall u, a :: RowAt(q, u, a) == RowAt(m, u, a)) <==> AgreeRows(m, q)
  {
    hide RowAt;
  }

  /** The user sat here and was moved: ROOM_JOIN goes out before ROOM_KICK. */
  lemma KickWith(n: Node, m: Node, r: Node, m1: Node, q: Node, name: string, target: string, found: Socket)
    requires Core(n) && Core(m) && Core(m1) && AgreeTables(n, m) && AgreeRows(n, m) && name in n.known
    requires name in m.known
    requires n.self != m.self && target in n.db.users && target != "" && name != LOBBY.name
    requires found in n.sessions && SatIn(n.sessions[found], name, target) && LOBBY.name in n.known
    requires var cut := Unlisted(n, n.known[name].id, n.db.users[target].email);
             found in cut.sessions && LOBBY.name in cut.known && Enters(cut, r, found, LOBBY.name)
               && r.db.allow == cut.db.allow
    requires RowMoves(m, m1, target, n.self, name, LOBBY.name) && Leaves(m1, q, target, name)
    ensures AgreeTables(r, q) && (AgreeRows(r, q) <==> !SitsAs(m, name, target))
  {
    TablesParts(n, m);
    var email := n.db.users[target].email;
    var cut := Unlisted(n, n.known[name].id, email);
    TablesCore(n, cut);
    hide Core, AgreeTables, AgreeRows, RowAt, AgreeRooms, AgreeEntries, AgreeMessages, SitsAs, SatIn, Enters, Leaves,
      RowMoves, Rejoin;
    EntersAt(cut, r, found, name, target);
    RoomsBack(n, m, cut);
    RowsFrom(n, m, cut);
    JoinAgrees(cut, m, r, m1, target, name, LOBBY.name);
    MovesOnly(m, m1, target, n.self, name, LOBBY.name);
    LeftAt(m1, q, target, name);
    CutAgrees(n, m, r, q, name, email);
    SitsSame(m, m1, name, target);
    JoinedRow(cut, r, m1, name, target);
    RowsRight(r, m1, q);
    if SitsAs(m, name, target) { ShiftAgain(m1, q, target, name); } else { RowsSelf(m1, q); }
  }

  lemma SitsSame(m: Node, q: Node, name: string, u: string)
    requires q.sessions == m.sessions
    ensures SitsAs(q, name, u) <==> SitsAs(m, name, u)
  {}

  lemma JoinedRow(n: Node, r: Node, m1: Node, name: string, u: string)
    requires AgreeRows(r, m1)
    requires forall v, a :: RowAt(r, v, a) == Shift(RowAt(n, v, a), v, a, u, name, LOBBY.name, n.self)
    ensures RowAt(m1, u, LOBBY.name) == Some(n.self)
  {
    hide RowAt;
    assert RowAt(r, u, LOBBY.name) == RowAt(m1, u, LOBBY.name);
  }

  lemma RowsRight(r: Node, m: Node, q: Node)
    requires AgreeRows(r, m)
    ensures AgreeRows(r, q) <==> AgreeRows(m, q)
  {
    hide RowAt;
  }

  lemma KickAgrees(n: Node, m: Node, k: Socket, room: string, target: string, found: Socket, guest: User)
    requires Twins(n, m) && k in n.sessions && KickOk(n, n.sessions[k], NameOr(room, n.sessions[k].room.name), target)
    requires LoggedInAs(n, target) == {} || found in LoggedInAs(n, target)
    ensures var r, name := PacketKick(n, k, room, target, found), NameOr(room, n.sessions[k].room.name);
            var moved := if found in InRoomAs(n, target, name) then [RoomJoinEvent(target, n.self, name, LOBBY.name)]
                else [];
            var q := ApplyAll(m, moved + [KickEvent(target, name)], guest);
            AgreeTables(r, q) && (AgreeRows(r, q) <==> KickFollows(n, m, name, target))
  {
    var name := NameOr(room, n.sessions[k].room.name);
    KickTerms(n, k, name, target);
    TwinCore(n, m);
    hide *;
    FoundSits(n, target, name, found);
    FollowsIs(n, m, name, target);
    if found in InRoomAs(n, target, name) {
      KickMoves(n, m, k, room, target, found, guest);
    } else {
      KickStays(n, m, k, room, target, found, guest);
    }
  }

  /** The facts about both nodes that a granted kick starts from. */
  lemma KickSetup(n: Node, m: Node, k: Socket, name: string, target: string)
    requires Twins(n, m) && k in n.sessions && KickOk(n, n.sessions[k], name, target)
    ensures Core(n) && Core(m) && AgreeTables(n, m) && AgreeRows(n, m) && n.self != m.self
    ensures name in n.known && name in m.known && LOBBY.name in n.known && name != LOBBY.name
    ensures target in n.db.users && target in m.db.users && target != ""
  {
    KickTerms(n, k, name, target);
    TwinCore(n, m);
    TablesParts(n, m);
    RoomKeys(n, m);
    hide *;
  }

  /** The ROOM_JOIN and the ROOM_KICK of a kick, one after the other. */
  lemma KickMovedThere(m: Node, target: string, node: string, name: string, guest: User) returns (m1: Node)
    requires Core(m)
    ensures Core(m1) && RowMoves(m, m1, target, node, name, LOBBY.name)
    ensures Leaves(m1, ApplyAll(m, [RoomJoinEvent(target, node, name, LOBBY.name)] + [KickEvent(target, name)], guest),
                   target,
                   name)
  {
    var a, b := RoomJoinEvent(target, node, name, LOBBY.name), KickEvent(target, name);
    assert [a] + [b] == [a, b];
    hide *;
    m1 := ApplyEvent(m, a, guest);
    AllTwo(m, a, b, guest);
    PeerOutcome(m, a, guest);
    DoesIs(m, m1, a, guest);
    PeerOutcome(m1, b, guest);
    DoesIs(m1, ApplyEvent(m1, b, guest), b, guest);
  }

  lemma KickThere(m: Node, target: string, name: string, guest: User)
    requires Core(m)
    ensures Leaves(m, ApplyAll(m, [] + [KickEvent(target, name)], guest), target, name)
  {
    var b := KickEvent(target, name);
    assert [] + [b] == [b];
    hide *;
    AllOne(m, b, guest);
    PeerOutcome(m, b, guest);
    DoesIs(m, ApplyEvent(m, b, guest), b, guest);
  }

  lemma KickMoves(n: Node, m: Node, k: Socket, room: string, target: string, found: Socket, guest: User)
    requires Twins(n, m) && k in n.sessions && KickOk(n, n.sessions[k], NameOr(room, n.sessions[k].room.name), target)
    requires found in LoggedInAs(n, target) && found in InRoomAs(n, target, NameOr(room, n.sessions[k].room.name))
    ensures var r, name := PacketKick(n, k, room, target, found), NameOr(room, n.sessions[k].room.name);
            var q := ApplyAll(m, [RoomJoinEvent(target, n.self, name, LOBBY.name)] + [KickEvent(target, name)], guest);
            AgreeTables(r, q) && (AgreeRows(r, q) <==> !SitsAs(m, name, target))
  {
    hide *;
    var r, name := PacketKick(n, k, room, target, found), NameOr(room, n.sessions[k].room.name);
    var q := ApplyAll(m, [RoomJoinEvent(target, n.self, name, LOBBY.name)] + [KickEvent(target, name)], guest);
    KickSetup(n, m, k, name, target);
    var m1 := KickMovedThere(m, target, n.self, name, guest);
    FoundSits(n, target, name, found);
    UnlistedParts(n, n.known[name].id, n.db.users[target].email);
    KickOutcome(n, k, room, target, found);
    KickWith(n, m, r, m1, q, name, target, found);
  }

  lemma KickStays(n: Node, m: Node, k: Socket, room: string, target: string, found: Socket, guest: User)
    requires Twins(n, m) && k in n.sessions && KickOk(n, n.sessions[k], NameOr(room, n.sessions[k].room.name), target)
    requires LoggedInAs(n, target) == {} || found in LoggedInAs(n, target)
    requires found !in InRoomAs(n, target, NameOr(room, n.sessions[k].room.name))
    ensures var r, name := PacketKick(n, k, room, target, found), NameOr(room, n.sessions[k].room.name);
            var q := ApplyAll(m, [] + [KickEvent(target, name)], guest);
            AgreeTables(r, q) && (AgreeRows(r, q) <==> KickFollows(n, m, name, target))
  {
    hide *;
    var r, name := PacketKick(n, k, room, target, found), NameOr(room, n.sessions[k].room.name);
    var q := ApplyAll(m, [] + [KickEvent(target, name)], guest);
    KickSetup(n, m, k, name, target);
    KickThere(m, target, name, guest);
    FoundSits(n, target, name, found);
    KickOutcome(n, k, room, target, found);
    KickWithout(n, m, r, q, name, target);
  }

  lemma KickTerms(n: Node, k: Socket, name: string, target: string)
    requires k in n.sessions && KickOk(n, n.sessions[k], name, target)
    ensures name in n.known && target in n.db.users && target != "" && name != LOBBY.name
  {}

  lemma UnlistedParts(n: Node, id: int, email: string)
    ensures Unlisted(n, id, email).sessions == n.sessions && Unlisted(n, id, email).known == n.known
  {}

  lemma FollowsIs(n: Node, m: Node, name: string, target: string)
    ensures KickFollows(n, m, name, target) <==>
              || !SitsAs(m, name, target)
              || (!SitsAs(n, name, target) && RowAt(m, target, name) == None
                  && RowAt(m, target, LOBBY.name) == Some(m.self))
  {
    hide SitsAs, RowAt;
  }

  // ---------------------------------------------------------------- every action, every run

  /** The two actions that move users without telling anyone, and when that makes no difference to the rows. */
  ghost predicate RowsFollow(n: Node, m: Node, a: Action)
  {
    match a
    case DoRoomDelete(k, room) =>
      k in n.sessions && DeleteOk(n, n.sessions[k], NameOr(room, n.sessions[k].room.name)) ==>
        EvictedFollow(n, m, NameOr(room, n.sessions[k].room.name))
    case DoKick(k, room, target, found) =>
      Possible(n, a) && KickOk(n, n.sessions[k], NameOr(room, n.sessions[k].room.name), target) ==>
        KickFollows(n, m, NameOr(room, n.sessions[k].room.name), target)
    case _ => true
  }

  // What each action is, and what its handler rumors.

  lemma ConnectIs(n: Node, k: Socket, other: User)
    requires k !in n.sessions
    ensures Step(n, DoConnect(k, other)) == Open(n, k, other)
    ensures Emitted(n, DoConnect(k, other)) == ([])
  {
    hide LoginOk, RegisterOk, ReconnectOk, ResumeRoom, EnterOk, InviteOk, DeleteOk, KickOk, InRoomAs, LoggedInAs, Open,
      Remove, Login, Register, Reconnect, Logout, SendMessage, PacketJoin, PacketLeave, PacketCreate, PacketInvite,
      PacketDelete, PacketKick;
  }

  lemma DisconnectIs(n: Node, k: Socket)
    ensures Step(n, DoDisconnect(k)) == Remove(n, k)
    ensures Emitted(n, DoDisconnect(k))
            == (if k in n.sessions && n.sessions[k].auth && n.sessions[k].user.name != ""
                then [LogoutEvent(n.sessions[k].user.name)]
                                   else [])
  {
    hide LoginOk, RegisterOk, ReconnectOk, ResumeRoom, EnterOk, InviteOk, DeleteOk, KickOk, InRoomAs, LoggedInAs, Open,
      Remove, Login, Register, Reconnect, Logout, SendMessage, PacketJoin, PacketLeave, PacketCreate, PacketInvite,
      PacketDelete, PacketKick;
  }

  lemma LoginIs(n: Node, k: Socket, name: string, ok: bool)
    requires k in n.sessions
    ensures Step(n, DoLogin(k, name, ok)) == Login(n, k, name, ok)
    ensures Emitted(n, DoLogin(k, name, ok)) == (if LoginOk(n, name, ok)
                                   then [LoginEvent(name, n.self),
                                         RoomJoinEvent(name, n.self, n.sessions[k].room.name, LOBBY.name)] else [])
  {
    hide LoginOk, RegisterOk, ReconnectOk, ResumeRoom, EnterOk, InviteOk, DeleteOk, KickOk, InRoomAs, LoggedInAs, Open,
      Remove, Login, Register, Reconnect, Logout, SendMessage, PacketJoin, PacketLeave, PacketCreate, PacketInvite,
      PacketDelete, PacketKick;
  }

  lemma RegisterIs(n: Node, k: Socket, name: string, password: string, email: string)
    requires k in n.sessions
    ensures Step(n, DoRegister(k, name, password, email)) == Register(n, k, name, password, email)
    ensures Emitted(n, DoRegister(k, name, password, email)) == (if RegisterOk(n.db, name, password, email)
                                   then [UserCreatedEvent(User(name, email, USER)), LoginEvent(name, n.self),
                                         RoomJoinEvent(name, n.self, n.sessions[k].room.name, LOBBY.name)] else [])
  {
    hide LoginOk, RegisterOk, ReconnectOk, ResumeRoom, EnterOk, InviteOk, DeleteOk, KickOk, InRoomAs, LoggedInAs, Open,
      Remove, Login, Register, Reconnect, Logout, SendMessage, PacketJoin, PacketLeave, PacketCreate, PacketInvite,
      PacketDelete, PacketKick;
  }

  lemma ReconnectIs2(n: Node, k: Socket, name: string, room: string, live: set<string>, other: User)
    requires k in n.sessions
    ensures Step(n, DoReconnect(k, name, room, live, other)) == Reconnect(n, k, name, room, live, other)
    ensures Emitted(n, DoReconnect(k, name, room, live, other)) == (if ReconnectOk(n, name, live)
                                   then [ReconnectEvent(name, n.self),
                                         RoomJoinEvent(name, n.self, n.sessions[k].room.name,
                                                       ResumeRoom(n, n.db.users[name], room))] else [])
  {
    hide LoginOk, RegisterOk, ReconnectOk, ResumeRoom, EnterOk, InviteOk, DeleteOk, KickOk, InRoomAs, LoggedInAs, Open,
      Remove, Login, Register, Reconnect, Logout, SendMessage, PacketJoin, PacketLeave, PacketCreate, PacketInvite,
      PacketDelete, PacketKick;
  }

  lemma LogoutIs2(n: Node, k: Socket, other: User)
    requires k in n.sessions
    ensures Step(n, DoLogout(k, other)) == Logout(n, k, other)
    ensures Emitted(n, DoLogout(k, other))
            == (if n.sessions[k].auth && n.sessions[k].user.name != "" then [LogoutEvent(n.sessions[k].user.name)]
                else [])
  {
    hide LoginOk, RegisterOk, ReconnectOk, ResumeRoom, EnterOk, InviteOk, DeleteOk, KickOk, InRoomAs, LoggedInAs, Open,
      Remove, Login, Register, Reconnect, Logout, SendMessage, PacketJoin, PacketLeave, PacketCreate, PacketInvite,
      PacketDelete, PacketKick;
  }

  lemma MessageIs(n: Node, k: Socket, id: string, text: string)
    requires k in n.sessions
    ensures Step(n, DoMessage(k, id, text)) == SendMessage(n, k, id, text)
    ensures Emitted(n, DoMessage(k, id, text)) == (if text != "" && n.sessions[k].auth
                                   then [MessageEvent(id, n.sessions[k].user.name, n.sessions[k].room.name)] else [])
  {
    hide LoginOk, RegisterOk, ReconnectOk, ResumeRoom, EnterOk, InviteOk, DeleteOk, KickOk, InRoomAs, LoggedInAs, Open,
      Remove, Login, Register, Reconnect, Logout, SendMessage, PacketJoin, PacketLeave, PacketCreate, PacketInvite,
      PacketDelete, PacketKick;
  }

  lemma JoinIs(n: Node, k: Socket, room: string)
    requires k in n.sessions
    ensures Step(n, DoRoomJoin(k, room)) == PacketJoin(n, k, room)
    ensures Emitted(n, DoRoomJoin(k, room))
            == (if EnterOk(n, n.sessions[k], NameOr(room, LOBBY.name)) && n.sessions[k].auth
                                   then [RoomJoinEvent(n.sessions[k].user.name, n.self, n.sessions[k].room.name,
                                                       NameOr(room, LOBBY.name))] else [])
  {
    hide LoginOk, RegisterOk, ReconnectOk, ResumeRoom, EnterOk, InviteOk, DeleteOk, KickOk, InRoomAs, LoggedInAs, Open,
      Remove, Login, Register, Reconnect, Logout, SendMessage, PacketJoin, PacketLeave, PacketCreate, PacketInvite,
      PacketDelete, PacketKick;
  }

  lemma LeaveIs(n: Node, k: Socket)
    requires k in n.sessions
    ensures Step(n, DoRoomLeave(k)) == PacketLeave(n, k)
    ensures Emitted(n, DoRoomLeave(k)) == (if n.sessions[k].auth
                                   then [RoomJoinEvent(n.sessions[k].user.name, n.self, n.sessions[k].room.name,
                                                       LOBBY.name)] else [])
  {
    hide LoginOk, RegisterOk, ReconnectOk, ResumeRoom, EnterOk, InviteOk, DeleteOk, KickOk, InRoomAs, LoggedInAs, Open,
      Remove, Login, Register, Reconnect, Logout, SendMessage, PacketJoin, PacketLeave, PacketCreate, PacketInvite,
      PacketDelete, PacketKick;
  }

  lemma CreateIs(n: Node, k: Socket, name: string, private: bool)
    requires k in n.sessions
    ensures Step(n, DoRoomCreate(k, name, private)) == PacketCreate(n, k, name, private)
    ensures Emitted(n, DoRoomCreate(k, name, private))
            == (if n.sessions[k].auth && name != "" && name !in n.known && name !in n.db.rooms.Values
                                   then [RoomCreatedEvent(n.sessions[k].user.name, name, private)] else [])
  {
    hide LoginOk, RegisterOk, ReconnectOk, ResumeRoom, EnterOk, InviteOk, DeleteOk, KickOk, InRoomAs, LoggedInAs, Open,
      Remove, Login, Register, Reconnect, Logout, SendMessage, PacketJoin, PacketLeave, PacketCreate, PacketInvite,
      PacketDelete, PacketKick;
  }

  lemma InviteIs(n: Node, k: Socket, room: string, invitee: string)
    requires k in n.sessions
    ensures Step(n, DoInvite(k, room, invitee)) == PacketInvite(n, k, room, invitee)
    ensures Emitted(n, DoInvite(k, room, invitee))
            == (if InviteOk(n, n.sessions[k], NameOr(room, n.sessions[k].room.name), invitee)
                                   then [AclAddEvent(invitee, NameOr(room, n.sessions[k].room.name), false)] else [])
  {
    hide LoginOk, RegisterOk, ReconnectOk, ResumeRoom, EnterOk, InviteOk, DeleteOk, KickOk, InRoomAs, LoggedInAs, Open,
      Remove, Login, Register, Reconnect, Logout, SendMessage, PacketJoin, PacketLeave, PacketCreate, PacketInvite,
      PacketDelete, PacketKick;
  }

  lemma DeleteIs(n: Node, k: Socket, room: string)
    requires k in n.sessions
    ensures Step(n, DoRoomDelete(k, room)) == PacketDelete(n, k, room)
    ensures Emitted(n, DoRoomDelete(k, room)) == (if DeleteOk(n, n.sessions[k], NameOr(room, n.sessions[k].room.name))
                                   then [RoomDeletedEvent(NameOr(room, n.sessions[k].room.name))] else [])
  {
    hide LoginOk, RegisterOk, ReconnectOk, ResumeRoom, EnterOk, InviteOk, DeleteOk, KickOk, InRoomAs, LoggedInAs, Open,
      Remove, Login, Register, Reconnect, Logout, SendMessage, PacketJoin, PacketLeave, PacketCreate, PacketInvite,
      PacketDelete, PacketKick;
  }

  lemma KickIs(n: Node, k: Socket, room: string, target: string, found: Socket)
    requires Possible(n, DoKick(k, room, target, found))
    ensures k in n.sessions && Step(n, DoKick(k, room, target, found)) == PacketKick(n, k, room, target, found)
    ensures Emitted(n, DoKick(k, room, target, found)) ==
              (var name := NameOr(room, n.sessions[k].room.name);
               var moved := if found in InRoomAs(n, target, name)
                            then [RoomJoinEvent(target, n.self, name, LOBBY.name)] else [];
               if KickOk(n, n.sessions[k], name, target) then moved + [KickEvent(target, name)] else [])
  {
    hide LoginOk, RegisterOk, ReconnectOk, ResumeRoom, EnterOk, InviteOk, DeleteOk, KickOk, InRoomAs, LoggedInAs, Open,
      Remove, Login, Register, Reconnect, Logout, SendMessage, PacketJoin, PacketLeave, PacketCreate, PacketInvite,
      PacketDelete, PacketKick;
  }

  lemma DeleteMoving(n: Node, m: Node, k: Socket, room: string, guest: User)
    requires Twins(n, m) && k in n.sessions
    ensures var name := NameOr(room, n.sessions[k].room.name);
            var es := if DeleteOk(n, n.sessions[k], name) then [RoomDeletedEvent(name)] else [];
            var r, q := PacketDelete(n, k, room), ApplyAll(m, es, guest);
            && AgreeTables(r, q)
            && (AgreeRows(r, q) <==> (DeleteOk(n, n.sessions[k], name) ==> EvictedFollow(n, m, name)))
  {
    TwinCore(n, m);
    hide *;
    if DeleteOk(n, n.sessions[k], NameOr(room, n.sessions[k].room.name)) {
      DeleteAgrees(n, m, k, room, guest);
    } else {
      DeleteOutcome(n, k, room);
      QuietAgrees(n, m, n, guest);
    }
  }

  lemma KickMoving(n: Node, m: Node, k: Socket, room: string, target: string, found: Socket, guest: User)
    requires Twins(n, m) && k in n.sessions && (LoggedInAs(n, target) == {} || found in LoggedInAs(n, target))
    ensures var name := NameOr(room, n.sessions[k].room.name);
            var moved := if found in InRoomAs(n, target, name) then [RoomJoinEvent(target, n.self, name, LOBBY.name)]
                else [];
            var es := if KickOk(n, n.sessions[k], name, target) then moved + [KickEvent(target, name)] else [];
            var r, q := PacketKick(n, k, room, target, found), ApplyAll(m, es, guest);
            && AgreeTables(r, q)
            && (AgreeRows(r, q) <==> (KickOk(n, n.sessions[k], name, target) ==> KickFollows(n, m, name, target)))
  {
    TwinCore(n, m);
    hide *;
    if KickOk(n, n.sessions[k], NameOr(room, n.sessions[k].room.name), target) {
      KickAgrees(n, m, k, room, target, found, guest);
    } else {
      KickOutcome(n, k, room, target, found);
      QuietAgrees(n, m, n, guest);
    }
  }

  lemma DeleteStep(n: Node, m: Node, k: Socket, room: string, guest: User)
    requires Twins(n, m) && k in n.sessions
    ensures var a := DoRoomDelete(k, room);
            var r, q := Step(n, a), ApplyAll(m, Emitted(n, a), guest);
            AgreeTables(r, q) && (AgreeRows(r, q) <==> RowsFollow(n, m, a))
  {
    DeleteIs(n, k, room);
    DeleteFollows(n, m, k, room);
    hide *;
    DeleteMoving(n, m, k, room, guest);
  }

  lemma DeleteFollows(n: Node, m: Node, k: Socket, room: string)
    requires k in n.sessions
    ensures var name := NameOr(room, n.sessions[k].room.name);
            RowsFollow(n, m, DoRoomDelete(k, room)) <==>
              (DeleteOk(n, n.sessions[k], name) ==> EvictedFollow(n, m, name))
  {
    hide EvictedFollow, DeleteOk;
  }

  lemma KickStep(n: Node, m: Node, k: Socket, room: string, target: string, found: Socket, guest: User)
    requires Twins(n, m) && Possible(n, DoKick(k, room, target, found))
    ensures var a := DoKick(k, room, target, found);
            var r, q := Step(n, a), ApplyAll(m, Emitted(n, a), guest);
            AgreeTables(r, q) && (AgreeRows(r, q) <==> RowsFollow(n, m, a))
  {
    KickIs(n, k, room, target, found);
    KickFollow(n, m, k, room, target, found);
    hide *;
    KickMoving(n, m, k, room, target, found, guest);
  }

  lemma KickFollow(n: Node, m: Node, k: Socket, room: string, target: string, found: Socket)
    requires Possible(n, DoKick(k, room, target, found))
    ensures k in n.sessions && (LoggedInAs(n, target) == {} || found in LoggedInAs(n, target))
    ensures var name := NameOr(room, n.sessions[k].room.name);
            RowsFollow(n, m, DoKick(k, room, target, found)) <==>
              (KickOk(n, n.sessions[k], name, target) ==> KickFollows(n, m, name, target))
  {
    hide KickFollows, KickOk, LoggedInAs;
  }

  lemma PossibleIs(n: Node, a: Action)
    requires Possible(n, a)
    ensures a.DoConnect? ==> a.k !in n.sessions
    ensures !a.DoConnect? && !a.DoDisconnect? && !a.DoPeer? ==> a.k in n.sessions
    ensures a.DoKick? ==> LoggedInAs(n, a.name) == {} || a.found in LoggedInAs(n, a.name)
  {
    hide LoggedInAs;
  }

  lemma ConnectQuiet(n: Node, m: Node, k: Socket, other: User, guest: User)
    requires Twins(n, m) && k !in n.sessions
    ensures var r, q := Open(n, k, other), ApplyAll(m, [], guest); AgreeTables(r, q) && AgreeRows(r, q)
  {
    TwinCore(n, m);
    hide Twins, Core, Open, Sits, ApplyAll, AgreeTables, AgreeRows;
    OpenOutcome(n, k, other);
    QuietAgrees(n, m, Open(n, k, other), guest);
  }

  lemma DropQuiet(n: Node, m: Node, k: Socket, guest: User)
    requires Twins(n, m) && !(k in n.sessions && n.sessions[k].auth)
    ensures var r, q := Remove(n, k), ApplyAll(m, [], guest); AgreeTables(r, q) && AgreeRows(r, q)
  {
    TwinCore(n, m);
    hide Twins, Core, Remove, Sits, ApplyAll, AgreeTables, AgreeRows;
    RemoveOutcome(n, k);
    QuietAgrees(n, m, Remove(n, k), guest);
  }

  lemma LogoutQuiet(n: Node, m: Node, k: Socket, other: User, guest: User)
    requires Twins(n, m) && k in n.sessions && !n.sessions[k].auth
    ensures var r, q := Logout(n, k, other), ApplyAll(m, [], guest); AgreeTables(r, q) && AgreeRows(r, q)
  {
    TwinCore(n, m);
    hide Twins, Core, Logout, Sits, ApplyAll, AgreeTables, AgreeRows;
    LogoutOutcome(n, k, other);
    QuietAgrees(n, m, Logout(n, k, other), guest);
  }

  lemma JoinQuiet(n: Node, m: Node, k: Socket, room: string, guest: User)
    requires Twins(n, m) && k in n.sessions
    requires !(EnterOk(n, n.sessions[k], NameOr(room, LOBBY.name)) && n.sessions[k].auth)
    ensures var r, q := PacketJoin(n, k, room), ApplyAll(m, [], guest); AgreeTables(r, q) && AgreeRows(r, q)
  {
    TwinCore(n, m);
    hide Twins, Core, PacketJoin, Sits, ApplyAll, AgreeTables, AgreeRows;
    JoinOutcome(n, k, room);
    QuietAgrees(n, m, PacketJoin(n, k, room), guest);
  }

  lemma LeaveQuiet(n: Node, m: Node, k: Socket, guest: User)
    requires Twins(n, m) && k in n.sessions && !n.sessions[k].auth
    ensures var r, q := PacketLeave(n, k), ApplyAll(m, [], guest); AgreeTables(r, q) && AgreeRows(r, q)
  {
    TwinCore(n, m);
    hide Twins, Core, PacketLeave, Sits, ApplyAll, AgreeTables, AgreeRows;
    LeaveOutcome(n, k);
    QuietAgrees(n, m, PacketLeave(n, k), guest);
  }

  lemma ConnectStep(n: Node, m: Node, k: Socket, other: User, guest: User)
    requires Twins(n, m) && k !in n.sessions
    ensures var r, q := Step(n, DoConnect(k, other)), ApplyAll(m, Emitted(n, DoConnect(k, other)), guest);
            AgreeTables(r, q) && AgreeRows(r, q)
  {
    TwinCore(n, m);
    ConnectIs(n, k, other);
    hide *;
    ConnectQuiet(n, m, k, other, guest);
  }

  lemma DisconnectStep(n: Node, m: Node, k: Socket, guest: User)
    requires Twins(n, m)
    ensures var r, q := Step(n, DoDisconnect(k)), ApplyAll(m, Emitted(n, DoDisconnect(k)), guest);
            AgreeTables(r, q) && AgreeRows(r, q)
  {
    TwinCore(n, m);
    DisconnectIs(n, k);
    if k in n.sessions { OwnRoom(n, k); }
    hide *;
    if k in n.sessions && n.sessions[k].auth { DropAgrees(n, m, k, guest); } else { DropQuiet(n, m, k, guest); }
  }

  lemma LoginStep(n: Node, m: Node, k: Socket, name: string, ok: bool, guest: User)
    requires Twins(n, m) && k in n.sessions
    ensures var r, q := Step(n, DoLogin(k, name, ok)), ApplyAll(m, Emitted(n, DoLogin(k, name, ok)), guest);
            AgreeTables(r, q) && AgreeRows(r, q)
  {
    TwinCore(n, m);
    LoginIs(n, k, name, ok);
    hide *;
    if LoginOk(n, name, ok) {
      LoginAgrees(n, m, k, name, ok, guest);
    } else {
      LoginOutcome(n, k, name, ok);
      QuietAgrees(n, m, n, guest);
    }
  }

  lemma RegisterStep(n: Node, m: Node, k: Socket, name: string, password: string, email: string, guest: User)
    requires Twins(n, m) && k in n.sessions
    ensures var r, q := Step(n, DoRegister(k, name, password, email)),
            ApplyAll(m, Emitted(n, DoRegister(k, name, password, email)), guest);
            AgreeTables(r, q) && AgreeRows(r, q)
  {
    TwinCore(n, m);
    RegisterIs(n, k, name, password, email);
    hide *;
    if RegisterOk(n.db, name, password, email) {
      RegisterAgrees(n, m, k, name, password, email, guest);
    } else {
      RegisterOutcome(n, k, name, password, email);
      QuietAgrees(n, m, n, guest);
    }
  }

  lemma ReconnectStep(n: Node, m: Node, k: Socket, name: string, room: string, live: set<string>, other: User,
                      guest: User)
    requires Twins(n, m) && k in n.sessions
    ensures var r, q := Step(n, DoReconnect(k, name, room, live, other)),
            ApplyAll(m, Emitted(n, DoReconnect(k, name, room, live, other)), guest);
            AgreeTables(r, q) && AgreeRows(r, q)
  {
    TwinCore(n, m);
    ReconnectIs2(n, k, name, room, live, other);
    hide *;
    if ReconnectOk(n, name, live) {
      ReconnectAgrees(n, m, k, name, room, live, other, guest);
    } else {
      ReconnectOutcome(n, k, name, room, live, other);
      QuietAgrees(n, m, n, guest);
    }
  }

  lemma LogoutStep(n: Node, m: Node, k: Socket, other: User, guest: User)
    requires Twins(n, m) && k in n.sessions
    ensures var r, q := Step(n, DoLogout(k, other)), ApplyAll(m, Emitted(n, DoLogout(k, other)), guest);
            AgreeTables(r, q) && AgreeRows(r, q)
  {
    TwinCore(n, m);
    LogoutIs2(n, k, other);
    OwnRoom(n, k);
    hide *;
    if n.sessions[k].auth { LogoutAgrees(n, m, k, other, guest); } else { LogoutQuiet(n, m, k, other, guest); }
  }

  lemma MessageStep(n: Node, m: Node, k: Socket, id: string, text: string, guest: User)
    requires Twins(n, m) && k in n.sessions
    ensures var r, q := Step(n, DoMessage(k, id, text)), ApplyAll(m, Emitted(n, DoMessage(k, id, text)), guest);
            AgreeTables(r, q) && AgreeRows(r, q)
  {
    TwinCore(n, m);
    MessageIs(n, k, id, text);
    hide *;
    if text != "" && n.sessions[k].auth {
      MessageAgrees(n, m, k, id, text, guest);
    } else {
      MessageOutcome(n, k, id, text);
      QuietAgrees(n, m, n, guest);
    }
  }

  lemma JoinStep(n: Node, m: Node, k: Socket, room: string, guest: User)
    requires Twins(n, m) && k in n.sessions
    ensures var r, q := Step(n, DoRoomJoin(k, room)), ApplyAll(m, Emitted(n, DoRoomJoin(k, room)), guest);
            AgreeTables(r, q) && AgreeRows(r, q)
  {
    TwinCore(n, m);
    JoinIs(n, k, room);
    hide *;
    if EnterOk(n, n.sessions[k], NameOr(room, LOBBY.name)) && n.sessions[k].auth {
      RoomJoinAgrees(n, m, k, room, guest);
    } else {
      JoinQuiet(n, m, k, room, guest);
    }
  }

  lemma LeaveStep(n: Node, m: Node, k: Socket, guest: User)
    requires Twins(n, m) && k in n.sessions
    ensures var r, q := Step(n, DoRoomLeave(k)), ApplyAll(m, Emitted(n, DoRoomLeave(k)), guest);
            AgreeTables(r, q) && AgreeRows(r, q)
  {
    TwinCore(n, m);
    LeaveIs(n, k);
    hide *;
    if n.sessions[k].auth { RoomLeaveAgrees(n, m, k, guest); } else { LeaveQuiet(n, m, k, guest); }
  }

  lemma CreateStep(n: Node, m: Node, k: Socket, name: string, private: bool, guest: User)
    requires Twins(n, m) && k in n.sessions
    ensures var r, q := Step(n, DoRoomCreate(k, name, private)),
            ApplyAll(m, Emitted(n, DoRoomCreate(k, name, private)), guest);
            AgreeTables(r, q) && AgreeRows(r, q)
  {
    TwinCore(n, m);
    CreateIs(n, k, name, private);
    hide *;
    if n.sessions[k].auth && name != "" && name !in n.known && name !in n.db.rooms.Values {
      CreateAgrees(n, m, k, name, private, guest);
    } else {
      CreateOutcome(n, k, name, private);
      QuietAgrees(n, m, n, guest);
    }
  }

  lemma InviteStep(n: Node, m: Node, k: Socket, room: string, invitee: string, guest: User)
    requires Twins(n, m) && k in n.sessions
    ensures var r, q := Step(n, DoInvite(k, room, invitee)), ApplyAll(m, Emitted(n, DoInvite(k, room, invitee)), guest);
            AgreeTables(r, q) && AgreeRows(r, q)
  {
    TwinCore(n, m);
    InviteIs(n, k, room, invitee);
    hide *;
    if InviteOk(n, n.sessions[k], NameOr(room, n.sessions[k].room.name), invitee) {
      InviteAgrees(n, m, k, room, invitee, guest);
    } else {
      InviteOutcome(n, k, room, invitee);
      QuietAgrees(n, m, n, guest);
    }
  }

  lemma PlainAgrees(n: Node, m: Node, a: Action, guest: User)
    requires Twins(n, m) && !a.DoPeer? && !a.DoRoomDelete? && !a.DoKick? && Possible(n, a)
    ensures var r, q := Step(n, a), ApplyAll(m, Emitted(n, a), guest); AgreeTables(r, q) && AgreeRows(r, q)
  {
    PossibleIs(n, a);
    hide *;
    match a
    case DoConnect(k, other) => ConnectStep(n, m, k, other, guest);
    case DoDisconnect(k) => DisconnectStep(n, m, k, guest);
    case DoLogin(k, name, ok) => LoginStep(n, m, k, name, ok, guest);
    case DoRegister(k, name, password, email) => RegisterStep(n, m, k, name, password, email, guest);
    case DoReconnect(k, name, room, live, other) => ReconnectStep(n, m, k, name, room, live, other, guest);
    case DoLogout(k, other) => LogoutStep(n, m, k, other, guest);
    case DoMessage(k, id, text) => MessageStep(n, m, k, id, text, guest);
    case DoRoomJoin(k, room) => JoinStep(n, m, k, room, guest);
    case DoRoomLeave(k) => LeaveStep(n, m, k, guest);
    case DoRoomCreate(k, name, private) => CreateStep(n, m, k, name, private, guest);
    case DoInvite(k, room, invitee) => InviteStep(n, m, k, room, invitee, guest);
  }

  lemma FollowsElse(n: Node, m: Node, a: Action)
    requires !a.DoRoomDelete? && !a.DoKick?
    ensures RowsFollow(n, m, a)
  {}

  /** After any client's action at one node, with what it rumors applied at the other: users, presence, rooms and
      their privacy, who is let into private rooms, who made a room and messages by room agree again; membership rows
      exactly when they follow. */
  lemma StepAgrees(n: Node, m: Node, a: Action, guest: User)
    requires Twins(n, m) && !a.DoPeer?
    ensures var r, q := Step(n, a), ApplyAll(m, Emitted(n, a), guest);
            AgreeTables(r, q) && (AgreeRows(r, q) <==> RowsFollow(n, m, a))
  {
    hide *;
    if !Possible(n, a) {
      NothingAgrees(n, m, a);
      NotPossible(n, a);
      QuietAgrees(n, m, n, guest);
    } else if a.DoRoomDelete? {
      DeleteStep(n, m, a.k, a.room, guest) by { PossibleIs(n, a); }
    } else if a.DoKick? {
      KickStep(n, m, a.k, a.room, a.name, a.found, guest);
    } else {
      FollowsElse(n, m, a);
      PlainAgrees(n, m, a, guest);
    }
  }

  lemma NothingAgrees(n: Node, m: Node, a: Action)
    requires !Possible(n, a)
    ensures Emitted(n, a) == [] && RowsFollow(n, m, a)
  {
    hide LoggedInAs;
  }

  // ---------------------------------------------------------------- runs

  /** The other node, with what each action of the run rumors applied in order. */
  ghost function Mirror(n: Node, m: Node, actions: seq<Action>, guest: User): (r: Node)
    decreases |actions|
  {
    if actions == [] then m
    else Mirror(Step(n, actions[0]), ApplyAll(m, Emitted(n, actions[0]), guest), actions[1..], guest)
  }

  /** Rows follow at every step of the run. */
  ghost predicate AllFollow(n: Node, m: Node, actions: seq<Action>, guest: User)
    decreases |actions|
  {
    actions == [] || (&& !actions[0].DoPeer? && RowsFollow(n, m, actions[0])
                      && AllFollow(Step(n, actions[0]), ApplyAll(m, Emitted(n, actions[0]), guest), actions[1..],
                                   guest))
  }

  lemma {:induction false} AllCore(m: Node, es: seq<Event>, guest: User)
    requires Core(m) && Tidy(m)
    ensures Core(ApplyAll(m, es, guest)) && Tidy(ApplyAll(m, es, guest)) && ApplyAll(m, es, guest).self == m.self
    decreases |es|
  {
    hide Core, Tidy, ApplyEvent, Does;
    if es != [] {
      PeerOutcome(m, es[0], guest);
      EventTidy(m, ApplyEvent(m, es[0], guest), es[0], guest);
      EventSelf(m, es[0], guest);
      AllCore(ApplyEvent(m, es[0], guest), es[1..], guest);
    }
  }

  lemma StepTwins(n: Node, m: Node, a: Action, guest: User)
    requires Twins(n, m) && !a.DoPeer? && RowsFollow(n, m, a)
    ensures Twins(Step(n, a), ApplyAll(m, Emitted(n, a), guest))
  {
    TwinCore(n, m);
    hide Core, Tidy, AgreeTables, AgreeRows, Step, ApplyAll, Emitted, RowsFollow;
    StepCore(n, a);
    StepTidy(n, a);
    StepSelf(n, a);
    AllCore(m, Emitted(n, a), guest);
    StepAgrees(n, m, a, guest);
  }

  /** Over any run of clients at one node, the other applying what they rumor: the tables agree at the end. */
  lemma {:induction false} RunAgrees(n: Node, m: Node, actions: seq<Action>, guest: User)
    requires Twins(n, m) && AllFollow(n, m, actions, guest)
    ensures Twins(Run(n, actions), Mirror(n, m, actions, guest))
    decreases |actions|
  {
    hide Twins, Step, ApplyAll, Emitted, RowsFollow;
    if actions != [] {
      StepTwins(n, m, actions[0], guest);
      RunAgrees(Step(n, actions[0]), ApplyAll(m, Emitted(n, actions[0]), guest), actions[1..], guest);
    }
  }

  /** Two nodes that boot with the same users and the same entries are a start for that. */
  lemma BootTwins(n: Node, m: Node)
    requires Boot(n) && Boot(m) && n.self != m.self && n.db.users == m.db.users && n.db.allow == m.db.allow
    ensures Twins(n, m)
  {
    BootCore(n);
    BootCore(m);
    hide Core;
    assert Tidy(n) && Tidy(m);
    assert n.known == m.known && n.db.messages == m.db.messages && n.db.membership == m.db.membership;
    SameView(n, m);
    SameRowView(n, m);
    hide Tidy, ListedIn, MadeIn, MessageIn, RowAt, Boot;
    assert AgreeRooms(n, m) && AgreeEntries(n, m) && AgreeMessages(n, m) && AgreeRows(n, m);
  }
}
