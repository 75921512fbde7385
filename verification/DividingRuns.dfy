/** Two nodes that boot alike and hear everything the other rumors, whose membership rows come apart: once by a
    ROOM_DELETE, once by a ROOM_KICK. */
module DividingRuns {
  import opened ChatNode
  import opened NodeShapes
  import opened NodePackets
  import opened NodeRuns
  import opened NodeOutcomes
  import opened PeerOutcomes
  import opened NodeEvents
  import opened NodeReplication
  import opened Bytes
  import opened RoomIndex
  import F = FailingRuns

  // ---------------------------------------------------------------- runs without deletes and kicks

  predicate Plain(a: Action) { !a.DoPeer? && !a.DoRoomDelete? && !a.DoKick? }

  lemma {:induction false} PlainFollows(n: Node, m: Node, actions: seq<Action>, guest: User)
    requires forall i :: 0 <= i < |actions| ==> Plain(actions[i])
    ensures AllFollow(n, m, actions, guest)
    decreases |actions|
  {
    hide Step, ApplyAll, Emitted;
    if actions != [] {
      PlainFollows(Step(n, actions[0]), ApplyAll(m, Emitted(n, actions[0]), guest), actions[1..], guest);
    }
  }

  lemma {:induction false} MirrorSnoc(n: Node, m: Node, actions: seq<Action>, a: Action, guest: User)
    ensures Run(n, actions + [a]) == Step(Run(n, actions), a)
    ensures Mirror(n, m, actions + [a], guest)
         == ApplyAll(Mirror(n, m, actions, guest), Emitted(Run(n, actions), a), guest)
    decreases |actions|
  {
    hide Step, ApplyAll, Emitted;
    if actions == [] {
      assert [a][1..] == [] && [] + [a] == [a];
    } else {
      var n1, m1 := Step(n, actions[0]), ApplyAll(m, Emitted(n, actions[0]), guest);
      assert (actions + [a])[1..] == actions[1..] + [a];
      MirrorSnoc(n1, m1, actions[1..], a, guest);
    }
  }

  lemma SwapTwins(n: Node, m: Node)
    requires Twins(n, m)
    ensures Twins(m, n)
  {
    hide Core, ListedIn, MadeIn, MessageIn, RowAt;
  }

  lemma TwinCores(n: Node, m: Node)
    requires Twins(n, m)
    ensures Core(n) && Core(m)
  {
    hide Core;
  }

  // ---------------------------------------------------------------- someone enters a room

  /** The only connection is this user's, in this room, and the user has no Lobby row. */
  ghost predicate Placed(n: Node, boot: Node, k: Socket, u: string, name: string)
  {
    && Core(n) && n.self == boot.self && k in n.sessions && n.sessions.Keys == {k} && u in boot.db.users
    && n.db.users == boot.db.users && n.sessions[k].auth && n.sessions[k].user == boot.db.users[u]
    && boot.db.users[u].name == u && n.sessions[k].room.name == name && name in n.known
    && RowAt(n, u, name) == Some(n.self) && (name != LOBBY.name ==> RowAt(n, u, LOBBY.name) == None)
  }

  lemma LogsIn(n: Node, k: Socket, u: string, guest: User)
    requires Core(n) && n.sessions == map[] && u in n.db.users && u !in n.db.online
    ensures var r := Run(n, [DoConnect(k, guest), DoLogin(k, u, true)]);
            && Placed(r, n, k, u, LOBBY.name) && r.known == n.known && r.db.rooms == n.db.rooms
            && r.db.online == n.db.online[u := n.self]
  {
    var a, b := DoConnect(k, guest), DoLogin(k, u, true);
    var n1 := Step(n, a);
    var r := Step(n1, b);
    hide *;
    RunTwo(n, a, b);
    ConnectIs(n, k, guest);
    F.ConnectStep(n, k, guest);
    F.OpenFrame(n, k, guest);
    assert n1.sessions == map[k := Session(guest, LOBBY, false)];
    OthersOut(n1, k, u);
    F.LoginStep(n1, k, u);
    F.LoginKnown(n1, k, u);
    assert r.sessions == map[k := Session(n.db.users[u], LOBBY, true)];
    CoreLobby(r);
    RejoinedLobby(r, n1.db.membership, u);
    IsPlaced(r, n, k, u);
  }

  lemma OthersOut(n: Node, k: Socket, u: string)
    requires n.sessions.Keys == {k} && !n.sessions[k].auth
    ensures LoggedInAs(n, u) == {}
  {}

  lemma RejoinedLobby(r: Node, was: Rows, u: string)
    requires r.db.membership == Rejoin(was, u, LOBBY.id, LOBBY.id, r.self) && LOBBY.name in r.known
    requires r.known[LOBBY.name] == LOBBY
    ensures RowAt(r, u, LOBBY.name) == Some(r.self)
  {}

  lemma IsPlaced(r: Node, n: Node, k: Socket, u: string)
    requires Core(r) && r.self == n.self && r.db.users == n.db.users && u in n.db.users && n.db.users[u].name == u
    requires r.sessions == map[k := Session(n.db.users[u], LOBBY, true)] && LOBBY.name in r.known
    requires RowAt(r, u, LOBBY.name) == Some(n.self)
    ensures Placed(r, n, k, u, LOBBY.name)
  {
    hide Core, RowAt;
  }

  lemma RunTwo(n: Node, a: Action, b: Action)
    ensures Run(n, [a, b]) == Step(Step(n, a), b)
  {
    hide Step;
    assert [a, b][1..] == [b] && [b][1..] == [];
    assert Run(Step(n, a), [b]) == Step(Step(n, a), b);
  }

  lemma CoreLobby(n: Node)
    requires Core(n)
    ensures LOBBY.name in n.known && n.known[LOBBY.name] == LOBBY
  {
    CoreIndex(n);
    hide Core;
  }

  lemma Moves(n: Node, boot: Node, k: Socket, u: string, name: string)
    requires Placed(n, boot, k, u, LOBBY.name) && name in n.known && !n.known[name].private
    requires name != LOBBY.name && name != ""
    ensures var r := Step(n, DoRoomJoin(k, name)); Placed(r, boot, k, u, name) && r.known == n.known
  {
    var r := Step(n, DoRoomJoin(k, name));
    NameThere(name);
    PublicOpen(n, n.sessions[k], name);
    JoinIs(n, k, name);
    PlacedIs(n, boot, k, u, LOBBY.name);
    hide *;
    CoreLobby(n);
    JoinOutcome(n, k, name);
    NodeReplication.OwnRoom(n, k);
    CoreRoom(n, name);
    MovesTo(n, boot, r, k, u, name);
  }

  lemma NameThere(name: string)
    requires name != ""
    ensures NameOr(name, LOBBY.name) == name
  {}

  lemma PublicOpen(n: Node, s: Session, name: string)
    requires name in n.known && !n.known[name].private
    ensures EnterOk(n, s, name)
  {}

  lemma PlacedIs(n: Node, boot: Node, k: Socket, u: string, name: string)
    requires Placed(n, boot, k, u, name)
    ensures Core(n) && n.self == boot.self && k in n.sessions && n.sessions.Keys == {k} && u in boot.db.users
    ensures n.db.users == boot.db.users && n.sessions[k].auth && n.sessions[k].user == boot.db.users[u]
    ensures boot.db.users[u].name == u && n.sessions[k].room.name == name
  {
    hide Core, RowAt;
  }

  lemma MovesTo(n: Node, boot: Node, r: Node, k: Socket, u: string, name: string)
    requires Core(n) && Core(r) && n.self == boot.self && k in n.sessions && n.sessions.Keys == {k}
    requires u in boot.db.users
    requires n.db.users == boot.db.users && n.sessions[k].auth && n.sessions[k].user == boot.db.users[u]
    requires boot.db.users[u].name == u && n.sessions[k].room == n.known[LOBBY.name] && LOBBY.name in n.known
    requires name in n.known && n.known[name].name == name && name != LOBBY.name && Enters(n, r, k, name)
    ensures Placed(r, boot, k, u, name) && r.known == n.known
  {
    hide Core, Sits, RowAt, Rejoin;
    RejoinAt(n, r, u, LOBBY.name, name, n.self);
  }

  // ---------------------------------------------------------------- ROOM_DELETE

  /** An administrator makes a room, enters it and deletes it: the row its node gives it in the Lobby is on no other
      node. */
  lemma DeleteDivides(n: Node, m: Node, k: Socket, root: string, name: string, guest: User)
    requires Boot(n) && Boot(m) && n.self != m.self && n.db.users == m.db.users && n.db.allow == m.db.allow
    requires root in n.db.users && n.db.users[root].kind == ADMIN
    requires name != "" && name != LOBBY.name && name != GENERAL.name
    ensures var run := [DoConnect(k, guest), DoLogin(k, root, true), DoRoomCreate(k, name, false), DoRoomJoin(k, name),
                        DoRoomDelete(k, name)];
            var r, q := Run(n, run), Mirror(n, m, run, guest);
            AgreeTables(r, q) && RowAt(r, root, LOBBY.name) == Some(n.self) && RowAt(q, root, LOBBY.name) == None
  {
    var a, b, c, d, e := DoConnect(k, guest), DoLogin(k, root, true), DoRoomCreate(k, name, false), DoRoomJoin(k, name),
                         DoRoomDelete(k, name);
    var visit := [a, b, c, d];
    var n4, m4 := Run(n, visit), Mirror(n, m, visit, guest);
    hide *;
    VisitEasy(k, root, name, guest);
    BootSeeds(m);
    BootTwins(n, m);
    PlainFollows(n, m, visit, guest);
    EasyMirror(n, m, visit, guest);
    MakesAndEnters(n, k, root, name, guest);
    RunAgrees(n, m, visit, guest);
    MirrorSnoc(n, m, visit, e, guest);
    LastDelete(n4, m4, n, k, root, name, guest);
  }

  lemma VisitEasy(k: Socket, root: string, name: string, guest: User)
    ensures var visit := [DoConnect(k, guest), DoLogin(k, root, true), DoRoomCreate(k, name, false),
                          DoRoomJoin(k, name)];
            && (forall i :: 0 <= i < |visit| ==> Easy(visit[i]) && Plain(visit[i]))
            && visit + [DoRoomDelete(k, name)]
            == [DoConnect(k, guest), DoLogin(k, root, true), DoRoomCreate(k, name, false), DoRoomJoin(k, name),
                DoRoomDelete(k, name)]
  {}

  lemma MakesAndEnters(n: Node, k: Socket, root: string, name: string, guest: User)
    requires Boot(n) && root in n.db.users && name != "" && name != LOBBY.name && name != GENERAL.name
    ensures var r := Run(n,
                         [DoConnect(k, guest), DoLogin(k, root, true), DoRoomCreate(k, name, false),
                          DoRoomJoin(k, name)]);
            Placed(r, n, k, root, name)
  {
    var a, b, c, d := DoConnect(k, guest), DoLogin(k, root, true), DoRoomCreate(k, name, false), DoRoomJoin(k, name);
    assert [a, b, c] + [d] == [a, b, c, d] && [a, b] + [c] == [a, b, c];
    var n2 := Run(n, [a, b]);
    NameFree(n, name);
    BootCore(n);
    hide *;
    LogsIn(n, k, root, guest);
    Makes(n2, n, k, root, name);
    Moves(Step(n2, c), n, k, root, name);
    MirrorSnoc(n, n, [a, b], c, guest);
    MirrorSnoc(n, n, [a, b, c], d, guest);
  }

  lemma NameFree(n: Node, name: string)
    requires Boot(n) && name != LOBBY.name && name != GENERAL.name
    ensures name !in n.known && name !in n.db.rooms.Values && n.db.online == map[] && n.sessions == map[]
  {}

  lemma Makes(n: Node, boot: Node, k: Socket, u: string, name: string)
    requires Placed(n, boot, k, u, LOBBY.name) && name != "" && name !in n.known && name !in n.db.rooms.Values
    ensures var r := Step(n, DoRoomCreate(k, name, false));
            Placed(r, boot, k, u, LOBBY.name) && name in r.known && !r.known[name].private
  {
    hide Core, Step, PacketCreate;
    StepIs(n, DoRoomCreate(k, name, false));
    CreateOutcome(n, k, name, false);
    CoreLobby(n);
  }

  lemma LastDelete(n: Node, m: Node, boot: Node, k: Socket, root: string, name: string, guest: User)
    requires Twins(n, m) && Placed(n, boot, k, root, name) && boot.db.users[root].kind == ADMIN && m.sessions == map[]
    requires name != LOBBY.name && name != GENERAL.name && name != ""
    ensures var a := DoRoomDelete(k, name);
            var r, q := Step(n, a), ApplyAll(m, Emitted(n, a), guest);
            AgreeTables(r, q) && RowAt(r, root, LOBBY.name) == Some(boot.self) && RowAt(q, root, LOBBY.name) == None
  {
    var a := DoRoomDelete(k, name);
    var r, q := Step(n, a), ApplyAll(m, Emitted(n, a), guest);
    DeleteIs(n, k, name);
    assert DeleteOk(n, n.sessions[k], name);
    assert SitsAs(n, name, root);
    assert !SitsAs(m, name, root);
    TwinCores(n, m);
    TwinRows(n, m, root, LOBBY.name);
    RoomThere(n, m, name);
    hide *;
    DeleteOutcome(n, k, name);
    DeletedAt(n, r, name);
    DeleteStep(n, m, k, name, guest);
    AllOne(m, RoomDeletedEvent(name), guest);
    PeerOutcome(m, RoomDeletedEvent(name), guest);
    DoesIs(m, q, RoomDeletedEvent(name), guest);
    DisappearsIs(m, q, name);
    DeletedAt(m, q, name);
  }

  lemma TwinRows(n: Node, m: Node, u: string, name: string)
    requires Twins(n, m)
    ensures RowAt(n, u, name) == RowAt(m, u, name)
  {
    hide Core, AgreeTables, RowAt;
  }

  lemma RoomThere(n: Node, m: Node, name: string)
    requires Twins(n, m) && name in n.known
    ensures name in m.known
  {
    hide Core, AgreeEntries, AgreeMessages, AgreeRows;
  }

  lemma DisappearsIs(n: Node, r: Node, name: string)
    requires name != "" && name != LOBBY.name && name != GENERAL.name && name in n.known && Disappears(n, r, name)
    ensures Deletes(n, r, name)
  {
    hide Deletes;
  }

  // ---------------------------------------------------------------- what a node hears

  /** Events that touch no session and no user. */
  predicate Light(e: Event) { e.LoginEvent? || e.RoomJoinEvent? || e.RoomCreatedEvent? }

  predicate Easy(a: Action) { a.DoConnect? || a.DoLogin? || a.DoRoomJoin? || a.DoRoomCreate? }

  lemma EasyIsLight(n: Node, a: Action)
    requires Easy(a)
    ensures forall i :: 0 <= i < |Emitted(n, a)| ==> Light(Emitted(n, a)[i])
  {
    hide LoginOk, EnterOk;
  }

  lemma LightIs(n: Node, e: Event, guest: User)
    requires Light(e)
    ensures var r := ApplyEvent(n, e, guest); r.sessions == n.sessions && r.db.users == n.db.users && r.self == n.self
  {
    hide ApplyLogin, ApplyRoomJoin, ApplyRoomCreated;
    match e
    case LoginEvent(u, node) => LoginLight(n, u, node);
    case RoomJoinEvent(u, node, prev, room) => RoomJoinLight(n, u, node, prev, room);
    case RoomCreatedEvent(u, room, private) => CreatedLight(n, u, room, private);
    case _ =>
  }

  lemma LoginLight(n: Node, u: string, node: string)
    ensures var r := ApplyLogin(n, u, node); r.sessions == n.sessions && r.db.users == n.db.users && r.self == n.self
  {}

  lemma RoomJoinLight(n: Node, u: string, node: string, prev: string, room: string)
    ensures var r := ApplyRoomJoin(n, u, node, prev, room);
            r.sessions == n.sessions && r.db.users == n.db.users && r.self == n.self
  {
    RowsLight(n);
    hide ClearRow, SetRow, WithRows, NameOr;
  }

  lemma RowsLight(n: Node)
    ensures forall m: Rows {:trigger WithRows(n, m)} ::
              var r := WithRows(n, m); r.sessions == n.sessions && r.db.users == n.db.users && r.self == n.self
  {}

  lemma CreatedLight(n: Node, u: string, room: string, private: bool)
    ensures var r := ApplyRoomCreated(n, u, room, private);
            r.sessions == n.sessions && r.db.users == n.db.users && r.self == n.self
  {
    var email := if u in n.db.users then n.db.users[u].email else "";
    CreateLight(n, room, private, email);
    if room in n.known { AddLight(n, n.known[room].id, email, true); }
    hide CreateRoom, AddAllow;
  }

  lemma AddLight(n: Node, id: int, email: string, creator: bool)
    ensures var r := AddAllow(n, id, email, creator);
            r.sessions == n.sessions && r.db.users == n.db.users && r.self == n.self
  {}

  lemma CreateLight(n: Node, name: string, private: bool, email: string)
    ensures var r := CreateRoom(n, name, private, email, true).0;
            r.sessions == n.sessions && r.db.users == n.db.users && r.self == n.self
  {
    var id := n.db.nextRoom;
    var made := n.(known := n.known[name := Room(id, name, private)],
                   db := n.db.(rooms := n.db.rooms[id := name], nextRoom := id + 1));
    AddLight(made, id, email, true);
    hide AddAllow;
  }

  lemma {:induction false} LightAll(m: Node, es: seq<Event>, guest: User)
    requires forall i :: 0 <= i < |es| ==> Light(es[i])
    ensures var r := ApplyAll(m, es, guest); r.sessions == m.sessions && r.db.users == m.db.users && r.self == m.self
    decreases |es|
  {
    hide ApplyEvent;
    if es != [] {
      LightIs(m, es[0], guest);
      LightAll(ApplyEvent(m, es[0], guest), es[1..], guest);
    }
  }

  lemma {:induction false} EasyMirror(n: Node, m: Node, actions: seq<Action>, guest: User)
    requires forall i :: 0 <= i < |actions| ==> Easy(actions[i])
    ensures var q := Mirror(n, m, actions, guest);
            q.sessions == m.sessions && q.db.users == m.db.users && q.self == m.self
    decreases |actions|
  {
    hide Step, ApplyAll, Emitted;
    if actions != [] {
      EasyIsLight(n, actions[0]);
      LightAll(m, Emitted(n, actions[0]), guest);
      EasyMirror(Step(n, actions[0]), ApplyAll(m, Emitted(n, actions[0]), guest), actions[1..], guest);
    }
  }

  // ---------------------------------------------------------------- ROOM_KICK

  /** An administrator at one node kicks a user who sits in General at another: that node moves the user to the Lobby,
      and the administrator's node keeps its row of General. */
  lemma KickDivides(n: Node, m: Node, k: Socket, j: Socket, root: string, ann: string, guest: User)
    requires Boot(n) && Boot(m) && n.self != m.self && n.db.users == m.db.users && n.db.allow == m.db.allow
    requires root in n.db.users && n.db.users[root].kind == ADMIN && ann in n.db.users && ann != root
    ensures var here := [DoConnect(k, guest), DoLogin(k, root, true)];
            var there := [DoConnect(j, guest), DoLogin(j, ann, true), DoRoomJoin(j, GENERAL.name)];
            var kick := DoKick(k, GENERAL.name, ann, j);
            var n1, m1 := Run(n, here), Mirror(n, m, here, guest);
            var n2, m2 := Mirror(m1, n1, there, guest), Run(m1, there);
            var r, q := Step(n2, kick), ApplyAll(m2, Emitted(n2, kick), guest);
            && AgreeTables(r, q)
            && RowAt(r, ann, GENERAL.name) == Some(m.self) && RowAt(r, ann, LOBBY.name) == None
            && RowAt(q, ann, GENERAL.name) == None && RowAt(q, ann, LOBBY.name) == Some(m.self)
  {
    var here := [DoConnect(k, guest), DoLogin(k, root, true)];
    var there := [DoConnect(j, guest), DoLogin(j, ann, true), DoRoomJoin(j, GENERAL.name)];
    var n1, m1 := Run(n, here), Mirror(n, m, here, guest);
    var n2, m2 := Mirror(m1, n1, there, guest), Run(m1, there);
    hide *;
    BothEasy(k, j, root, ann, guest);
    BootSeeds(n);
    BootSeeds(m);
    BootTwins(n, m);
    PlainFollows(n, m, here, guest);
    RunAgrees(n, m, here, guest);
    EasyMirror(n, m, here, guest);
    LogsIn(n, k, root, guest);
    SwapTwins(n1, m1);
    PlainFollows(m1, n1, there, guest);
    RunAgrees(m1, n1, there, guest);
    EasyMirror(m1, n1, there, guest);
    SwapTwins(m2, n2);
    TwinOnline(n1, m1);
    GeneralThere(n1, m1);
    SitsThere(m1, j, ann, guest);
    PlacedHere(n1, n, k, root);
    LastKick(n2, m2, m1, k, j, root, ann, guest);
  }

  lemma BothEasy(k: Socket, j: Socket, root: string, ann: string, guest: User)
    ensures var here := [DoConnect(k, guest), DoLogin(k, root, true)];
            forall i :: 0 <= i < |here| ==> Easy(here[i]) && Plain(here[i])
    ensures var there := [DoConnect(j, guest), DoLogin(j, ann, true), DoRoomJoin(j, GENERAL.name)];
            forall i :: 0 <= i < |there| ==> Easy(there[i]) && Plain(there[i])
  {}

  lemma BootSeeds(n: Node)
    requires Boot(n)
    ensures Core(n) && n.sessions == map[] && n.db.online == map[]
    ensures GENERAL.name in n.known && n.known[GENERAL.name] == GENERAL
  {
    BootCore(n);
    hide Core;
  }

  lemma TwinOnline(n: Node, m: Node)
    requires Twins(n, m)
    ensures Core(n) && Core(m) && m.db.online == n.db.online && m.db.users == n.db.users
  {
    hide Core, AgreeRooms, AgreeEntries, AgreeMessages, AgreeRows;
  }

  lemma GeneralThere(n: Node, m: Node)
    requires Twins(n, m) && GENERAL.name in n.known && n.known[GENERAL.name] == GENERAL
    ensures GENERAL.name in m.known && !m.known[GENERAL.name].private
  {
    hide Core, AgreeEntries, AgreeMessages, AgreeRows;
  }

  lemma PlacedHere(n: Node, boot: Node, k: Socket, u: string)
    requires Placed(n, boot, k, u, LOBBY.name)
    ensures k in n.sessions && n.sessions.Keys == {k} && n.sessions[k].auth && n.sessions[k].user == boot.db.users[u]
    ensures n.self == boot.self && boot.db.users[u].name == u && n.db.users == boot.db.users && n.known == n.known
  {
    hide Core, RowAt;
  }

  lemma SitsThere(n: Node, j: Socket, ann: string, guest: User)
    requires Core(n) && n.sessions == map[] && ann in n.db.users && ann !in n.db.online
    requires GENERAL.name in n.known && !n.known[GENERAL.name].private
    ensures Placed(Run(n, [DoConnect(j, guest), DoLogin(j, ann, true), DoRoomJoin(j, GENERAL.name)]), n, j, ann,
                   GENERAL.name)
  {
    var a, b, c := DoConnect(j, guest), DoLogin(j, ann, true), DoRoomJoin(j, GENERAL.name);
    assert [a, b] + [c] == [a, b, c];
    hide *;
    LogsIn(n, j, ann, guest);
    Moves(Run(n, [a, b]), n, j, ann, GENERAL.name);
    MirrorSnoc(n, n, [a, b], c, guest);
  }

  lemma LastKick(n: Node, m: Node, boot: Node, k: Socket, j: Socket, root: string, ann: string, guest: User)
    requires Twins(n, m) && Placed(m, boot, j, ann, GENERAL.name) && root != ann && n.sessions.Keys == {k}
    requires n.sessions[k].auth && n.sessions[k].user.name == root && n.sessions[k].user.kind == ADMIN
    ensures var kick := DoKick(k, GENERAL.name, ann, j);
            var r, q := Step(n, kick), ApplyAll(m, Emitted(n, kick), guest);
            && AgreeTables(r, q)
            && RowAt(r, ann, GENERAL.name) == Some(boot.self) && RowAt(r, ann, LOBBY.name) == None
            && RowAt(q, ann, GENERAL.name) == None && RowAt(q, ann, LOBBY.name) == Some(boot.self)
  {
    var kick := DoKick(k, GENERAL.name, ann, j);
    var r, q := Step(n, kick), ApplyAll(m, Emitted(n, kick), guest);
    TwinOnline(n, m);
    KickGranted(n, m, boot, k, j, root, ann);
    SwapTwins(n, m);
    TwinRows(n, m, ann, GENERAL.name);
    TwinRows(n, m, ann, LOBBY.name);
    PlacedRows(m, boot, j, ann);
    PlacedSelf(m, boot, j, ann);
    hide *;
    NodeReplication.KickIs(n, k, GENERAL.name, ann, j);
    KickStep(n, m, k, GENERAL.name, ann, j, guest);
    KickOutcome(n, k, GENERAL.name, ann, j);
    SameRowView(n, r);
    KickThere(m, ann, GENERAL.name, guest);
    LeftAt(m, q, ann, GENERAL.name);
    ShiftedToLobby(m, q, ann);
  }

  lemma PlacedSelf(n: Node, boot: Node, k: Socket, u: string)
    requires Placed(n, boot, k, u, GENERAL.name)
    ensures n.self == boot.self
  {
    hide Core, RowAt;
  }

  lemma KickGranted(n: Node, m: Node, boot: Node, k: Socket, j: Socket, root: string, ann: string)
    requires Twins(n, m) && Placed(m, boot, j, ann, GENERAL.name) && root != ann && n.sessions.Keys == {k}
    requires n.sessions[k].auth && n.sessions[k].user.name == root && n.sessions[k].user.kind == ADMIN
    ensures KickOk(n, n.sessions[k], GENERAL.name, ann) && LoggedInAs(n, ann) == {}
    ensures j !in InRoomAs(n, ann, GENERAL.name)
    ensures Possible(n, DoKick(k, GENERAL.name, ann, j)) && SitsAs(m, GENERAL.name, ann)
    ensures !(j in n.sessions && SatIn(n.sessions[j], GENERAL.name, ann))
    ensures GENERAL.name in m.known && ann in m.db.users && ann != ""
  {
  }

  lemma PlacedRows(n: Node, boot: Node, k: Socket, u: string)
    requires Placed(n, boot, k, u, GENERAL.name)
    ensures RowAt(n, u, GENERAL.name) == Some(n.self) && RowAt(n, u, LOBBY.name) == None
  {
    hide Core, RowAt;
  }

  lemma ShiftedToLobby(m: Node, q: Node, u: string)
    requires forall v, a :: RowAt(q, v, a) == Shift(RowAt(m, v, a), v, a, u, GENERAL.name, LOBBY.name, m.self)
    ensures RowAt(q, u, GENERAL.name) == None && RowAt(q, u, LOBBY.name) == Some(m.self)
  {
    hide RowAt;
  }
}
