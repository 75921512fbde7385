/** What an event of a peer leaves behind at a node, said about the state before and the state after without naming the
    operation; and the same for a message a client sends here. */
module PeerOutcomes {
  import opened ChatNode
  import opened RoomIndex
  import opened NodeShapes
  import opened NodePackets
  import opened NodeRuns
  import opened NodeOutcomes
  import M = NodeMessages

  /** Nothing but presence and membership rows may have changed. */
  predicate TablesOnly(n: Node, r: Node)
  {
    r == n.(db := n.db.(online := r.db.online, membership := r.db.membership))
  }

  /** The room an event names; none is the Lobby. */
  function Named(name: string): (r: string) { if name == "" then "Lobby" else name }

  function EmailOf(n: Node, u: string): (r: string) { if u in n.db.users then n.db.users[u].email else "" }

  // ---------------------------------------------------------------- presence and rows

  /** The user is online at that node, unless another node holds the presence. */
  ghost predicate ComesOnline(n: Node, r: Node, u: string, node: string)
  {
    && TablesOnly(n, r) && r.db.membership == n.db.membership
    && r.db.online == if u == "" || node == "" || (u in n.db.online && n.db.online[u] != node) then n.db.online
                      else n.db.online[u := node]
  }

  /** The user is offline and has no rows. */
  ghost predicate GoesOffline(n: Node, r: Node, u: string)
  {
    && TablesOnly(n, r)
    && if u == "" then r == n
       else r.db.online == n.db.online - {u} && RowsGo(n.db.membership, r.db.membership, u)
  }

  /** The user's row of the room is there, at that node; the row of the room left is gone. */
  ghost predicate RowMoves(n: Node, r: Node, u: string, node: string, prev: string, room: string)
  {
    && TablesOnly(n, r) && r.db.online == n.db.online
    && if u == "" || node == "" || Named(room) !in n.known then r == n
       else
         var to := n.known[Named(room)].id;
         var left := prev in n.known && prev != Named(room);
         && (forall x :: x in r.db.membership <==>
               (x == (u, to) && u in n.db.users) || (x in n.db.membership && !(left && x == (u, n.known[prev].id))))
         && (forall x :: x in r.db.membership ==>
               r.db.membership[x] == if x == (u, to) && u in n.db.users then node else n.db.membership[x])
  }

  ghost predicate RowGoes(n: Node, r: Node, u: string, room: string)
  {
    && TablesOnly(n, r) && r.db.online == n.db.online
    && if u == "" || room !in n.known then r == n
       else r.db.membership == map x | x in n.db.membership && x != (u, n.known[room].id) :: n.db.membership[x]
  }

  /** The user is online at that node with all rows; sessions of the user at any other node are guests in the Lobby. */
  ghost predicate TakenOver(n: Node, r: Node, u: string, node: string, guest: User)
  {
    if u == "" || node == "" then r == n else
    && Still(n, r) && r.db.users == n.db.users && r.db.allow == n.db.allow
    && r.db.online == n.db.online[u := node]
    && r.db.membership == (map x | x in n.db.membership :: if x.0 == u then node else n.db.membership[x])
    && r.sessions == (map k | k in n.sessions ::
                        if node != n.self && n.sessions[k].auth && n.sessions[k].user.name == u
                        then Session(guest, LOBBY, false) else n.sessions[k])
    && (forall k :: k in r.sessions ==> Sits(r.members, k, r.sessions[k].room.name))
  }

  // ---------------------------------------------------------------- users, rooms and lists

  /** The user is stored unless name or email is taken. */
  ghost predicate Stores(n: Node, r: Node, u: User)
  {
    r == if u.name == "" || u.email == "" || u.name in n.db.users
      || (exists x :: x in n.db.users && n.db.users[x].email == u.email)
         then n else n.(db := n.db.(users := n.db.users[u.name := u]))
  }

  /** The room is there, as private as its creator made it, with the creator listed. */
  ghost predicate Appears(n: Node, r: Node, u: string, name: string, private: bool)
  {
    if name == "" then r == n
    else if name in n.known then
      r == if EmailOf(n, u) == "" || (n.known[name].id, EmailOf(n, u)) in n.db.allow then n
           else n.(db := n.db.(allow := n.db.allow[(n.known[name].id, EmailOf(n, u)) := true]))
    else if name in n.db.rooms.Values then r == n
    else Creates(n, r, name, private, EmailOf(n, u))
  }

  /** The user is on the list; an entry that is there already stays as it is. */
  ghost predicate IsListed(n: Node, r: Node, u: string, name: string, creator: bool)
  {
    r == if u !in n.db.users || name !in n.known || (n.known[name].id, n.db.users[u].email) in n.db.allow then n
         else n.(db := n.db.(allow := n.db.allow[(n.known[name].id, n.db.users[u].email) := creator]))
  }

  ghost predicate Disappears(n: Node, r: Node, name: string)
  {
    if name in n.known && name != "Lobby" && name != "General" then Deletes(n, r, name) else r == n
  }

  /** The user is off the list, and whoever sat in the room as that user sits in the Lobby. */
  ghost predicate Leaves(n: Node, r: Node, u: string, name: string)
  {
    if u == "" || name !in n.known then r == n else
    var cut := if u in n.db.users then Unlisted(n, n.known[name].id, n.db.users[u].email) else n;
    && LOBBY.name in n.known
    && (forall j :: j in n.sessions && SatIn(n.sessions[j], name, u) ==>
        Enters(cut, r, j, LOBBY.name) && r.db.allow == cut.db.allow)
    && ((forall j :: j in n.sessions ==> !SatIn(n.sessions[j], name, u)) ==> r == cut)
  }

  /** A message with a new id is in the table, under the room it names, and is pushed once. */
  ghost predicate Posts(n: Node, r: Node, id: string, u: string, room: string)
  {
    r == if Named(room) in n.known && u in n.db.users && id !in n.db.messages
         then n.(db := n.db.(messages := n.db.messages[id := n.known[Named(room)].id]),
                 pushed := n.pushed + multiset{id})
         else n
  }

  ghost predicate Does(n: Node, r: Node, e: Event, guest: User)
  {
    match e
    case LoginEvent(u, node) => ComesOnline(n, r, u, node)
    case ReconnectEvent(u, node) => TakenOver(n, r, u, node, guest)
    case LogoutEvent(u) => GoesOffline(n, r, u)
    case UserCreatedEvent(u) => Stores(n, r, u)
    case RoomCreatedEvent(u, room, private) => Appears(n, r, u, room, private)
    case AclAddEvent(u, room, creator) => IsListed(n, r, u, room, creator)
    case RoomDeletedEvent(room) => Disappears(n, r, room)
    case KickEvent(u, room) => Leaves(n, r, u, room)
    case RoomJoinEvent(u, node, prev, room) => RowMoves(n, r, u, node, prev, room)
    case RoomLeaveEvent(u, room) => RowGoes(n, r, u, room)
    case MessageEvent(id, u, room) => Posts(n, r, id, u, room)
  }

  // ---------------------------------------------------------------- that the events do that

  lemma LoginDoes(n: Node, u: string, node: string)
    ensures ComesOnline(n, ApplyLogin(n, u, node), u, node)
  {}

  lemma LogoutDoes(n: Node, u: string)
    ensures GoesOffline(n, ApplyLogout(n, u), u)
  {}

  lemma JoinDoes(n: Node, u: string, node: string, prev: string, room: string)
    requires Core(n)
    ensures RowMoves(n, ApplyRoomJoin(n, u, node, prev, room), u, node, prev, room)
  {
    CoreIndex(n);
    CoreKnown(n);
    var name := Named(room);
    if u != "" && node != "" && name in n.known { JoinMoves(n, u, node, prev, room); }
  }

  lemma JoinMoves(n: Node, u: string, node: string, prev: string, room: string)
    requires IdsOk(n) && KnownOk(n.known) && u != "" && node != "" && Named(room) in n.known
    ensures RowMoves(n, ApplyRoomJoin(n, u, node, prev, room), u, node, prev, room)
  {
    var name := Named(room);
    var to, left := n.known[name].id, prev in n.known && prev != name;
    var gone := if left then n.known[prev].id else 0;
    NoNameless(n);
    if left { IdsDiffer(n, prev, name); }
    hide IdsOk, KnownOk;
    RowsShift(n.db.membership, u, left, gone, to, node, u in n.db.users);
  }

  lemma RowsShift(m: Rows, u: string, left: bool, gone: int, to: int, node: string, writes: bool)
    requires left ==> gone != to
    ensures var cleared := if left then ClearRow(m, u, gone) else m;
            var r := if writes then SetRow(cleared, u, to, node) else cleared;
            && (forall x :: x in r <==> (x == (u, to) && writes) || (x in m && !(left && x == (u, gone))))
            && (forall x :: x in r ==> r[x] == if x == (u, to) && writes then node else m[x])
  {}

  lemma LeaveDoes(n: Node, u: string, room: string)
    requires Core(n)
    ensures RowGoes(n, ApplyRoomLeave(n, u, room), u, room)
  {
    CoreIndex(n);
    hide Core, Index, Seated, UsersOk;
    NoNameless(n);
  }

  lemma NoNameless(n: Node)
    requires IdsOk(n)
    ensures "" !in n.known
  {}

  lemma ReconnectDoes(n: Node, u: string, node: string, guest: User)
    requires Core(n)
    ensures TakenOver(n, ApplyReconnect(n, u, node, guest), u, node, guest)
  {
    hide Core, InLobby, Sits;
    if u != "" && node != "" {
      var r := ApplyReconnect(n, u, node, guest);
      PeerReconnectCore(n, u, node, guest);
      hide ApplyReconnect;
      ReconnectTables(n, u, node, guest);
      forall k | k in r.sessions ensures Sits(r.members, k, r.sessions[k].room.name) { CoreSession(r, k); }
    }
  }

  lemma ReconnectTables(n: Node, u: string, node: string, guest: User)
    requires u != "" && node != ""
    ensures var r := ApplyReconnect(n, u, node, guest);
            && Still(n, r) && r.db.users == n.db.users && r.db.allow == n.db.allow
            && r.db.online == n.db.online[u := node]
            && r.db.membership == (map x | x in n.db.membership :: if x.0 == u then node else n.db.membership[x])
            && r.sessions == (map k | k in n.sessions ::
                                if node != n.self && n.sessions[k].auth && n.sessions[k].user.name == u
                                then Session(guest, LOBBY, false) else n.sessions[k])
  {
    hide InLobby;
    var placed := WithOnline(WithRows(n, MoveRows(n.db.membership, u, node)), n.db.online[u := node]);
    if node != n.self {
      SentSessions(placed, u, guest);
    } else {
      assert n.sessions == map k | k in n.sessions :: n.sessions[k];
    }
  }

  lemma SentSessions(n: Node, u: string, guest: User)
    ensures SendToLobby(n, LoggedInAs(n, u), guest).sessions
         == map k | k in n.sessions :: if n.sessions[k].auth && n.sessions[k].user.name == u
                                       then Session(guest, LOBBY, false) else n.sessions[k]
  {
    hide InLobby;
  }

  lemma UserDoes(n: Node, u: User)
    ensures Stores(n, ApplyUserCreated(n, u), u)
  {}

  lemma CreatedDoes(n: Node, u: string, name: string, private: bool)
    ensures Appears(n, ApplyRoomCreated(n, u, name, private), u, name, private)
  {}

  lemma AclDoes(n: Node, u: string, name: string, creator: bool)
    requires Core(n)
    ensures IsListed(n, ApplyAclAdd(n, u, name, creator), u, name, creator)
  {
    CoreIndex(n);
    hide Core, Index, Seated;
  }

  lemma DeletedDoes(n: Node, name: string)
    requires Core(n)
    ensures Disappears(n, ApplyRoomDeleted(n, name), name)
  {
    CoreIndex(n);
    hide Core, DeleteRoom, Deletes, Index, Seated, UsersOk;
    if Deletable(n, name) { RoomDeletes(n, name); } else { NotDeleted(n, name); }
  }

  lemma KickedDoes(n: Node, u: string, name: string)
    requires Core(n)
    ensures Leaves(n, ApplyKick(n, u, name), u, name)
  {
    KickNowhere(n, u, name);
    if u != "" && name in n.known { KickedEnters(n, u, name); }
  }

  lemma KickedEnters(n: Node, u: string, name: string)
    requires Core(n) && u != "" && name in n.known
    ensures Leaves(n, ApplyKick(n, u, name), u, name)
  {
    var cut, r := RemoveAllow(n, name, u), ApplyKick(n, u, name);
    CoreIndex(n);
    NoNameless(n);
    CutIs(n, name, u);
    CutSessions(n, name, u);
    hide *;
    KickEventIs(n, u, name);
    forall j ensures j in InRoomAs(n, u, name) <==> j in n.sessions && SatIn(n.sessions[j], name, u) {
      InRoomIs(n, u, name, j);
    }
    forall j | j in InRoomAs(n, u, name) ensures Enters(cut, r, j, LOBBY.name) && r.db.allow == cut.db.allow {
      JoinedEnters(cut, j, LOBBY.name);
      JoinedFrame(cut, j, LOBBY.name);
    }
    LeavesFrom(n, cut, r, u, name);
  }

  lemma LeavesFrom(n: Node, cut: Node, r: Node, u: string, name: string)
    requires u != "" && name in n.known && LOBBY.name in n.known
    requires cut == if u in n.db.users then Unlisted(n, n.known[name].id, n.db.users[u].email) else n
    requires forall j :: j in InRoomAs(n, u, name) <==> j in n.sessions && SatIn(n.sessions[j], name, u)
    requires cut.sessions == n.sessions && cut.known == n.known
    requires forall j :: j in InRoomAs(n, u, name) ==> Enters(cut, r, j, LOBBY.name) && r.db.allow == cut.db.allow
    requires InRoomAs(n, u, name) == {} ==> r == cut
    ensures Leaves(n, r, u, name)
  {
    hide Enters, SatIn, Unlisted;
    InRoomOpen(n, u, name);
    hide InRoomAs;
  }

  lemma InRoomOpen(n: Node, u: string, name: string)
    ensures InRoomAs(n, u, name) <= n.sessions.Keys
  {}

  lemma KickNowhere(n: Node, u: string, name: string)
    ensures u == "" || name == "" || (name !in n.known) ==> ApplyKick(n, u, name) == n
  {}

  lemma CutIs(n: Node, name: string, u: string)
    requires name in n.known
    ensures RemoveAllow(n, name, u) == if u in n.db.users then Unlisted(n, n.known[name].id, n.db.users[u].email) else n
  {}

  lemma CutSessions(n: Node, name: string, u: string)
    ensures RemoveAllow(n, name, u).sessions == n.sessions && RemoveAllow(n, name, u).known == n.known
  {}

  lemma MessageDoes(n: Node, id: string, u: string, room: string)
    requires Core(n)
    ensures Posts(n, ApplyMessage(n, id, u, room), id, u, room)
  {
    if Named(room) in n.known { CoreRoom(n, Named(room)); }
    hide Core;
  }

  /** What every event of a peer does. */
  lemma PeerOutcome(n: Node, e: Event, guest: User)
    requires Core(n)
    ensures Does(n, ApplyEvent(n, e, guest), e, guest) && Core(ApplyEvent(n, e, guest))
  {
    hide *;
    EventCore(n, e, guest);
    ApplyEventIs(n, e, guest);
    DoesIs(n, ApplyEvent(n, e, guest), e, guest);
    match e
    case LoginEvent(u, node) => LoginDoes(n, u, node);
    case ReconnectEvent(u, node) => ReconnectDoes(n, u, node, guest);
    case LogoutEvent(u) => LogoutDoes(n, u);
    case UserCreatedEvent(u) => UserDoes(n, u);
    case RoomCreatedEvent(u, room, private) => CreatedDoes(n, u, room, private);
    case AclAddEvent(u, room, creator) => AclDoes(n, u, room, creator);
    case RoomDeletedEvent(room) => DeletedDoes(n, room);
    case KickEvent(u, room) => KickedDoes(n, u, room);
    case RoomJoinEvent(u, node, prev, room) => JoinDoes(n, u, node, prev, room);
    case RoomLeaveEvent(u, room) => LeaveDoes(n, u, room);
    case MessageEvent(id, u, room) => MessageDoes(n, id, u, room);
  }

  lemma DoesIs(n: Node, r: Node, e: Event, guest: User)
    ensures Does(n, r, e, guest) <==>
            match e
            case LoginEvent(u, node) => ComesOnline(n, r, u, node)
            case ReconnectEvent(u, node) => TakenOver(n, r, u, node, guest)
            case LogoutEvent(u) => GoesOffline(n, r, u)
            case UserCreatedEvent(u) => Stores(n, r, u)
            case RoomCreatedEvent(u, room, private) => Appears(n, r, u, room, private)
            case AclAddEvent(u, room, creator) => IsListed(n, r, u, room, creator)
            case RoomDeletedEvent(room) => Disappears(n, r, room)
            case KickEvent(u, room) => Leaves(n, r, u, room)
            case RoomJoinEvent(u, node, prev, room) => RowMoves(n, r, u, node, prev, room)
            case RoomLeaveEvent(u, room) => RowGoes(n, r, u, room)
            case MessageEvent(id, u, room) => Posts(n, r, id, u, room)
  {
    hide ComesOnline, TakenOver, GoesOffline, Stores, Appears, IsListed, Disappears, Leaves, RowMoves, RowGoes, Posts;
  }

  // ---------------------------------------------------------------- a client's message

  /** A user's message with a new id is in the table, under the room the user sits in, and is pushed there once; a
      guest's leaves no trace. */
  lemma MessageOutcome(n: Node, k: Socket, id: string, text: string)
    requires Core(n) && k in n.sessions
    ensures var r, s := SendMessage(n, k, id, text), n.sessions[k];
            && Core(r)
            && r == if text != "" && s.auth && id !in n.db.messages
                    then n.(db := n.db.(messages := n.db.messages[id := s.room.id]), pushed := n.pushed + multiset{id})
                    else n
  {
    CoreSession(n, k);
    TablesCore(n, SendMessage(n, k, id, text));
    hide Core;
  }

  // ---------------------------------------------------------------- every stored message is of the room it named

  /** Step a of node m puts message id into the room with this number: a client's into the room it sits in, a peer's
      into the room it names. */
  ghost predicate Puts(m: Node, a: Action, id: string, room: int)
  {
    || (a.DoMessage? && a.id == id && a.text != "" && a.k in m.sessions && m.sessions[a.k].auth
        && room == m.sessions[a.k].room.id)
    || (a.DoPeer? && a.event.MessageEvent? && a.event.id == id && a.event.user in m.db.users
        && Named(a.event.room) in m.known && room == m.known[Named(a.event.room)].id)
  }

  lemma StepPuts(n: Node, a: Action, id: string)
    requires Core(n) && M.Ledger(n) && id in Step(n, a).db.messages
    ensures id in n.db.messages ==> Step(n, a).db.messages[id] == n.db.messages[id]
    ensures id !in n.db.messages ==> Puts(n, a, id, Step(n, a).db.messages[id])
  {
    hide Core, Step, Posts, M.Ledger;
    if !Possible(n, a) {
      NotPossible(n, a);
    } else if a.DoMessage? {
      StepIs(n, a);
      MessageOutcome(n, a.k, a.id, a.text);
    } else if a.DoPeer? && a.event.MessageEvent? {
      StepIs(n, a);
      ApplyEventIs(n, a.event, a.guest);
      MessageDoes(n, a.event.id, a.event.user, a.event.room);
      PostsIs(n, ApplyMessage(n, a.event.id, a.event.user, a.event.room), a.event.id, a.event.user, a.event.room);
    } else {
      M.StepLedger(n, a);
    }
  }

  lemma PostsIs(n: Node, r: Node, id: string, u: string, room: string)
    requires Posts(n, r, id, u, room)
    ensures forall x :: x in r.db.messages ==>
              || (x in n.db.messages && r.db.messages[x] == n.db.messages[x])
              || (x == id && x !in n.db.messages && u in n.db.users && Named(room) in n.known
                  && r.db.messages[x] == n.known[Named(room)].id)
  {}

  /** Over every run: a stored message was there before or was put by one of the steps, a client's into the room it
      sat in then, a peer's into the room it named then; it never changes rooms. */
  lemma {:induction false} RunMessageRooms(n: Node, actions: seq<Action>, id: string)
    requires Core(n) && M.Ledger(n) && id in Run(n, actions).db.messages
    ensures var room := Run(n, actions).db.messages[id];
            || (id in n.db.messages && room == n.db.messages[id])
            || exists i :: 0 <= i < |actions| && Puts(Run(n, actions[..i]), actions[i], id, room)
    decreases |actions|
  {
    hide Core, Step, Puts, M.Ledger;
    if actions != [] {
      var next := Step(n, actions[0]);
      StepCore(n, actions[0]);
      M.StepLedger(n, actions[0]);
      RunMessageRooms(next, actions[1..], id);
      var room := Run(n, actions).db.messages[id];
      if id in next.db.messages && room == next.db.messages[id] {
        StepPuts(n, actions[0], id);
        assert Run(n, actions[..0]) == n;
      } else {
        var i :| 0 <= i < |actions[1..]| && Puts(Run(next, actions[1..][..i]), actions[1..][i], id, room);
        RunLater(n, actions, i);
      }
    }
  }

  lemma RunLater(n: Node, actions: seq<Action>, i: nat)
    requires i < |actions| - 1
    ensures Run(Step(n, actions[0]), actions[1..][..i]) == Run(n, actions[..i + 1]) && actions[1..][i] == actions[i + 1]
  {
    hide Step;
    var head := actions[..i + 1];
    assert head[0] == actions[0] && head[1..] == actions[1..][..i];
    assert Run(n, head) == Run(Step(n, head[0]), head[1..]);
  }
}
