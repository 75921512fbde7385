/** RECONNECT and the liveness of peers together: a user whose node is gone may come back here, and only then. */
module Takeover {
  import opened ChatNode
  import opened RoomIndex
  import opened NodeShapes
  import opened NodePackets
  import opened NodeRuns
  import opened NodeOutcomes
  import F = FailingRuns
  import R = PeerRegistry

  function LiveNodes(reg: R.Registry): (r: set<string>) { set id | id in reg.peers && R.IsNodeLive(reg, id) }

  /** A connection to that node is up: its handler has an accepted HELLO from it. */
  ghost predicate Connected(reg: R.Registry, id: string) { exists s :: R.Holds(reg, s, id) }

  lemma LiveIs(reg: R.Registry, id: string)
    requires R.Inv(reg)
    ensures id in LiveNodes(reg) <==> Connected(reg, id)
  {
    R.LiveIsHeld(reg, id);
    hide R.Inv, R.Holds;
  }

  /** A RECONNECT gives the session to the user exactly when the user is stored and online, nobody is logged in here
      with the user's email, and the presence is this node's own or no connection to its owner is up. */
  lemma TakeoverIff(n: Node, k: Socket, name: string, room: string, reg: R.Registry, guest: User)
    requires Core(n) && k in n.sessions && R.Inv(reg)
    requires !(n.sessions[k].auth && n.sessions[k].user.name == name)
    ensures var r := Reconnect(n, k, name, room, LiveNodes(reg), guest);
            k in r.sessions
            && (r.sessions[k].auth && r.sessions[k].user.name == name <==>
                && name in n.db.users && name in n.db.online
                && (forall j :: j in n.sessions && n.sessions[j].auth ==>
                    n.sessions[j].user.email != n.db.users[name].email)
                && (n.db.online[name] == n.self || !Connected(reg, n.db.online[name])))
  {
    ReconnectOutcome(n, k, name, room, LiveNodes(reg), guest);
    if name in n.db.online { LiveIs(reg, n.db.online[name]); }
    if name in n.db.users { NamedSo(n, name); }
    hide Core, R.Inv, Reconnect, Connected, LiveNodes, ResumeRoom, Rejoin, Sits;
  }

  lemma NamedSo(n: Node, name: string)
    requires Core(n) && name in n.db.users
    ensures n.db.users[name].name == name
  {
    CoreIndex(n);
    hide Core;
  }

  // ---------------------------------------------------------------- the owner dies

  /** The registry after the connection on s has ended. */
  function Ended(reg: R.Registry, s: R.Socket): (r: R.Registry)
    requires s in reg.handlers
  {
    var ending := reg.(handlers := reg.handlers[s := reg.handlers[s].(phase := R.Ending)]);
    R.Step(R.Step(ending, R.RemovePeer(s)), R.Close(s))
  }

  lemma OwnerGone(reg: R.Registry, s: R.Socket, owner: string)
    requires R.Inv(reg) && R.Holds(reg, s, owner)
    ensures s in reg.handlers && owner in LiveNodes(reg) && owner !in LiveNodes(Ended(reg, s))
  {
    LiveIs(reg, owner);
    R.LiveAfterEnd(reg, s);
    hide R.Step, R.Inv;
  }

  /** ann is online at another node, and her row of the Lobby says so; a connection is opened here. */
  lemma Elsewhere(n: Node, k: Socket, ann: string, owner: string, guest: User)
    requires Boot(n) && ann in n.db.users && owner != ""
    ensures var m := Run(n,
                         [DoPeer(LoginEvent(ann, owner), guest),
                          DoPeer(RoomJoinEvent(ann, owner, "", LOBBY.name), guest),
                             DoConnect(k, guest)]);
            && Core(m) && m.self == n.self && m.known == n.known && m.db.users == n.db.users
            && m.sessions == map[k := Session(guest, LOBBY, false)] && m.db.online == map[ann := owner]
            && m.db.membership == map[(ann, LOBBY.id) := owner]
  {
    assert n.db.online == map[] && n.db.membership == map[] && n.sessions == map[] && ann != "";
    BootCore(n);
    CoreKnown(n);
    hide *;
    var a, b, c := DoPeer(LoginEvent(ann, owner), guest), DoPeer(RoomJoinEvent(ann, owner, "", LOBBY.name), guest),
        DoConnect(k, guest);
    PeerStep(n, a.event, guest);
    FirstOnline(n, ann, owner);
    var n1 := Step(n, a);
    PeerStep(n1, b.event, guest);
    FirstRow(n1, ann, owner);
    var n2 := Step(n1, b);
    F.ConnectStep(n2, k, guest);
    F.OpenFrame(n2, k, guest);
    StepIs(n2, c) by { Unused(n2, k, guest); }
    F.RunThree(n, a, b, c);
  }

  lemma PeerStep(n: Node, e: Event, guest: User)
    requires Core(n) && (e.LoginEvent? || e.RoomJoinEvent?)
    ensures Core(Step(n, DoPeer(e, guest)))
    ensures e.LoginEvent? ==> Step(n, DoPeer(e, guest)) == ApplyLogin(n, e.user, e.node)
    ensures e.RoomJoinEvent? ==> Step(n, DoPeer(e, guest)) == ApplyRoomJoin(n, e.user, e.node, e.prev, e.room)
  {
    hide Core, Step, ApplyEvent, ApplyLogin, ApplyRoomJoin;
    StepCore(n, DoPeer(e, guest));
    StepIs(n, DoPeer(e, guest));
    ApplyEventIs(n, e, guest);
  }

  lemma Unused(n: Node, k: Socket, guest: User)
    requires k !in n.sessions
    ensures Possible(n, DoConnect(k, guest))
  {}

  lemma FirstOnline(n: Node, ann: string, owner: string)
    requires n.db.online == map[] && ann != "" && owner != ""
    ensures ApplyLogin(n, ann, owner) == n.(db := n.db.(online := map[ann := owner]))
  {}

  lemma FirstRow(n: Node, ann: string, owner: string)
    requires n.db.membership == map[] && ann in n.db.users && ann != "" && owner != "" && KnownOk(n.known)
    ensures ApplyRoomJoin(n, ann, owner, "", LOBBY.name) == n.(db := n.db.(membership := map[(ann, LOBBY.id) := owner]))
  {}

  /** The run: ann is online at another node whose connection is up, and is turned away here; the connection ends, and
      the same RECONNECT gives her the session, the presence and the row, all of which are this node's now. */
  lemma OwnerDies(n: Node, k: Socket, ann: string, reg: R.Registry, s: R.Socket, owner: string, guest: User)
    requires Boot(n) && ann in n.db.users && owner != "" && owner != n.self && R.Inv(reg) && R.Holds(reg, s, owner)
    ensures s in reg.handlers
    ensures var m := Run(n,
                         [DoPeer(LoginEvent(ann, owner), guest),
                          DoPeer(RoomJoinEvent(ann, owner, "", LOBBY.name), guest),
                             DoConnect(k, guest)]);
            var r := Step(m, DoReconnect(k, ann, "", LiveNodes(Ended(reg, s)), guest));
            && Step(m, DoReconnect(k, ann, "", LiveNodes(reg), guest)) == m
            && r.sessions == map[k := Session(n.db.users[ann], LOBBY, true)] && r.db.online == map[ann := n.self]
            && r.db.membership == map[(ann, LOBBY.id) := n.self]
  {
    Elsewhere(n, k, ann, owner, guest);
    OwnerGone(reg, s, owner);
    hide Boot, Core, Step, Run, Reconnect, LiveNodes, Ended, R.Inv, R.Holds, Sits;
    var m := Run(n, [DoPeer(LoginEvent(ann, owner), guest), DoPeer(RoomJoinEvent(ann, owner, "", LOBBY.name), guest),
                     DoConnect(k, guest)]);
    NamedSo(m, ann);
    CoreKnown(m);
    Back(m, k, ann, LiveNodes(reg), owner, guest);
    Back(m, k, ann, LiveNodes(Ended(reg, s)), owner, guest);
  }

  lemma Back(m: Node, k: Socket, ann: string, live: set<string>, owner: string, guest: User)
    requires Core(m) && m.sessions == map[k := Session(guest, LOBBY, false)] && ann in m.db.users
    requires m.db.users[ann].name == ann
    requires m.db.online == map[ann := owner] && m.db.membership == map[(ann, LOBBY.id) := owner] && owner != m.self
    requires KnownOk(m.known)
    ensures var r := Step(m, DoReconnect(k, ann, "", live, guest));
            if owner in live then r == m
            else && r.sessions == map[k := Session(m.db.users[ann], LOBBY, true)] && r.db.online == map[ann := m.self]
                 && r.db.membership == map[(ann, LOBBY.id) := m.self]
  {
    MayTake(m, k, ann, live, owner, guest);
    hide *;
    StepIs(m, DoReconnect(k, ann, "", live, guest)) by { F.PossibleHere(m, k); }
    ReconnectOutcome(m, k, ann, "", live, guest);
    if owner !in live { BackRows(m, Reconnect(m, k, ann, "", live, guest), k, m.db.users[ann], owner, guest); }
  }

  lemma MayTake(m: Node, k: Socket, ann: string, live: set<string>, owner: string, guest: User)
    requires KnownOk(m.known) && m.sessions == map[k := Session(guest, LOBBY, false)] && ann in m.db.users
    requires m.db.online == map[ann := owner] && owner != m.self
    ensures ReconnectOk(m, ann, live) <==> owner !in live
    ensures ResumeRoom(m, m.db.users[ann], "") == LOBBY.name
  {}

  lemma BackRows(m: Node, r: Node, k: Socket, u: User, owner: string, guest: User)
    requires m.sessions == map[k := Session(guest, LOBBY, false)] && LOBBY.name in m.known
    requires m.known[LOBBY.name] == LOBBY
    requires m.db.online == map[u.name := owner] && m.db.membership == map[(u.name, LOBBY.id) := owner]
    requires Resumes(m, r, k, u, LOBBY.name)
    ensures r.sessions == map[k := Session(u, LOBBY, true)] && r.db.online == map[u.name := m.self]
    ensures r.db.membership == map[(u.name, LOBBY.id) := m.self]
  {
    OnlyRowMoves(u.name, owner, m.self);
    hide Sits, Rejoin;
  }

  lemma OnlyRowMoves(u: string, owner: string, node: string)
    ensures var m: Rows := map[(u, LOBBY.id) := owner];
            Rejoin((map x | x in m :: if x.0 == u then node else m[x]), u, LOBBY.id, LOBBY.id, node)
            == map[(u, LOBBY.id) := node]
  {}
}
