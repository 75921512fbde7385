/** The registry of gossip peers: one entry per node id, filled by an accepted HELLO and emptied when the
    connection that brought it is torn down. */
module PeerRegistry {

  type Socket = nat
  datatype Peer = Peer(host: string, port: nat, socket: MaybeSocket)
  datatype MaybeSocket = NoSocket | On(fd: Socket)

  /** A connection handler: reading packets, or past its reading loop and about to remove its peer, or
      waiting to close. accepted are the node ids whose HELLO it got accepted. */
  datatype Phase = Reading | Ending | Closing
  datatype Handler = Handler(phase: Phase, accepted: set<string>)

  datatype Registry = Registry(
    self: string,
    peers: map<string, Peer>,
    open: set<Socket>,
    outbound: map<Socket, string>,
    handlers: map<Socket, Handler>)

  /** After start: the node's own entry, without a socket. */
  function Started(self: string, host: string, port: nat): (r: Registry)
  {
    Registry(self, map[self := Peer(host, port, NoSocket)], {}, map[], map[])
  }

  predicate CanRegister(r: Registry, id: string) { id != "" && id != r.self && id !in r.peers }

  function WithoutSocket(peers: map<string, Peer>, s: Socket): (p: map<string, Peer>)
  {
    map id | id in peers && peers[id].socket != On(s) :: peers[id]
  }

  predicate IsNodeLive(r: Registry, id: string) { id in r.peers && r.peers[id].socket != NoSocket }

  datatype Action =
    | Accept(s: Socket)
    | Dial(s: Socket, addr: string)
    | Hello(s: Socket, id: string, host: string, port: nat)
    | Hangup(s: Socket)
    | RemovePeer(s: Socket)
    | Close(s: Socket)

  predicate Enabled(r: Registry, a: Action)
  {
    match a
    case Accept(s) => s !in r.open
    case Dial(s, _) => s !in r.open
    case Hello(s, _, _, _) => s in r.handlers && r.handlers[s].phase == Reading
    case Hangup(s) => s in r.handlers && r.handlers[s].phase == Reading
    case RemovePeer(s) => s in r.handlers && r.handlers[s].phase == Ending
    case Close(s) => s in r.handlers && r.handlers[s].phase == Closing
  }

  function Step(r: Registry, a: Action): (n: Registry)
  {
    if !Enabled(r, a) then r else
    match a
    case Accept(s) => r.(open := r.open + {s}, handlers := r.handlers[s := Handler(Reading, {})])
    case Dial(s, addr) =>
      r.(open := r.open + {s}, outbound := r.outbound[s := addr], handlers := r.handlers[s := Handler(Reading, {})])
    case Hello(s, id, host, port) =>
      if CanRegister(r, id)
      then r.(peers := r.peers[id := Peer(host, port, On(s))],
              handlers := r.handlers[s := Handler(Reading, r.handlers[s].accepted + {id})])
      else r.(handlers := r.handlers[s := r.handlers[s].(phase := Ending)])
    case Hangup(s) => r.(handlers := r.handlers[s := r.handlers[s].(phase := Ending)])
    case RemovePeer(s) =>
      r.(peers := WithoutSocket(r.peers, s), outbound := r.outbound - {s},
         handlers := r.handlers[s := r.handlers[s].(phase := Closing)])
    case Close(s) => r.(open := r.open - {s}, handlers := r.handlers - {s})
  }

  function Run(r: Registry, actions: seq<Action>): (n: Registry)
    decreases |actions|
  {
    if actions == [] then r else Run(Step(r, actions[0]), actions[1..])
  }

  /** Handler s has an accepted HELLO from id that has not been torn down. */
  predicate Holds(r: Registry, s: Socket, id: string)
  {
    s in r.handlers && r.handlers[s].phase != Closing && id in r.handlers[s].accepted
  }

  /** The own entry stays and has no socket; open sockets are those with a handler; and an entry names a socket
      exactly when that socket's handler holds an accepted HELLO for it. */
  ghost predicate Inv(r: Registry)
  {
    && r.self in r.peers && r.peers[r.self].socket == NoSocket
    && r.open == r.handlers.Keys
    && (forall s, id :: Holds(r, s, id) ==> id != r.self && id in r.peers && r.peers[id].socket == On(s))
    && (forall id :: id in r.peers && id != r.self ==> r.peers[id].socket.On? && Holds(r, r.peers[id].socket.fd, id))
  }

  lemma StepInv(r: Registry, a: Action)
    requires Inv(r)
    ensures Inv(Step(r, a))
  {
    var n := Step(r, a);
    if Enabled(r, a) {
      match a
      case Accept(s) => Frame(r, n, s);
      case Dial(s, _) => Frame(r, n, s);
      case Hangup(s) => Frame(r, n, s);
      case Close(s) => Frame(r, n, s);
      case Hello(s, id, host, port) => if CanRegister(r, id) { Registered(r, n, s, id); } else { Frame(r, n, s); }
      case RemovePeer(s) => Removed(r, n, s);
    }
  }

  /** A step that leaves the entries alone and what every handler holds. */
  lemma Frame(r: Registry, n: Registry, s: Socket)
    requires Inv(r) && n.peers == r.peers && n.self == r.self && n.open == n.handlers.Keys
    requires forall t, id :: Holds(n, t, id) <==> Holds(r, t, id)
    ensures Inv(n)
  {
    hide Holds;
  }

  lemma Registered(r: Registry, n: Registry, s: Socket, id: string)
    requires Inv(r) && CanRegister(r, id) && s in r.handlers && r.handlers[s].phase == Reading
    requires exists host, port :: n.peers == r.peers[id := Peer(host, port, On(s))]
    requires n.self == r.self && n.open == r.open
    requires n.handlers == r.handlers[s := Handler(Reading, r.handlers[s].accepted + {id})]
    ensures Inv(n)
  {
    forall t, x ensures Holds(n, t, x) <==> Holds(r, t, x) || (t == s && x == id) {}
    assert forall t :: !Holds(r, t, id);
    hide Holds;
  }

  lemma Removed(r: Registry, n: Registry, s: Socket)
    requires Inv(r) && n.peers == WithoutSocket(r.peers, s) && n.self == r.self && n.open == r.open
    requires s in r.handlers && n.handlers == r.handlers[s := r.handlers[s].(phase := Closing)]
    ensures Inv(n)
  {
    forall t, x ensures Holds(n, t, x) <==> Holds(r, t, x) && t != s {}
    hide Holds;
  }

  lemma {:induction false} RunInv(r: Registry, actions: seq<Action>)
    requires Inv(r)
    ensures Inv(Run(r, actions))
    decreases |actions|
  {
    hide Inv, Step;
    if actions != [] {
      StepInv(r, actions[0]);
      RunInv(Step(r, actions[0]), actions[1..]);
    }
  }

  /** In every run between start and stop a node id is live exactly when some handler that has not been torn down
      had a HELLO for it accepted, and no two handlers hold the same id. */
  lemma LiveIff(self: string, host: string, port: nat, actions: seq<Action>, id: string, s: Socket, t: Socket)
    ensures var r := Run(Started(self, host, port), actions);
            && (IsNodeLive(r, id) <==> exists x :: Holds(r, x, id))
            && (Holds(r, s, id) && Holds(r, t, id) ==> s == t)
            && self in r.peers && r.peers[self].socket == NoSocket
            && forall x :: x in r.peers && x != self ==> r.peers[x].socket.On? && r.peers[x].socket.fd in r.open
  {
    var start := Started(self, host, port);
    assert Inv(start) by {
      assert forall x, i :: !Holds(start, x, i);
    }
    RunInv(start, actions);
    RunSelf(start, actions);
    hide Run, Started;
    var r := Run(start, actions);
    if IsNodeLive(r, id) { assert Holds(r, r.peers[id].socket.fd, id); }
  }

  lemma {:induction false} RunSelf(r: Registry, actions: seq<Action>)
    ensures Run(r, actions).self == r.self
    decreases |actions|
  {
    if actions != [] {
      assert Step(r, actions[0]).self == r.self;
      hide Step;
      RunSelf(Step(r, actions[0]), actions[1..]);
    }
  }

  /** A second connection for a node that already has one is rejected, and tearing the second down leaves the
      first connection's entry as it was. */
  lemma DuplicateIsHarmless(r: Registry, first: Socket, second: Socket, id: string, host: string, port: nat)
    requires Inv(r) && Holds(r, first, id) && second != first
    requires second in r.handlers && r.handlers[second].phase == Reading
    ensures var rejected := Step(r, Hello(second, id, host, port));
            var removed := Step(rejected, RemovePeer(second));
            var closed := Step(removed, Close(second));
            && rejected.handlers[second].phase == Ending
            && second !in closed.open
            && id in closed.peers && closed.peers[id] == r.peers[id] && Holds(closed, first, id)
  {
    assert id in r.peers && r.peers[id].socket == On(first);
  }

  // ---------------------------------------------------------------- the C++ routines

  class Peers {
    const nodeId: string
    var clientPeers: map<string, Peer>
    var openPeerSockets: set<Socket>
    var outboundAddrs: map<Socket, string>
    ghost var handlers: map<Socket, Handler>

    ghost function State(): (r: Registry)
      reads this
    {
      Registry(nodeId, clientPeers, openPeerSockets, outboundAddrs, handlers)
    }

    ghost predicate Valid()
      reads this
    {
      Inv(State())
    }

    constructor (id: string, host: string, port: nat)
      ensures Valid() && State() == Started(id, host, port)
    {
      nodeId := id;
      clientPeers := map[id := Peer(host, port, NoSocket)];
      openPeerSockets := {};
      outboundAddrs, handlers := map[], map[];
    }

    /** acceptLoop, for one connection. */
    method AcceptPeer(s: Socket)
      requires Valid() && s !in openPeerSockets
      modifies this
      ensures Valid() && State() == Step(old(State()), Accept(s))
      ensures clientPeers == old(clientPeers) && outboundAddrs == old(outboundAddrs)
      ensures openPeerSockets == old(openPeerSockets) + {s} && handlers == old(handlers)[s := Handler(Reading, {})]
    {
      StepInv(State(), Accept(s));
      openPeerSockets := openPeerSockets + {s};
      handlers := handlers[s := Handler(Reading, {})];
    }

    /** dialLoop, for one connection that was made. */
    method DialPeer(s: Socket, addr: string)
      requires Valid() && s !in openPeerSockets
      modifies this
      ensures Valid() && State() == Step(old(State()), Dial(s, addr))
      ensures clientPeers == old(clientPeers) && outboundAddrs == old(outboundAddrs)[s := addr]
      ensures openPeerSockets == old(openPeerSockets) + {s} && handlers == old(handlers)[s := Handler(Reading, {})]
    {
      StepInv(State(), Dial(s, addr));
      openPeerSockets := openPeerSockets + {s};
      outboundAddrs := outboundAddrs[s := addr];
      handlers := handlers[s := Handler(Reading, {})];
    }

    /** registerPeer. */
    method RegisterPeer(s: Socket, id: string, host: string, port: nat) returns (ok: bool)
      modifies this`clientPeers
      ensures ok <==> id != "" && id != nodeId && id !in old(clientPeers)
      ensures clientPeers == if ok then old(clientPeers)[id := Peer(host, port, On(s))] else old(clientPeers)
    {
      if id == "" || id == nodeId {
        return false;
      }
      if id in clientPeers {
        return false;
      }
      clientPeers := clientPeers[id := Peer(host, port, On(s))];
      return true;
    }

    /** A HELLO in handlePeer: accepted, the node is live on this very connection; refused, the registry is as before
        and the connection is about to end. */
    method HandleHello(s: Socket, id: string, host: string, port: nat) returns (ok: bool)
      requires Valid() && s in handlers && handlers[s].phase == Reading
      modifies this
      ensures Valid() && State() == Step(old(State()), Hello(s, id, host, port))
      ensures ok <==> id != "" && id != nodeId && id !in old(clientPeers)
      ensures clientPeers == if ok then old(clientPeers)[id := Peer(host, port, On(s))] else old(clientPeers)
      ensures openPeerSockets == old(openPeerSockets) && outboundAddrs == old(outboundAddrs)
      ensures handlers == old(handlers)[s := if ok then Handler(Reading, old(handlers)[s].accepted + {id})
                                             else Handler(Ending, old(handlers)[s].accepted)]
      ensures ok ==> Holds(State(), s, id) && IsNodeLive(State(), id)
    {
      StepInv(State(), Hello(s, id, host, port));
      hide Inv;
      ok := RegisterPeer(s, id, host, port);
      handlers := handlers[s := if ok then Handler(Reading, handlers[s].accepted + {id})
                           else handlers[s].(phase := Ending)];
    }

    /** The end of handlePeer: the peer is removed, then the socket is given up. Exactly the nodes this connection
        brought are live no more. */
    method EndHandler(s: Socket) returns (shouldClose: bool)
      requires Valid() && s in handlers && handlers[s].phase != Closing
      modifies this
      ensures Valid() && shouldClose && s !in openPeerSockets
      ensures var ending := old(State()).(handlers := old(handlers)[s := old(handlers)[s].(phase := Ending)]);
              State() == Step(Step(ending, RemovePeer(s)), Close(s))
      ensures forall id :: IsNodeLive(State(), id) <==> IsNodeLive(old(State()), id) && !Holds(old(State()), s, id)
      ensures clientPeers == map id | id in old(clientPeers) && old(clientPeers)[id].socket != On(s) ::
                               old(clientPeers)[id]
    {
      EndIs(State(), s);
      LiveAfterEnd(State(), s);
      hide Inv, IsNodeLive, Holds, WithoutSocket, Step;
      RemovePeerSocket(s);
      shouldClose := s in openPeerSockets;
      openPeerSockets := openPeerSockets - {s};
      handlers := handlers - {s};
    }

    /** removePeer: every entry of the socket goes, entry by entry. */
    method RemovePeerSocket(s: Socket)
      modifies this`clientPeers, this`outboundAddrs
      ensures clientPeers == WithoutSocket(old(clientPeers), s)
      ensures outboundAddrs == old(outboundAddrs) - {s}
    {
      var todo := clientPeers.Keys;
      while todo != {}
        invariant todo <= clientPeers.Keys <= old(clientPeers).Keys
        invariant forall id :: id in clientPeers ==> clientPeers[id] == old(clientPeers)[id]
        invariant forall id :: id in old(clientPeers) && id !in todo ==>
                  (id in clientPeers <==> old(clientPeers)[id].socket != On(s))
        invariant outboundAddrs == old(outboundAddrs)
        decreases |todo|
      {
        var id :| id in todo;
        if clientPeers[id].socket == On(s) {
          clientPeers := clientPeers - {id};
        }
        todo := todo - {id};
      }
      outboundAddrs := outboundAddrs - {s};
    }

    /** isNodeLive: true exactly when some connection that has not ended had its HELLO accepted. */
    method NodeLive(id: string) returns (live: bool)
      requires Valid()
      ensures live <==> IsNodeLive(State(), id)
      ensures live <==> exists s :: Holds(State(), s, id)
    {
      LiveIsHeld(State(), id);
      hide Inv;
      if id !in clientPeers {
        return false;
      }
      return clientPeers[id].socket != NoSocket;
    }
  }

  lemma LiveIsHeld(r: Registry, id: string)
    requires Inv(r)
    ensures IsNodeLive(r, id) <==> exists s :: Holds(r, s, id)
  {
    if IsNodeLive(r, id) { assert Holds(r, r.peers[id].socket.fd, id); }
  }

  /** The end of a handler, in one go. */
  lemma EndIs(r: Registry, s: Socket)
    requires Inv(r) && s in r.handlers && r.handlers[s].phase != Closing
    ensures var ending := r.(handlers := r.handlers[s := r.handlers[s].(phase := Ending)]);
            var after := Step(Step(ending, RemovePeer(s)), Close(s));
            && Inv(after) && s in r.open
            && after == Registry(r.self, WithoutSocket(r.peers, s), r.open - {s}, r.outbound - {s}, r.handlers - {s})
  {
    var ending := r.(handlers := r.handlers[s := r.handlers[s].(phase := Ending)]);
    Frame(r, ending, s);
    StepInv(ending, RemovePeer(s));
    StepInv(Step(ending, RemovePeer(s)), Close(s));
    hide Inv, Holds, WithoutSocket;
    assert s in r.open by { OpenAt(r, s); }
    assert ending.handlers[s := ending.handlers[s].(phase := Closing)] - {s} == r.handlers - {s};
  }

  lemma OpenAt(r: Registry, s: Socket)
    requires Inv(r) && s in r.handlers
    ensures s in r.open
  {}

  lemma LiveAfterEnd(r: Registry, s: Socket)
    requires Inv(r) && s in r.handlers && r.handlers[s].phase != Closing
    ensures var ending := r.(handlers := r.handlers[s := r.handlers[s].(phase := Ending)]);
            var after := Step(Step(ending, RemovePeer(s)), Close(s));
            forall id :: IsNodeLive(after, id) <==> IsNodeLive(r, id) && !Holds(r, s, id)
  {
    var ending := r.(handlers := r.handlers[s := r.handlers[s].(phase := Ending)]);
    var after := Step(Step(ending, RemovePeer(s)), Close(s));
    assert after.peers == WithoutSocket(r.peers, s);
    forall id ensures IsNodeLive(after, id) <==> IsNodeLive(r, id) && !Holds(r, s, id) {
      if IsNodeLive(r, id) { assert Holds(r, r.peers[id].socket.fd, id); }
    }
  }
}
