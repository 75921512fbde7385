/** The server directory: the listen endpoints a node advertises to its clients, and how a client turns the
    push into its failover ring. */
module ServerDirectory {
  import opened Bytes
  import opened Seqs
  import opened Decimal
  import opened TextLists
  import opened EndpointRing

  const PREFIX: string := "endpoint("

  function Serialize(e: Endpoint): (s: string)
  {
    PREFIX + (e.nodeId + [BAR] + (e.host + [BAR] + Text(e.port))) + ")"
  }

  /** The texts around exactly two bars, the first two not empty. */
  function Parts(s: string): (r: Option<(string, string, string)>)
    ensures r.Some? ==> r.value.0 != "" && r.value.1 != "" && BAR !in r.value.0 && BAR !in r.value.1
  {
    var body :- Body(s, PREFIX);
    var (nodeId, r1) :- Cut(body);
    var (host, port) :- Cut(r1);
    if BAR in port || nodeId == "" || host == "" then None else Some((nodeId, host, port))
  }

  /** ClientEndpoint::deserialize: None where it throws. The modulus is that of unsigned long. */
  function Deserialize(s: string, ulong: nat): (r: Option<Endpoint>)
    requires ulong > 0
    ensures r.Some? ==> Live(r.value) && BAR !in r.value.nodeId && BAR !in r.value.host
  {
    var (nodeId, host, text) :- Parts(s);
    var port :- Unsigned(text, ulong);
    if port == 0 || port > 65535 then None else Some(Endpoint(nodeId, host, port))
  }

  lemma PartsOf(e: Endpoint)
    requires BAR !in e.nodeId && BAR !in e.host && e.nodeId != "" && e.host != ""
    ensures Parts(Serialize(e)) == Some((e.nodeId, e.host, Text(e.port)))
  {
    hide Body, Cut, Text;
    var r1 := e.host + [BAR] + Text(e.port);
    BodyOf(PREFIX, e.nodeId + [BAR] + r1);
    CutAt(e.nodeId, r1);
    CutAt(e.host, Text(e.port));
  }

  /** What is read as an endpoint: two texts that are not empty and a port, between exactly two bars. */
  lemma ReadEndpointIff(s: string, e: Endpoint, ulong: nat)
    requires ulong > 0
    ensures Deserialize(s, ulong) == Some(e) <==>
            exists port ::
              && s == EndpointText(e.nodeId, e.host, port) && '|' !in e.nodeId && '|' !in e.host && '|' !in port
              && e.nodeId != "" && e.host != "" && 1 <= e.port <= 65535 && Unsigned(port, ulong) == Some(e.port)
  {
    hide Body, Cut, Unsigned;
    if Deserialize(s, ulong) == Some(e) {
      var (nodeId, host, port) := Parts(s).value;
      PartsIff(s, nodeId, host, port);
    }
    forall port |
      && s == EndpointText(e.nodeId, e.host, port) && '|' !in e.nodeId && '|' !in e.host && '|' !in port
      && e.nodeId != "" && e.host != "" && 1 <= e.port <= 65535 && Unsigned(port, ulong) == Some(e.port)
      ensures Deserialize(s, ulong) == Some(e)
    {
      PartsIff(s, e.nodeId, e.host, port);
    }
  }

  function EndpointText(nodeId: string, host: string, port: string): (s: string)
  {
    "endpoint(" + nodeId + "|" + host + "|" + port + ")"
  }

  lemma PartsIff(s: string, nodeId: string, host: string, port: string)
    ensures Parts(s) == Some((nodeId, host, port)) <==>
            && s == EndpointText(nodeId, host, port) && BAR !in nodeId && BAR !in host && BAR !in port
            && nodeId != "" && host != ""
  {
    hide Body, Cut;
    var r1 := host + [BAR] + port;
    var body := nodeId + [BAR] + r1;
    assert EndpointText(nodeId, host, port) == PREFIX + body + ")";
    BodyIff(s, PREFIX, body);
    if BAR !in nodeId && BAR !in host {
      CutAt(nodeId, r1);
      CutAt(host, port);
    }
  }

  /** An endpoint survives the trip exactly when it is live and its node id and host have no bar. */
  lemma EndpointRoundTripIff(e: Endpoint, ulong: nat)
    requires ulong > 65535
    ensures Deserialize(Serialize(e), ulong) == Some(e) <==>
            e.nodeId != "" && e.host != "" && e.port != 0 && '|' !in e.nodeId && '|' !in e.host
  {
    hide Parts, Serialize, Unsigned, Text;
    if Live(e) && BAR !in e.nodeId && BAR !in e.host {
      PartsOf(e);
      UnsignedText(e.port, ulong);
      ModSmall(e.port, ulong);
    }
  }

  lemma SerializeClean(e: Endpoint)
    requires SEMI !in e.nodeId && SEMI !in e.host
    ensures SEMI !in Serialize(e) && Serialize(e) != ""
  {
    hide Text;
    assert SEMI !in Text(e.port);
    assert SEMI !in PREFIX && SEMI !in ")";
  }

  lemma TextsFrom(s: string, ulong: nat)
    requires ulong > 0 && Deserialize(s, ulong).Some? && SEMI !in s
    ensures var e := Deserialize(s, ulong).value; SEMI !in e.nodeId && SEMI !in e.host
  {
    hide Body, Cut, Unsigned;
    BodyMembers(s, PREFIX, SEMI);
    var body := Body(s, PREFIX).value;
    var (nodeId, r1) := Cut(body).value;
    assert forall c :: c in nodeId ==> c in body;
    assert forall c :: c in r1 ==> c in body;
    var (host, port) := Cut(r1).value;
    assert forall c :: c in host ==> c in r1;
  }

  function Reader(ulong: nat): (one: string -> Option<Endpoint>)
    requires ulong > 0
  {
    s => Deserialize(s, ulong)
  }

  ghost predicate CleanTexts(es: seq<Endpoint>)
  {
    forall e :: e in es ==> BAR !in e.nodeId && SEMI !in e.nodeId && BAR !in e.host && SEMI !in e.host
  }

  /** The entries a node advertises. */
  function LiveOnes(es: seq<Endpoint>): (r: seq<Endpoint>)
  {
    if es == [] then [] else (if Live(es[0]) then [es[0]] else []) + LiveOnes(es[1..])
  }

  lemma {:induction false} LiveOnesMembers(es: seq<Endpoint>)
    ensures forall e :: e in LiveOnes(es) <==> e in es && Live(e)
  {
    if es != [] {
      LiveOnesMembers(es[1..]);
      assert es == [es[0]] + es[1..];
    }
  }

  /** A client reads back exactly the live entries a node advertised, precisely when no advertised node id or
      host has a bar or a semicolon. */
  lemma DirectoryRoundTripIff(es: seq<Endpoint>, ulong: nat)
    requires ulong > 65535
    ensures ReadList(WriteList(LiveOnes(es), Serialize), Reader(ulong)) == LiveOnes(es) <==> CleanTexts(LiveOnes(es))
  {
    hide ReadList, WriteList, Serialize, Deserialize, LiveOnes;
    var live := LiveOnes(es);
    LiveOnesMembers(es);
    var text := WriteList(live, Serialize);
    if CleanTexts(live) {
      forall e | e in live
        ensures Reader(ulong)(Serialize(e)) == Some(e) && Serialize(e) != "" && SEMI !in Serialize(e) {
        EndpointRoundTripIff(e, ulong);
        SerializeClean(e);
      }
      ReadWritten(live, Serialize, Reader(ulong));
    }
    ReadIsClean(text, ulong);
  }

  /** Whatever the text, the client's directory holds live entries with clean texts only. */
  lemma ReadIsClean(text: string, ulong: nat)
    requires ulong > 0
    ensures CleanTexts(ReadList(text, Reader(ulong)))
    ensures forall e :: e in ReadList(text, Reader(ulong)) ==> Live(e)
  {
    hide ReadList, Deserialize;
    forall e | e in ReadList(text, Reader(ulong))
      ensures Live(e) && BAR !in e.nodeId && SEMI !in e.nodeId && BAR !in e.host && SEMI !in e.host
    {
      ReadFrom(text, Reader(ulong), e);
      var p :| p != "" && SEMI !in p && Reader(ulong)(p) == Some(e);
      TextsFrom(p, ulong);
    }
  }

  /** buildServerDirectoryLocked. */
  method BuildServerDirectoryLocked(peers: seq<Endpoint>) returns (out: string)
    ensures out == WriteList(LiveOnes(peers), Serialize)
  {
    hide WriteList, Serialize, LiveOnes;
    out := "";
    var i := 0;
    assert peers[..0] == [];
    WriteNone(Serialize);
    LiveSnoc(peers, 0);
    while i < |peers|
      invariant 0 <= i <= |peers|
      invariant out == WriteList(LiveOnes(peers[..i]), Serialize)
      invariant out == "" <==> LiveOnes(peers[..i]) == []
    {
      LiveSnoc(peers, i);
      if peers[i].nodeId != "" && peers[i].host != "" && peers[i].port != 0 {
        ghost var live := LiveOnes(peers[..i]);
        var more := Serialize(peers[i]);
        WriteSnoc(live + [peers[i]], |live|, Serialize);
        assert (live + [peers[i]])[..|live| + 1] == live + [peers[i]];
        assert (live + [peers[i]])[..|live|] == live;
        assert more != "" by { SerializeSome(peers[i]); }
        if out != "" {
          out := out + [SEMI];
        }
        out := out + more;
      }
      i := i + 1;
    }
    assert peers[..i] == peers;
  }

  lemma SerializeSome(e: Endpoint)
    ensures Serialize(e) != ""
  {}

  lemma {:induction false} LiveSnoc(es: seq<Endpoint>, i: nat)
    requires i <= |es|
    ensures i < |es| ==> LiveOnes(es[..i + 1]) == if Live(es[i]) then LiveOnes(es[..i]) + [es[i]] else LiveOnes(es[..i])
    ensures LiveOnes([]) == []
    decreases i
  {
    hide *;
    NoneLive();
    if i < |es| {
      LiveCons(es[..i + 1]);
      assert es[..i + 1][0] == es[0] && es[..i + 1][1..] == es[1..][..i];
      if i > 0 {
        LiveSnoc(es[1..], i - 1);
        LiveCons(es[..i]);
        assert es[..i][0] == es[0] && es[..i][1..] == es[1..][..i - 1];
      }
    }
  }

  lemma NoneLive()
    ensures LiveOnes([]) == []
  {}

  lemma LiveCons(es: seq<Endpoint>)
    requires es != []
    ensures LiveOnes(es) == (if Live(es[0]) then [es[0]] else []) + LiveOnes(es[1..])
  {}

  /** applyServerDirectoryPush: the new directory is exactly the readable pieces in order, all of them live, and
      the ring is rebuilt around the endpoint in use. */
  method ApplyServerDirectoryPush(ring: Ring, seed: seq<Point>, body: string, ulong: nat) returns (next: seq<Endpoint>)
    requires ring.Valid() && ulong > 0
    modifies ring
    ensures ring.Valid()
    ensures next == ReadList(body, Reader(ulong))
    ensures forall e :: e in next ==> Live(e)
    ensures ring.points == FirstUsable(Candidates(old(ring.Current()), seed, next))
    ensures Usable(old(ring.Current())) ==> ring.Current() == old(ring.Current())
  {
    hide ReadList, Deserialize, Find, FirstUsable, Candidates;
    next := [];
    var start := 0;
    assert body[0..] == body;
    while start <= |body|
      invariant 0 <= start <= |body|
      invariant ring.points == old(ring.points) && ring.index == old(ring.index)
      invariant ReadList(body, Reader(ulong)) == next + ReadList(body[start..], Reader(ulong))
      decreases |body| - start
    {
      ReadStep(body, start, Reader(ulong));
      var len := Find(body[start..], SEMI);
      var piece := body[start..start + len];
      if piece != "" {
        var endpoint := Deserialize(piece, ulong);
        if endpoint.Some? {
          next := next + [endpoint.value];
        }
      }
      if start + len == |body| {
        break;
      }
      start := start + len + 1;
    }
    ReadIsClean(body, ulong);
    ring.RebuildEndpoints(seed, next);
  }
}
