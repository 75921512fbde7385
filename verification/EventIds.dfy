/** Event ids: node, kind, user name, second and a running number, with dashes between them. Which ids can coincide. */
module EventIds {
  import opened Seqs
  import opened Decimal

  const DASH: char := '-'

  /** makeEventId, and the id a disconnect makes for its LOGOUT. */
  function MakeId(node: string, kind: string, user: string, time: int, number: nat): (id: string)
  {
    node + "-" + kind + "-" + user + "-" + Text(time) + "-" + Text(number)
  }

  /** What an id is made of. */
  lemma IdChars(node: string, kind: string, user: string, time: int, number: nat, c: char)
    ensures c in MakeId(node, kind, user, time, number) ==>
            c in node || c in kind || c in user || c == DASH || IsDigit(c)
    ensures |MakeId(node, kind, user, time, number)| == |node| + |kind| + |user| + 4 + |Text(time)| + |Text(number)|
  {
    hide Text;
    var a := node + "-" + kind + "-" + user;
    assert c in a ==> c in node || c in kind || c in user || c == DASH;
    var b := "-" + Text(time) + "-" + Text(number);
    assert c in b ==> c == DASH || IsDigit(c);
    assert MakeId(node, kind, user, time, number) == a + b;
  }

  // ---------------------------------------------------------------- pieces

  lemma LastDash(a: string, b: string)
    requires DASH !in b
    ensures var s := a + "-" + b;
            && s[|a|] == DASH && (forall i :: |a| < i < |s| ==> s[i] != DASH) && s[..|a|] == a && s[|a| + 1..] == b
  {
    var s := a + "-" + b;
    forall i | |a| < i < |s| ensures s[i] != DASH { assert s[i] == b[i - |a| - 1]; }
  }

  /** Texts that end in a piece without dashes are equal only piece by piece. */
  lemma LastPiece(a: string, b: string, c: string, d: string)
    requires DASH !in b && DASH !in d && a + "-" + b == c + "-" + d
    ensures a == c && b == d
  {
    LastDash(a, b);
    LastDash(c, d);
  }

  /** And so do texts that begin with one. */
  lemma FirstPiece(a: string, b: string, c: string, d: string)
    requires DASH !in a && DASH !in c && a + "-" + b == c + "-" + d
    ensures a == c && b == d
  {
    FindAt(a, DASH, b);
    FindAt(c, DASH, d);
    assert "-" == [DASH];
  }

  lemma NumberText(n: nat)
    ensures DASH !in Text(n) && Value(Digits(n)) == n && Text(n) == Digits(n)
  {
    ValueOfDigits(n);
  }

  lemma NumberIs(m: nat, n: nat)
    requires Text(m) == Text(n)
    ensures m == n
  {
    NumberText(m);
    NumberText(n);
  }

  lemma IdShape(node: string, kind: string, user: string, time: int, number: nat)
    ensures MakeId(node, kind, user, time, number)
            == (node + "-" + (kind + "-" + user)) + "-" + Text(time) + "-" + Text(number)
  {
    hide Text;
  }

  // ---------------------------------------------------------------- collisions

  /** Whatever else they are made of, ids with different numbers differ. So the ids of one counter never collide. */
  lemma NumbersDiffer(node: string, kind: string, user: string, time: int, number: nat,
                      node': string, kind': string, user': string, time': int, number': nat)
    requires MakeId(node, kind, user, time, number) == MakeId(node', kind', user', time', number')
    ensures number == number'
  {
    hide Text;
    IdShape(node, kind, user, time, number);
    IdShape(node', kind', user', time', number');
    NumberText(number);
    NumberText(number');
    LastPiece((node + "-" + (kind + "-" + user)) + "-" + Text(time), Text(number),
              (node' + "-" + (kind' + "-" + user')) + "-" + Text(time'), Text(number'));
    NumberIs(number, number');
  }

  /** What remains when numbers and seconds are taken off. */
  lemma HeadsAgree(node: string, kind: string, user: string, time: nat, number: nat,
                   node': string, kind': string, user': string, time': nat, number': nat)
    requires MakeId(node, kind, user, time, number) == MakeId(node', kind', user', time', number')
    ensures number == number' && time == time'
    ensures node + "-" + (kind + "-" + user) == node' + "-" + (kind' + "-" + user')
  {
    hide Text;
    IdShape(node, kind, user, time, number);
    IdShape(node', kind', user', time', number');
    NumberText(number);
    NumberText(number');
    NumberText(time);
    NumberText(time');
    var head, head' := node + "-" + (kind + "-" + user), node' + "-" + (kind' + "-" + user');
    LastPiece(head + "-" + Text(time), Text(number), head' + "-" + Text(time'), Text(number'));
    LastPiece(head, Text(time), head', Text(time'));
    NumberIs(number, number');
    NumberIs(time, time');
  }

  /** On one node, two ids of kinds without dashes coincide exactly when everything in them does. */
  lemma SameNodeIff(node: string, kind: string, user: string, time: nat, number: nat, kind': string, user': string,
                    time': nat, number': nat)
    requires DASH !in kind && DASH !in kind'
    ensures MakeId(node, kind, user, time, number) == MakeId(node, kind', user', time', number')
       <==> kind == kind' && user == user' && time == time' && number == number'
  {
    if MakeId(node, kind, user, time, number) == MakeId(node, kind', user', time', number') {
      hide MakeId;
      HeadsAgree(node, kind, user, time, number, node, kind', user', time', number');
      AfterPrefix(node + "-", kind + "-" + user, kind' + "-" + user');
      FirstPiece(kind, user, kind', user');
    }
  }

  lemma AfterPrefix(p: string, a: string, b: string)
    requires p + a == p + b
    ensures a == b
  {
    assert a == (p + a)[|p|..] && b == (p + b)[|p|..];
  }

  /** So the two counters of a node collide exactly in a LOGOUT of the same user, in the same second, under the same
      number: one of a packet, one of a disconnect. */
  lemma CountersCollideIff(node: string, kind: string, user: string, time: nat, number: nat, gone: string, when: nat,
                           count: nat)
    requires DASH !in kind
    ensures MakeId(node, kind, user, time, number) == MakeId(node, "LOGOUT", gone, when, count)
       <==> kind == "LOGOUT" && user == gone && time == when && number == count
  {
    hide MakeId;
    SameNodeIff(node, kind, user, time, number, "LOGOUT", gone, when, count);
  }

  /** The kinds of event a node rumors. */
  predicate SourceKind(kind: string)
  {
    || kind == "LOGIN" || kind == "RECONNECT" || kind == "LOGOUT" || kind == "USER_CREATED" || kind == "ROOM_CREATED"
    || kind == "ROOM_ACL_ADD" || kind == "ROOM_DELETED" || kind == "ROOM_KICK" || kind == "ROOM_JOIN"
    || kind == "ROOM_LEAVE" || kind == "MESSAGE"
  }

  lemma KindHasNoDash(kind: string)
    requires SourceKind(kind)
    ensures DASH !in kind
  {}

  /** One node's name is the other followed by a dash and a kind, or goes on after those with a dash. */
  predicate Extends(node: string, node': string, kind: string)
  {
    node' == node + "-" + kind || node + "-" + kind + "-" <= node'
  }

  ghost predicate Apart(node: string, node': string)
  {
    forall kind | SourceKind(kind) :: !Extends(node, node', kind) && !Extends(node', node, kind)
  }

  /** What is put into an id besides the node's name. */
  datatype Parts = Parts(kind: string, user: string, time: nat, number: nat)

  predicate Same(node: string, x: Parts, node': string, y: Parts)
  {
    && SourceKind(x.kind) && SourceKind(y.kind)
    && MakeId(node, x.kind, x.user, x.time, x.number) == MakeId(node', y.kind, y.user, y.time, y.number)
  }

  /** Two nodes can make the same id exactly when one's name goes on after the other's with a dash and a kind. */
  lemma NodesCollideIff(node: string, node': string)
    requires node != node'
    ensures (exists x, y :: Same(node, x, node', y)) <==> !Apart(node, node')
  {
    hide MakeId, SourceKind, Extends;
    if x, y :| Same(node, x, node', y) {
      SameExtends(node, x, node', y);
    }
    if !Apart(node, node') {
      var kind :| SourceKind(kind) && (Extends(node, node', kind) || Extends(node', node, kind));
      if Extends(node, node', kind) {
        var x, y := Meet(node, node', kind);
      } else {
        var y, x := Meet(node', node, kind);
        assert Same(node, x, node', y);
      }
    }
  }

  /** So the ids of nodes with names apart differ. */
  lemma NodesDiffer(node: string, x: Parts, node': string, y: Parts)
    requires node != node' && Apart(node, node')
    ensures !Same(node, x, node', y)
  {
    hide *;
    if Same(node, x, node', y) { NodesCollideIff(node, node'); }
  }

  /** Names without dashes are apart. */
  lemma PlainNodesApart(node: string, node': string)
    requires DASH !in node && DASH !in node'
    ensures Apart(node, node')
  {
    hide SourceKind, Extends;
    forall kind | SourceKind(kind) ensures !Extends(node, node', kind) && !Extends(node', node, kind) {
      if Extends(node, node', kind) { ExtendedHasDash(node, node', kind); }
      if Extends(node', node, kind) { ExtendedHasDash(node', node, kind); }
    }
  }

  lemma ExtendedHasDash(node: string, node': string, kind: string)
    requires Extends(node, node', kind)
    ensures DASH in node'
  {
    assert node'[|node|] == DASH;
  }

  lemma SameExtends(node: string, x: Parts, node': string, y: Parts)
    requires node != node' && Same(node, x, node', y)
    ensures Extends(node, node', x.kind) || Extends(node', node, y.kind)
  {
    hide MakeId, SourceKind;
    KindHasNoDash(x.kind);
    KindHasNoDash(y.kind);
    HeadsAgree(node, x.kind, x.user, x.time, x.number, node', y.kind, y.user, y.time, y.number);
    hide Extends;
    if |node| <= |node'| {
      LongerExtends(node, x.kind, x.user, node', y.kind + "-" + y.user);
    } else {
      LongerExtends(node', y.kind, y.user, node, x.kind + "-" + x.user);
    }
  }

  lemma LongerExtends(node: string, kind: string, user: string, node': string, rest: string)
    requires node != node' && |node| <= |node'| && DASH !in kind
    requires node + "-" + (kind + "-" + user) == node' + "-" + rest
    ensures Extends(node, node', kind)
  {
    var all := node' + "-" + rest;
    assert all[..|node|] == node && all[..|node'|] == node';
    assert all[|node|..] == "-" + kind + "-" + user;
    assert |node| < |node'|;
    var k := |node| + 1 + |kind|;
    assert all[..k] == node + "-" + kind;
    forall j | |node| < j < k ensures all[j] != DASH { assert all[j] == kind[j - |node| - 1]; }
    assert all[|node'|] == DASH && k <= |node'|;
    if |node'| == k {
      assert node' == all[..k];
    } else {
      assert all[..k + 1] == node + "-" + kind + "-";
    }
  }

  /** And where one extends the other, here are two such ids. */
  lemma Meet(node: string, node': string, kind: string) returns (x: Parts, y: Parts)
    requires SourceKind(kind) && Extends(node, node', kind)
    ensures Same(node, x, node', y) && Same(node', y, node, x)
  {
    hide SourceKind;
    var user := if node' == node + "-" + kind then kind + "-u"
                else node'[|node| + |kind| + 2..] + "-" + kind + "-u";
    x, y := Parts(kind, user, 0, 1), Parts(kind, "u", 0, 1);
    hide Text;
    assert node + "-" + kind + "-" + user == node' + "-" + kind + "-" + "u" by { Meeting(node, node', kind, user); }
  }

  lemma Meeting(node: string, node': string, kind: string, user: string)
    requires Extends(node, node', kind)
    requires user == if node' == node + "-" + kind then kind + "-u"
                     else node'[|node| + |kind| + 2..] + "-" + kind + "-u"
    ensures node + "-" + kind + "-" + user == node' + "-" + kind + "-" + "u"
  {
    if node' == node + "-" + kind {
      assert node + "-" + kind + "-" + user == (node + "-" + kind) + "-" + kind + "-" + "u";
    } else {
      var head := node + "-" + kind + "-";
      var tail := node'[|head|..];
      assert node' == head + tail;
      assert head + (tail + "-" + kind + "-u") == (head + tail) + "-" + kind + "-" + "u";
    }
  }

  /** With a dash in a node's name they can: the LOGIN of user LOGIN-u on n is the LOGIN of user u on n-LOGIN. */
  lemma DashedNodesCollide(time: int, number: nat)
    ensures MakeId("n", "LOGIN", "LOGIN-u", time, number) == MakeId("n-LOGIN", "LOGIN", "u", time, number)
  {
    hide Text;
    assert "n" + "-" + "LOGIN" + "-" + "LOGIN-u" == "n-LOGIN" + "-" + "LOGIN" + "-" + "u";
  }

  // ---------------------------------------------------------------- the counters

  datatype Request = Request(kind: string, user: string, time: int)

  /** The ids one counter has given out, in order. */
  function Issued(node: string, requests: seq<Request>): (ids: seq<string>)
  {
    seq(|requests|, i requires 0 <= i < |requests| =>
      MakeId(node, requests[i].kind, requests[i].user, requests[i].time, i + 1))
  }

  lemma IssuedDistinct(node: string, requests: seq<Request>)
    ensures NoDup(Issued(node, requests))
  {
    hide MakeId;
    var ids := Issued(node, requests);
    forall i, j | 0 <= i < j < |ids| ensures ids[i] != ids[j] {
      if ids[i] == ids[j] {
        NumbersDiffer(node, requests[i].kind, requests[i].user, requests[i].time, i + 1,
                      node, requests[j].kind, requests[j].user, requests[j].time, j + 1);
      }
    }
  }

  lemma IssuedNext(node: string, requests: seq<Request>, q: Request)
    ensures var id := MakeId(node, q.kind, q.user, q.time, |requests| + 1);
            Issued(node, requests + [q]) == Issued(node, requests) + [id] && id !in Issued(node, requests)
  {
    hide MakeId;
    var all := Issued(node, requests + [q]);
    IssuedDistinct(node, requests + [q]);
    forall i | 0 <= i < |requests| ensures Issued(node, requests)[i] != all[|requests|] {
      assert Issued(node, requests)[i] == all[i];
    }
  }

  /** The two counters of a node, of packets and of disconnects. */
  class IdSource {
    const nodeId: string
    var nextPresenceSeq: nat
    var dropLogoutSeq: nat
    ghost var asked: seq<Request>
    ghost var drops: seq<Request>

    ghost predicate Valid()
      reads this
    {
      && nextPresenceSeq == |asked| && dropLogoutSeq == |drops|
      && forall i :: 0 <= i < |drops| ==> drops[i].kind == "LOGOUT"
    }

    constructor (node: string)
      ensures Valid() && nodeId == node && asked == [] && drops == []
    {
      nodeId, nextPresenceSeq, dropLogoutSeq := node, 0, 0;
      asked, drops := [], [];
    }

    /** makeEventId: an id this counter has not given out before. */
    method MakeEventId(kind: string, user: string, time: int) returns (id: string)
      requires Valid()
      modifies this`nextPresenceSeq, this`asked
      ensures Valid() && asked == old(asked) + [Request(kind, user, time)]
      ensures Issued(nodeId, asked) == Issued(nodeId, old(asked)) + [id]
      ensures id !in Issued(nodeId, old(asked))
    {
      hide MakeId;
      nextPresenceSeq := nextPresenceSeq + 1;
      id := MakeId(nodeId, kind, user, time, nextPresenceSeq);
      asked := asked + [Request(kind, user, time)];
      IssuedNext(nodeId, old(asked), Request(kind, user, time));
    }

    /** The id of the LOGOUT a disconnect rumors. */
    method MakeDropId(user: string, time: int) returns (id: string)
      requires Valid()
      modifies this`dropLogoutSeq, this`drops
      ensures Valid() && drops == old(drops) + [Request("LOGOUT", user, time)]
      ensures Issued(nodeId, drops) == Issued(nodeId, old(drops)) + [id]
      ensures id !in Issued(nodeId, old(drops))
    {
      hide MakeId;
      dropLogoutSeq := dropLogoutSeq + 1;
      id := MakeId(nodeId, "LOGOUT", user, time, dropLogoutSeq);
      drops := drops + [Request("LOGOUT", user, time)];
      IssuedNext(nodeId, old(drops), Request("LOGOUT", user, time));
    }
  }
}
