/** Reading packets and WebSocket frames off a connection whose bytes arrive in pieces of any size. */
module Streams {
  import opened Bytes
  import opened Seqs
  import opened PacketCodec
  import W = WebFrame
  import H = HttpHead

  /** A connected socket: chunks are the pieces in which the remaining bytes will arrive. */
  class Connection {
    var chunks: seq<bytes>

    ghost predicate Valid()
      reads this
    {
      H.IsCut(chunks)
    }

    ghost function Incoming(): (s: bytes)
      reads this
    {
      Flatten(chunks)
    }

    constructor (pieces: seq<bytes>)
      requires H.IsCut(pieces)
      ensures Valid() && chunks == pieces
    {
      chunks := pieces;
    }

    /** recv: at least one byte and at most ask, or nothing at the end of the stream. */
    method Recv(ask: nat) returns (got: bytes)
      requires Valid() && ask > 0
      modifies this
      ensures Valid() && |got| <= ask
      ensures got + Incoming() == old(Incoming())
      ensures got == [] <==> old(Incoming()) == []
      ensures (got, chunks) == H.Take(old(chunks), ask)
    {
      H.TakeKeeps(chunks, ask);
      if chunks == [] {
        return [];
      }
      var c := chunks[0];
      if |c| <= ask {
        got := c;
        chunks := chunks[1..];
      } else {
        got := c[..ask];
        chunks := [c[ask..]] + chunks[1..];
      }
    }
  }

  /** recvExact: n bytes when the stream has them, whatever the pieces. */
  method RecvExact(conn: Connection, n: nat) returns (ok: bool, buffer: bytes)
    requires conn.Valid()
    modifies conn
    ensures conn.Valid()
    ensures ok <==> |old(conn.Incoming())| >= n
    ensures ok ==> |buffer| == n && buffer + conn.Incoming() == old(conn.Incoming())
  {
    hide Flatten;
    buffer := [];
    while |buffer| < n
      invariant conn.Valid() && |buffer| <= n
      invariant buffer + conn.Incoming() == old(conn.Incoming())
      decreases n - |buffer|
    {
      var got := conn.Recv(n - |buffer|);
      if got == [] {
        assert |old(conn.Incoming())| == |buffer|;
        return false, buffer;
      }
      assert (buffer + got) + conn.Incoming() == buffer + (got + conn.Incoming());
      buffer := buffer + got;
    }
    return true, buffer;
  }

  /** The first packet of a stream and what follows it; None when there is none to be read. */
  function First(s: bytes): (r: Option<(Packet, bytes)>)
  {
    if |s| < 4 then None
    else
      var size := Word(s[0], s[1], s[2], s[3]);
      if size == 0 || size > MAX_PAYLOAD_BYTES || |s| < 4 + size then None
      else
        match Parse(s[..4 + size])
        case None => None
        case Some(p) => Some((p, s[4 + size..]))
  }

  /** readPacket. */
  method ReadPacket(conn: Connection) returns (r: Option<Packet>)
    requires conn.Valid()
    modifies conn
    ensures conn.Valid()
    ensures match First(old(conn.Incoming()))
            case None => r == None
            case Some(first) => r == Some(first.0) && conn.Incoming() == first.1
  {
    hide Flatten, Parse, Wire, Encodable;
    ghost var s := conn.Incoming();
    var ok, sizeBuf := RecvExact(conn, 4);
    if !ok {
      return None;
    }
    assert sizeBuf == s[..4] && conn.Incoming() == s[4..];
    var size := Word(sizeBuf[0], sizeBuf[1], sizeBuf[2], sizeBuf[3]);
    if size == 0 || size > MAX_PAYLOAD_BYTES {
      return None;
    }
    var payload;
    ok, payload := RecvExact(conn, size);
    if !ok {
      return None;
    }
    assert s == sizeBuf + (payload + conn.Incoming());
    assert s[..4 + size] == sizeBuf + payload && s[4 + size..] == conn.Incoming();
    r := Deserialize(sizeBuf + payload);
  }

  /** Every packet up to the first point where none can be read. */
  function Packets(s: bytes): (r: seq<Packet>)
    decreases |s|
  {
    match First(s)
    case None => []
    case Some(first) => if |first.1| < |s| then [first.0] + Packets(first.1) else []
  }

  lemma FirstShrinks(s: bytes)
    ensures First(s).Some? ==> |First(s).value.1| < |s|
  {}

  /** The read loop of a connection: the packets do not depend on how the bytes were cut into pieces. */
  method ReadAll(conn: Connection) returns (packets: seq<Packet>)
    requires conn.Valid()
    modifies conn
    ensures packets == Packets(old(conn.Incoming()))
  {
    packets := [];
    ghost var s := conn.Incoming();
    hide First;
    while true
      invariant conn.Valid()
      invariant Packets(s) == packets + Packets(conn.Incoming())
      decreases |conn.Incoming()|
    {
      FirstShrinks(conn.Incoming());
      ghost var now := conn.Incoming();
      var p := ReadPacket(conn);
      if p.None? {
        assert Packets(now) == [];
        break;
      }
      assert Packets(now) == [p.value] + Packets(conn.Incoming());
      packets := packets + [p.value];
    }
  }

  function WireAll(ps: seq<Packet>): (r: bytes)
  {
    if ps == [] then [] else Wire(ps[0]) + WireAll(ps[1..])
  }

  lemma FirstOf(p: Packet, rest: bytes)
    requires Encodable(p)
    ensures First(Wire(p) + rest) == Some((p, rest))
  {
    hide Parse, Encodable;
    var s, n := Wire(p) + rest, |Body(p)|;
    ParseWire(p);
    assert 0 < n <= MAX_PAYLOAD_BYTES by { BodyShape(p); EncodableSize(p); }
    U32Value(n);
    assert |Wire(p)| == 4 + n && s[..4 + n] == Wire(p) && s[4 + n..] == rest;
    hide U32;
    assert Wire(p)[..4] == U32(n);
  }

  lemma EncodableSize(p: Packet)
    requires Encodable(p)
    ensures |Body(p)| <= MAX_PAYLOAD_BYTES
  {}

  /** A stream of encoded packets is read back as exactly those packets, in order. */
  lemma {:induction false} PacketsOfWire(ps: seq<Packet>, rest: bytes)
    requires forall p :: p in ps ==> Encodable(p)
    ensures Packets(WireAll(ps) + rest) == ps + Packets(rest)
    decreases |ps|
  {
    hide First, Wire, Encodable;
    if ps == [] {
      assert WireAll(ps) + rest == rest;
    } else {
      var tail := WireAll(ps[1..]) + rest;
      assert WireAll(ps) + rest == Wire(ps[0]) + tail;
      assert ps[0] in ps;
      FirstOf(ps[0], tail);
      FirstShrinks(Wire(ps[0]) + tail);
      PacketsOfWire(ps[1..], rest);
      assert ps == [ps[0]] + ps[1..];
    }
  }

  // ---------------------------------------------------------------- WebSocket frames

  /** What readFrame answers on a stream: a masked frame as the decoder finds it, and Error for everything
      else. */
  function FrameAt(s: bytes): (r: W.FrameDecode)
  {
    if W.Decode(s).Ok? && s[1] >= 128 then W.Decode(s) else W.Error
  }

  class SocketBuffer {
    const conn: Connection
    var pending: bytes

    ghost predicate Valid()
      reads this, conn
    {
      conn.Valid()
    }

    /** The bytes not yet consumed: those buffered, then those still to arrive. */
    ghost function Unread(): (s: bytes)
      reads this, conn
    {
      pending + conn.Incoming()
    }

    constructor (c: Connection)
      requires c.Valid()
      ensures conn == c && pending == [] && Valid() && Unread() == c.Incoming()
    {
      conn, pending := c, [];
    }

    /** readHeaders: succeeds as HeadArrives says; then the head is everything up to the first terminator and the
        bytes after it stay unread. Nothing is lost on failure either. */
    method ReadHeaders(max: nat) returns (ok: bool, out: bytes)
      requires Valid()
      modifies this, conn
      ensures Valid()
      ensures ok <==> H.HeadArrives(old(pending), old(conn.chunks), max)
      ensures ok ==>
                var s, e := old(Unread()), H.HeadEnd(old(Unread()));
                e <= |s| && out == s[..e] && Unread() == s[e..]
      ensures !ok ==> Unread() == old(Unread())
    {
      hide Flatten, H.HeadEnd, H.Take;
      ghost var s, all := Unread(), H.HeadArrives(pending, conn.chunks, max);
      out := [];
      while H.HeadEnd(pending) > |pending|
        invariant Valid() && Unread() == s
        invariant all == H.HeadArrives(pending, conn.chunks, max)
        decreases |conn.Incoming()|
      {
        H.TakeKeeps(conn.chunks, H.ASK);
        if |pending| >= max {
          return false, [];
        }
        var got := conn.Recv(H.ASK);
        if got == [] {
          return false, [];
        }
        assert (pending + got) + conn.Incoming() == pending + (got + conn.Incoming());
        pending := pending + got;
        if |pending| > max {
          return false, [];
        }
      }
      var end := H.HeadEnd(pending);
      assert pending <= s;
      H.HeadEndPrefix(pending, s);
      out := pending[..end];
      assert pending[end..] + conn.Incoming() == s[end..];
      pending := pending[end..];
      return true, out;
    }

    /** ensure: true exactly when the stream holds that many bytes, and then they are buffered. */
    method Ensure(count: nat) returns (ok: bool)
      requires Valid()
      modifies this, conn
      ensures Valid() && Unread() == old(Unread())
      ensures ok <==> |Unread()| >= count
      ensures ok ==> |pending| >= count
      ensures old(pending) <= pending
    {
      hide Flatten;
      while |pending| < count
        invariant Valid() && Unread() == old(Unread()) && old(pending) <= pending
        decreases count - |pending|
      {
        var need := count - |pending|;
        var got := conn.Recv(if need < 4096 then need else 4096);
        if got == [] {
          return false;
        }
        assert (pending + got) + conn.Incoming() == pending + (got + conn.Incoming());
        pending := pending + got;
      }
      return true;
    }

    /** The length pre-parse: buffers a whole frame and gives its size, or gives up on a stream that holds no
        acceptable frame. */
    method BufferFrame() returns (ok: bool, total: nat)
      requires Valid()
      modifies this, conn
      ensures Valid() && Unread() == old(Unread())
      ensures !ok ==> !W.Decode(Unread()).Ok?
      ensures ok ==> 2 <= total <= |pending| && HoldsFrame(Unread(), total)
    {
      hide Flatten, W.FromBE, W.Decode, HoldsFrame, W.Declared;
      ghost var s := Unread();
      total := 0;
      ok := Ensure(2);
      if !ok {
        TooShort(s);
        return;
      }
      assert pending <= s && pending[1] == s[1];
      var code := pending[1] % 128;
      var header := 2;
      if code == 126 {
        header := header + 2;
      } else if code == 127 {
        header := header + 8;
      }
      if pending[1] >= 128 {
        header := header + 4;
      }
      assert header == W.HeaderSize(s[1]);
      ok := Ensure(header);
      if !ok {
        TooShort(s);
        return;
      }
      assert pending <= s && pending[1] == s[1];
      var length: nat := code;
      if code == 126 {
        length := W.ReadLength(pending[2..4]);
      } else if code == 127 {
        length := W.ReadLength(pending[2..10]);
      }
      DeclaredIs(pending, s);
      if length > W.MAX_FRAME {
        TooLong(s);
        return false, 0;
      }
      total := header + length;
      ok := Ensure(total);
      if !ok {
        ShortStream(s);
      } else {
        HoldsIs(s, total);
      }
    }

    /** readFrame: the answer is a function of the unread bytes alone, an accepted frame is consumed, and the
        decoder is never asked about an incomplete frame. */
    method ReadFrame() returns (d: W.FrameDecode)
      requires Valid()
      modifies this, conn
      ensures Valid()
      ensures d == FrameAt(old(Unread()))
      ensures Unread() == var s := old(Unread()); if W.Decode(s).Ok? then s[W.Decode(s).consumed..] else s
    {
      hide Flatten, W.Decode, HoldsFrame;
      ghost var s := Unread();
      var ok, total := BufferFrame();
      if !ok {
        return W.Error;
      }
      assert pending <= s;
      var front := pending[..total];
      FrontDecides(front, s);
      d := W.DecodeFrame(front);
      assert d != W.Incomplete;
      var masked := pending[1] >= 128;
      assert pending[1] == s[1];
      if d.Ok? {
        ConsumesSome(front);
        assert pending[d.consumed..] + conn.Incoming() == s[d.consumed..];
        pending := pending[d.consumed..];
        if !masked {
          return W.Error;
        }
      }
    }
  }

  /** The stream begins with a header that declares a frame of exactly this many bytes. */
  ghost predicate HoldsFrame(s: bytes, total: nat)
  {
    |s| >= 2 && |s| >= W.HeaderSize(s[1]) && total == W.HeaderSize(s[1]) + W.Declared(s)
  }

  lemma HoldsIs(s: bytes, total: nat)
    requires |s| >= 2 && |s| >= W.HeaderSize(s[1]) && total == W.HeaderSize(s[1]) + W.Declared(s)
    ensures HoldsFrame(s, total)
  {}

  lemma TooShort(s: bytes)
    requires |s| < 2 || |s| < W.HeaderSize(s[1])
    ensures !W.Decode(s).Ok?
  {
    hide W.FromBE, W.Mask;
  }

  lemma DeclaredIs(p: bytes, s: bytes)
    requires p <= s && |p| >= 2 && |p| >= W.HeaderSize(p[1])
    ensures s[1] == p[1] && |s| >= W.HeaderSize(s[1])
    ensures W.Declared(s) == if p[1] % 128 == 126 then W.FromBE(p[2..4])
            else if p[1] % 128 == 127 then W.FromBE(p[2..10]) else p[1] % 128
  {
    hide W.FromBE;
    assert s[..|p|] == p;
    W.HeaderOnly(p, s);
  }

  lemma TooLong(s: bytes)
    requires |s| >= 2 && |s| >= W.HeaderSize(s[1]) && W.Declared(s) > W.MAX_FRAME
    ensures W.Decode(s) == W.Error
  {
    hide W.FromBE, W.Mask;
  }

  lemma ShortStream(s: bytes)
    requires |s| >= 2 && W.HeaderSize(s[1]) <= |s| < W.HeaderSize(s[1]) + W.Declared(s)
    ensures !W.Decode(s).Ok?
  {
    hide W.FromBE, W.Mask;
  }

  /** A front that holds the declared frame decides what the whole stream decodes to. */
  lemma FrontDecides(front: bytes, s: bytes)
    requires front <= s && HoldsFrame(s, |front|)
    ensures W.Decode(front) != W.Incomplete && W.Decode(s) == W.Decode(front)
  {
    hide W.FromBE, W.Mask;
    assert front[1] == s[1];
    assert |front| >= W.HeaderSize(front[1]);
    W.HeaderOnly(front, s);
    W.DecodeStable(front, s) by { hide W.Declared, W.BadLength; }
  }

  /** The frames of a stream up to the first point where no masked frame is found. */
  function Frames(s: bytes): (r: seq<(W.opcode, bytes)>)
    decreases |s|
  {
    var d := FrameAt(s);
    if d.Ok? && 0 < d.consumed <= |s| then [(d.op, d.payload)] + Frames(s[d.consumed..]) else []
  }

  lemma ConsumesSome(s: bytes)
    requires W.Decode(s).Ok?
    ensures 0 < W.Decode(s).consumed <= |s|
  {
    hide W.FromBE, W.Mask;
  }

  /** Reading frames until one is refused: the result does not depend on the pieces. */
  method ReadFrames(buffer: SocketBuffer) returns (frames: seq<(W.opcode, bytes)>)
    requires buffer.Valid()
    modifies buffer, buffer.conn
    ensures frames == Frames(old(buffer.Unread()))
  {
    frames := [];
    ghost var s := buffer.Unread();
    hide FrameAt;
    while true
      invariant buffer.Valid()
      invariant Frames(s) == frames + Frames(buffer.Unread())
      decreases |buffer.Unread()|
    {
      ghost var now := buffer.Unread();
      FrameAtIs(now);
      var d := buffer.ReadFrame();
      if !d.Ok? {
        assert Frames(now) == [];
        break;
      }
      ConsumesSome(now);
      assert Frames(now) == [(d.op, d.payload)] + Frames(buffer.Unread());
      frames := frames + [(d.op, d.payload)];
    }
  }

  /** Of the frames an encoder could write, exactly the masked ones with a known opcode and within the limits are
      taken. */
  lemma TakenIffMasked(op: W.opcode, payload: bytes, key: Option<bytes>, rest: bytes)
    requires |payload| < TWO64 / 2 && (key.Some? ==> |key.value| == 4)
    ensures FrameAt(W.Frame(op, payload, key) + rest) ==
            if key.Some? && op in {1, 2, 8, 9, 10} && |payload| <= 1048580 && (op >= 8 ==> |payload| <= 125)
            then W.Ok(|W.Frame(op, payload, key)|, op, payload) else W.Error
  {
    var s := W.Frame(op, payload, key) + rest;
    assert s[1] >= 128 <==> key.Some?;
    hide W.Decode, W.Frame;
    W.DecodeFrameOf(op, payload, key, rest);
  }

  lemma FrameAtIs(s: bytes)
    ensures FrameAt(s).Ok? ==> W.Decode(s) == FrameAt(s)
  {}

  // ---------------------------------------------------------------- packets over WebSocket

  datatype Sent = Sent(packet: Packet, key: bytes)

  /** What a browser sends: each packet in one masked binary frame under its own key. */
  function FrameAll(sent: seq<Sent>): (r: bytes)
    requires forall x :: x in sent ==> |x.key| == 4
  {
    if sent == [] then []
    else
      assert sent[0] in sent;
      W.Frame(W.BINARY, Wire(sent[0].packet), Some(sent[0].key)) + FrameAll(sent[1..])
  }

  function PayloadsOf(sent: seq<Sent>): (r: seq<(W.opcode, bytes)>)
  {
    if sent == [] then [] else [(W.BINARY, Wire(sent[0].packet))] + PayloadsOf(sent[1..])
  }

  /** The frames read are exactly the frames sent, and each payload parses to the packet sent in it. */
  lemma {:induction false} FramesOfSent(sent: seq<Sent>)
    requires forall x :: x in sent ==> |x.key| == 4 && Encodable(x.packet)
    ensures Frames(FrameAll(sent)) == PayloadsOf(sent)
    ensures forall i :: 0 <= i < |sent| ==>
            |PayloadsOf(sent)| == |sent| && Parse(PayloadsOf(sent)[i].1) == Some(sent[i].packet)
    decreases |sent|
  {
    hide W.Frame, W.Decode, Parse, Wire, Encodable;
    if sent == [] {
      NoFrames();
    } else {
      var x, rest := sent[0], FrameAll(sent[1..]);
      assert x in sent;
      var f := W.Frame(W.BINARY, Wire(x.packet), Some(x.key));
      assert FrameAll(sent) == f + rest;
      ParseWire(x.packet);
      FirstFrame(x, rest);
      FramesOfSent(sent[1..]);
    }
  }

  lemma NoFrames()
    ensures Frames([]) == []
  {
    assert FrameAt([]) == W.Error;
  }

  lemma FirstFrame(x: Sent, rest: bytes)
    requires |x.key| == 4 && Encodable(x.packet)
    ensures Frames(W.Frame(W.BINARY, Wire(x.packet), Some(x.key)) + rest) == [(W.BINARY, Wire(x.packet))] + Frames(rest)
  {
    hide W.Frame, W.Decode, Wire;
    var f := W.Frame(W.BINARY, Wire(x.packet), Some(x.key));
    WireSize(x.packet);
    hide Encodable;
    W.DecodeFrameOf(W.BINARY, Wire(x.packet), Some(x.key), rest);
    MaskedFrame(x, rest);
    assert (f + rest)[|f|..] == rest;
  }

  lemma WireSize(p: Packet)
    requires Encodable(p)
    ensures |Wire(p)| <= W.MAX_FRAME
  {}

  lemma MaskedFrame(x: Sent, rest: bytes)
    requires |x.key| == 4
    ensures var f := W.Frame(W.BINARY, Wire(x.packet), Some(x.key)); |f| >= 2 && (f + rest)[1] >= 128
  {
    hide W.Mask, Wire, W.Extra;
  }
}
