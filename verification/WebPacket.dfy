/** The browser's own implementation of the packet format, and how far it agrees with the server's. Text is
    taken as its bytes; numbers are IEEE doubles. */
module WebPacket {
  import opened Bytes
  import opened PacketCodec
  import opened Powers

  const TWO53: int := 0x20_0000_0000_0000

  // ---------------------------------------------------------------- doubles

  /** The spacing of doubles around n: the least power of two with n below 2^53 of them. */
  function Unit(n: nat, u: nat): (r: nat)
    requires u > 0
    ensures r > 0 && n < TWO53 * r
    decreases n - TWO53 * u
  {
    if n < TWO53 * u then u else Unit(n, 2 * u)
  }

  /** The double nearest to a natural number, ties to even. */
  function Round(n: nat): (r: nat)
  {
    var u := Unit(n, 1);
    var q, rest := n / u, n % u;
    if 2 * rest < u || (2 * rest == u && q % 2 == 0) then q * u else (q + 1) * u
  }

  /** Rounding changes nothing exactly on the representable numbers; below 2^53 that is all of them. */
  lemma RoundExact(n: nat)
    ensures Round(n) == n <==> n % Unit(n, 1) == 0
    ensures n < TWO53 ==> Round(n) == n
  {
    var u := Unit(n, 1);
    var q, rest := n / u, n % u;
    assert n == q * u + rest && 0 <= rest < u;
    assert (q + 1) * u == q * u + u;
  }

  /** The spacing is a power of two, and half of it would not do. */
  lemma {:induction false} UnitLeast(n: nat, k: nat) returns (j: nat)
    requires k == 0 || n >= TWO53 * Pow2(k - 1)
    ensures Unit(n, Pow2(k)) == Pow2(j) && n < TWO53 * Pow2(j) && (j == 0 || n >= TWO53 * Pow2(j - 1))
    decreases n - TWO53 * Pow2(k)
  {
    j := k;
    if n >= TWO53 * Pow2(k) { j := UnitLeast(n, k + 1); }
  }

  function Apart(a: int, b: int): (r: nat) { if a < b then b - a else a - b }

  /** No multiple of the spacing is nearer; between two equally near ones it is the even one. */
  lemma RoundNearest(n: nat, q: nat)
    ensures Round(n) % Unit(n, 1) == 0
    ensures Apart(Round(n), n) <= Apart(q * Unit(n, 1), n)
    ensures 2 * Apart(Round(n), n) == Unit(n, 1) ==> Round(n) / Unit(n, 1) % 2 == 0
  {
    hide *;
    var u := Unit(n, 1);
    var p, rest := n / u, n % u;
    RoundIs(n);
    Multiple(p, u);
    Multiple(p + 1, u);
    Around(n, u, p, rest, q);
    Nearest(n, u, p, rest, p * u, (p + 1) * u, q * u, Round(n));
  }

  lemma Around(n: nat, u: nat, p: nat, rest: nat, q: nat)
    requires u > 0 && p == n / u && rest == n % u
    ensures n == p * u + rest && rest < u && (p + 1) * u == p * u + u && (q * u <= p * u || (p + 1) * u <= q * u)
  {
    if q <= p { Scaled(q, p, u); } else { Scaled(p + 1, q, u); }
  }

  lemma Nearest(n: nat, u: nat, p: nat, rest: nat, below: nat, above: nat, x: nat, r: nat)
    requires n == below + rest && rest < u && above == below + u && (x <= below || above <= x)
    requires r == if 2 * rest < u || (2 * rest == u && p % 2 == 0) then below else above
    ensures Apart(r, n) <= Apart(x, n)
    ensures 2 * Apart(r, n) == u ==> r == if p % 2 == 0 then below else above
  {}

  lemma RoundIs(n: nat)
    ensures var u := Unit(n, 1);
            var p, rest := n / u, n % u;
            Round(n) == if 2 * rest < u || (2 * rest == u && p % 2 == 0) then p * u else (p + 1) * u
  {}

  lemma Scaled(a: nat, b: nat, u: nat)
    requires a <= b
    ensures a * u <= b * u
  {}

  lemma Multiple(m: nat, u: nat)
    requires u > 0
    ensures m * u % u == 0 && m * u / u == m
  {
    var d, rest := m * u / u, m * u % u;
    assert m * u == d * u + rest && 0 <= rest < u && (d + 1) * u == d * u + u && (m + 1) * u == m * u + u;
    if d < m { Scaled(d + 1, m, u); }
    if d > m { Scaled(m + 1, d, u); }
  }

  // ---------------------------------------------------------------- reading

  datatype JsPacket = JsPacket(
    kind: byte, timestamp: nat, responseCode: u32, sender: bytes, receiver: bytes, room: bytes, message: bytes)

  function ReadU32(data: bytes, offset: nat): (r: Option<(u32, nat)>)
  {
    if offset + 4 > |data| then None
    else Some((Word(data[offset], data[offset + 1], data[offset + 2], data[offset + 3]), offset + 4))
  }

  function ReadU64(data: bytes, offset: nat): (r: Option<(nat, nat)>)
  {
    var (high, o1) :- ReadU32(data, offset);
    var (low, o2) :- ReadU32(data, o1);
    Some((Round(high * TWO32 + low), o2))
  }

  function ReadString(data: bytes, offset: nat): (r: Option<(bytes, nat)>)
  {
    var (length, o1) :- ReadU32(data, offset);
    if o1 + length > |data| then None else Some((data[o1..o1 + length], o1 + length))
  }

  lemma ReadsAgree(data: bytes, offset: nat)
    requires offset <= |data|
    ensures match ReadU32(data, offset)
            case None => TakeU32(data[offset..]) == None
            case Some(x) => x.1 <= |data| && TakeU32(data[offset..]) == Some((x.0, data[x.1..]))
    ensures match ReadString(data, offset)
            case None => TakeField(data[offset..]) == None
            case Some(x) => x.1 <= |data| && TakeField(data[offset..]) == Some((x.0, data[x.1..]))
  {
    var t := data[offset..];
    if offset + 4 <= |data| {
      assert t[4..] == data[offset + 4..];
      var length := TakeU32(t).value.0;
      if offset + 4 + length <= |data| {
        assert data[offset + 4..][..length] == data[offset + 4..offset + 4 + length];
        assert data[offset + 4..][length..] == data[offset + 4 + length..];
      }
    }
  }

  /** What the browser takes a frame for. */
  function JsParse(s: bytes): (r: Option<JsPacket>)
  {
    var (size, body) :- TakeU32(s);
    if |s| != 4 + size || |s| <= 4 then None
    else
      var (timestamp, s1) :- TakeU64(body[1..]);
      var (code, s2) :- TakeU32(s1);
      var (texts, rest) :- TakeFields(s2, 4);
      if rest != [] then None
      else Some(JsPacket(body[0], Round(timestamp), code, texts[0], texts[1], texts[2], texts[3]))
  }

  /** A packet as the browser holds it. */
  function JsOf(p: Packet): (r: JsPacket)
  {
    JsPacket(p.kind, Round(p.timestamp), ToUnsigned(p.responseCode), p.sender, p.receiver, p.room, p.message)
  }

  /** The server accepts exactly what the browser accepts with a known type and within the size cap, and both
      read the same fields; the timestamp up to rounding, the response code up to its sign. */
  lemma DecodersAgree(s: bytes)
    ensures Parse(s).Some? <==> JsParse(s).Some? && ValidKind(JsParse(s).value.kind) && |s| <= 4 + MAX_PAYLOAD_BYTES
    ensures Parse(s).Some? ==> JsParse(s) == Some(JsOf(Parse(s).value))
  {
    hide TakeU32, TakeU64, TakeFields, Round;
    TakeU32Size(s);
  }

  lemma TakeU32Size(s: bytes)
    ensures TakeU32(s).Some? ==> TakeU32(s).value.1 == s[4..] && |s| >= 4
  {}

  /** Timestamps below 2^53 and response codes that are not negative come through unchanged. */
  lemma SameFields(p: Packet)
    ensures p.timestamp < TWO53 ==> JsOf(p).timestamp == p.timestamp
    ensures JsOf(p).timestamp == p.timestamp <==> p.timestamp % Unit(p.timestamp, 1) == 0
    ensures JsOf(p).responseCode == p.responseCode <==> p.responseCode >= 0
  {
    hide Round, Unit;
    RoundExact(p.timestamp);
  }

  /** The browser takes every frame of this layout, whatever its type and size. */
  lemma JsReads(kind: byte, time: u64, code: u32, sender: bytes, receiver: bytes, room: bytes, message: bytes)
    requires var texts := [sender, receiver, room, message];
             && (forall v :: v in texts ==> |v| < TWO32) && |[kind] + (U64(time) + (U32(code) + Fields(texts)))| < TWO32
    ensures var body := [kind] + (U64(time) + (U32(code) + Fields([sender, receiver, room, message])));
            JsParse(U32(|body|) + body) == Some(JsPacket(kind, Round(time), code, sender, receiver, room, message))
  {
    hide TakeU32, TakeU64, TakeFields, Round, U32, U64, Fields;
    var texts := [sender, receiver, room, message];
    var s2 := Fields(texts);
    var s1 := U32(code) + s2;
    var s0 := U64(time) + s1;
    var body := [kind] + s0;
    TakeU32Of(|body|, body);
    TakeU64Of(time, s1);
    TakeU32Of(code, s2);
    TakeFieldsOf(texts, []);
    assert s2 + [] == s2 && body[1..] == s0;
    assert |U32(|body|)| == 4;
  }

  /** decodePacket. */
  method DecodePacket(data: bytes) returns (r: Option<JsPacket>)
    ensures r == JsParse(data)
  {
    hide TakeU32, TakeFields, ReadU32, ReadFour, Round;
    ReadsAgree(data, 0);
    assert data[0..] == data;
    var size := ReadU32(data, 0);
    if size.None? {
      return None;
    }
    var declared: int := size.value.0;
    if |data| != 4 + declared {
      return None;
    }
    var offset := 4;
    if offset >= |data| {
      return None;
    }
    assert size.value.1 == 4 by { OffsetFour(data); }
    var kind := data[offset];
    offset := offset + 1;
    assert data[4..][1..] == data[5..];
    ReadsAgree(data, 5);
    var timestamp := ReadU64(data, offset);
    if timestamp.None? {
      SecondWord(data);
      return None;
    }
    SecondWord(data);
    var code := ReadU32(data, timestamp.value.1);
    ReadsAgree(data, timestamp.value.1);
    if code.None? {
      return None;
    }
    ReadFourAgrees(data, code.value.1);
    var texts := ReadFour(data, code.value.1);
    if texts.None? || texts.value.1 != |data| {
      return None;
    }
    var four := texts.value.0;
    return Some(JsPacket(kind, timestamp.value.0, code.value.0, four[0], four[1], four[2], four[3]));
  }

  lemma OffsetFour(data: bytes)
    requires |data| >= 4
    ensures ReadU32(data, 0).Some? && ReadU32(data, 0).value.1 == 4
  {}

  lemma SecondWord(data: bytes)
    requires |data| >= 5
    ensures match ReadU64(data, 5)
            case None => TakeU64(data[5..]) == None
            case Some(x) => x.1 <= |data| && exists v :: TakeU64(data[5..]) == Some((v, data[x.1..])) && x.0 == Round(v)
  {
    hide ReadU32, TakeU32, Round;
    ReadsAgree(data, 5);
    if ReadU32(data, 5).Some? {
      ReadsAgree(data, ReadU32(data, 5).value.1);
    }
  }

  /** Sender, receiver, room and message, each read where the one before it ended. */
  function ReadFour(data: bytes, offset: nat): (r: Option<(seq<bytes>, nat)>)
  {
    var (sender, o1) :- ReadString(data, offset);
    var (receiver, o2) :- ReadString(data, o1);
    var (room, o3) :- ReadString(data, o2);
    var (message, o4) :- ReadString(data, o3);
    Some(([sender, receiver, room, message], o4))
  }

  lemma ReadFourAgrees(data: bytes, offset: nat)
    requires offset <= |data|
    ensures match ReadFour(data, offset)
            case None => TakeFields(data[offset..], 4) == None
            case Some(x) => x.1 <= |data| && TakeFields(data[offset..], 4) == Some((x.0, data[x.1..]))
  {
    hide ReadString, TakeField;
    FieldsStep(data, offset, 3);
    if ReadString(data, offset).Some? {
      var o1 := ReadString(data, offset).value.1;
      FieldsStep(data, o1, 2);
      if ReadString(data, o1).Some? {
        var o2 := ReadString(data, o1).value.1;
        FieldsStep(data, o2, 1);
        if ReadString(data, o2).Some? {
          var o3 := ReadString(data, o2).value.1;
          FieldsStep(data, o3, 0);
          if ReadString(data, o3).Some? {
            var o4 := ReadString(data, o3).value.1;
            assert TakeFields(data[o4..], 0) == Some(([], data[o4..]));
            var (a, b, c, d) := (ReadString(data, offset).value.0, ReadString(data, o1).value.0,
                                 ReadString(data, o2).value.0, ReadString(data, o3).value.0);
            assert [a] + ([b] + ([c] + ([d] + []))) == [a, b, c, d];
          }
        }
      }
    }
    hide TakeFields;
  }

  lemma FieldsStep(data: bytes, offset: nat, n: nat)
    requires offset <= |data|
    ensures match ReadString(data, offset)
            case None => TakeFields(data[offset..], n + 1) == None
            case Some(x) => x.1 <= |data| && (match TakeFields(data[x.1..], n)
                            case None => TakeFields(data[offset..], n + 1) == None
                            case Some(y) => TakeFields(data[offset..], n + 1) == Some(([x.0] + y.0, y.1)))
    ensures TakeFields(data[offset..], 0) == Some(([], data[offset..]))
  {
    hide ReadString, TakeField;
    ReadsAgree(data, offset);
  }

  // ---------------------------------------------------------------- writing

  /** The packet an encodePacket call describes. */
  function Described(kind: int, code: int, now: u64, sender: bytes, receiver: bytes, room: bytes,
                     message: bytes): (p: Packet)
  {
    Packet(kind % 256, sender, receiver, room, message, now, ToSigned(code % TWO32))
  }

  /** encodePacket writes the server's encoding of that packet, with no check of type or size. */
  method EncodePacket(kind: int, code: int, now: u64, sender: bytes, receiver: bytes, room: bytes, message: bytes)
    returns (framed: bytes)
    requires now < TWO53
    ensures framed == Wire(Described(kind, code, now, sender, receiver, room, message))
    ensures var p := Described(kind, code, now, sender, receiver, room, message);
            Parse(framed) == if Encodable(p) then Some(p) else None
  {
    ghost var p := Described(kind, code, now, sender, receiver, room, message);
    var payload: bytes := [kind % 256];
    payload := AppendU32BE(payload, now / TWO32);
    payload := AppendU32BE(payload, now % TWO32);
    payload := AppendU32BE(payload, code % TWO32);
    ghost var head := payload;
    assert head == [p.kind] + U64(p.timestamp) + U32(ToUnsigned(p.responseCode)) by { hide U32; }
    payload := AppendLenPrefixed(payload, sender);
    payload := AppendLenPrefixed(payload, receiver);
    payload := AppendLenPrefixed(payload, room);
    payload := AppendLenPrefixed(payload, message);
    hide U32, Field;
    assert payload == Body(p) by {
      FieldsOfFour(sender, receiver, room, message);
      hide Fields;
      assert payload == head + (Field(sender) + Field(receiver) + Field(room) + Field(message));
    }
    hide Body, Fields;
    framed := AppendU32BE([], |payload|);
    framed := framed + payload;
    ParseExactly(p);
  }

  lemma ParseExactly(p: Packet)
    ensures Parse(Wire(p)) == if Encodable(p) then Some(p) else None
  {
    hide Parse, Wire, Encodable;
    if Parse(Wire(p)).Some? {
      var q := Parse(Wire(p)).value;
      ParseIffWire(Wire(p), q);
      WireSame(p, q);
    }
    ParseIffWire(Wire(p), p);
  }

  /** Two packets with the same encoding, one of them encodable, are the same packet. */
  lemma WireSame(p: Packet, q: Packet)
    requires Wire(p) == Wire(q) && Encodable(q)
    ensures Encodable(p)
  {
    assert |Wire(p)| == |Wire(q)|;
    assert |Body(p)| == |Body(q)|;
    assert Body(p) == Wire(p)[4..] && Body(q) == Wire(q)[4..];
    assert Body(p)[0] == p.kind && Body(q)[0] == q.kind;
  }
}
