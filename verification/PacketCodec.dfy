/** The packet wire format: [u32 size][u8 type][u64 timestamp][u32 response code] and four
    length-prefixed strings, at most 1 MiB after the size word. */
module PacketCodec {
  import opened Bytes

  const MAX_PAYLOAD_BYTES: nat := 1024 * 1024

  const GOSSIP_EVENT: byte := 9
  const GOSSIP_DIGEST: byte := 10
  const GOSSIP_PULL: byte := 11
  const LAST_TYPE: byte := 20

  datatype Packet = Packet(
    kind: byte, sender: bytes, receiver: bytes, room: bytes, message: bytes,
    timestamp: u64, responseCode: i32)

  predicate ValidKind(kind: byte) { kind <= LAST_TYPE }

  function Texts(p: Packet): (r: seq<bytes>)
  {
    [p.sender, p.receiver, p.room, p.message]
  }

  /** The unsigned image of a 32-bit response code, and back. */
  function ToUnsigned(code: i32): (r: u32) { if code < 0 then code + TWO32 else code }
  function ToSigned(code: u32): (r: i32)
    ensures ToUnsigned(r) == code
  {
    if code < 0x8000_0000 then code else code - TWO32
  }

  function Body(p: Packet): (r: bytes)
  {
    [p.kind] + U64(p.timestamp) + U32(ToUnsigned(p.responseCode)) + Fields(Texts(p))
  }

  predicate Encodable(p: Packet)
  {
    ValidKind(p.kind) && |Body(p)| <= MAX_PAYLOAD_BYTES
  }

  function Wire(p: Packet): (r: bytes)
  {
    U32(|Body(p)|) + Body(p)
  }

  /** What the bytes after the size word stand for. */
  function ParseBody(s: bytes): (r: Option<Packet>)
  {
    if s == [] || !ValidKind(s[0]) then None
    else
      var (timestamp, s1) :- TakeU64(s[1..]);
      var (code, s2) :- TakeU32(s1);
      var (texts, rest) :- TakeFields(s2, 4);
      if rest != [] then None
      else Some(Packet(s[0], texts[0], texts[1], texts[2], texts[3], timestamp, ToSigned(code)))
  }

  /** What a complete frame stands for. */
  function Parse(s: bytes): (r: Option<Packet>)
  {
    var (size, body) :- TakeU32(s);
    if size == 0 || size > MAX_PAYLOAD_BYTES || |s| != 4 + size then None else ParseBody(body)
  }

  lemma BodyShape(p: Packet)
    ensures Body(p) == [p.kind] + (U64(p.timestamp) + (U32(ToUnsigned(p.responseCode)) + Fields(Texts(p))))
    ensures |Body(p)| >= 13
    ensures Encodable(p) ==> forall v :: v in Texts(p) ==> |v| <= MAX_PAYLOAD_BYTES
  {
    var vs := Texts(p);
    assert Fields(vs) == Field(vs[0]) + Fields(vs[1..]);
    assert Fields(vs[1..]) == Field(vs[1]) + Fields(vs[1..][1..]);
    assert vs[1..][1..] == vs[2..];
    assert Fields(vs[2..]) == Field(vs[2]) + Fields(vs[2..][1..]);
    assert vs[2..][1..] == vs[3..];
    assert Fields(vs[3..]) == Field(vs[3]) + Fields([]);
  }

  // ---------------------------------------------------------------- the layout

  /** The number four bytes stand for, most significant first, and eight. */
  function Four(s: bytes, i: nat): (v: nat)
    requires i + 4 <= |s|
  {
    0x100_0000 * s[i] as nat + 0x1_0000 * s[i + 1] as nat + 0x100 * s[i + 2] as nat + s[i + 3] as nat
  }

  /** At position i there is the length of v, then v. */
  predicate Holds(s: bytes, i: nat, v: bytes)
  {
    i + 4 + |v| <= |s| && Four(s, i) == |v| && s[i + 4..i + 4 + |v|] == v
  }

  lemma FourOf(v: nat, s: bytes, i: nat)
    requires v < TWO32 && i + 4 <= |s| && s[i..i + 4] == U32(v)
    ensures Four(s, i) == v
  {
    U32Value(v);
    hide U32;
    var f := s[i..i + 4];
    assert s[i] == f[0] && s[i + 1] == f[1] && s[i + 2] == f[2] && s[i + 3] == f[3];
  }

  lemma Piece(s: bytes, i: nat, x: bytes, rest: bytes)
    requires i <= |s| && s[i..] == x + rest
    ensures i + |x| <= |s| && s[i..i + |x|] == x && s[i + |x|..] == rest
  {
    assert s[i..][..|x|] == x && s[i..][|x|..] == rest;
  }

  /** From position i on there are these texts, each behind its length, and nothing else. */
  predicate HoldsAll(s: bytes, i: nat, vs: seq<bytes>)
    decreases |vs|
  {
    if vs == [] then i == |s| else Holds(s, i, vs[0]) && HoldsAll(s, i + 4 + |vs[0]|, vs[1..])
  }

  lemma {:induction false} FieldsLayout(s: bytes, i: nat, vs: seq<bytes>)
    requires i <= |s| && s[i..] == Fields(vs) && forall v :: v in vs ==> |v| < TWO32
    ensures HoldsAll(s, i, vs)
    decreases |vs|
  {
    hide *;
    if vs == [] {
      HoldsNone(s, i);
    } else {
      var v, rest := vs[0], Fields(vs[1..]);
      assert v in vs && forall x :: x in vs[1..] ==> x in vs;
      FieldsCons(vs);
      Piece(s, i, U32(|v|), v + rest);
      Piece(s, i + 4, v, rest);
      FourOf(|v|, s, i);
      FieldsLayout(s, i + 4 + |v|, vs[1..]);
      HoldsCons(s, i, vs);
    }
  }

  lemma HoldsNone(s: bytes, i: nat)
    requires i <= |s| && s[i..] == Fields([])
    ensures HoldsAll(s, i, [])
  {}

  lemma FieldsCons(vs: seq<bytes>)
    requires vs != []
    ensures Fields(vs) == U32(|vs[0]|) + (vs[0] + Fields(vs[1..]))
  {
    hide U32;
  }

  lemma HoldsCons(s: bytes, i: nat, vs: seq<bytes>)
    requires vs != [] && i + 4 + |vs[0]| <= |s| && Four(s, i) == |vs[0]| && s[i + 4..i + 4 + |vs[0]|] == vs[0]
    requires HoldsAll(s, i + 4 + |vs[0]|, vs[1..])
    ensures HoldsAll(s, i, vs)
  {}

  /** Where everything is in an encoded packet. */
  lemma WireLayout(p: Packet)
    requires Encodable(p)
    ensures var w := Wire(p);
            && |w| >= 17 && Four(w, 0) == |w| - 4 && w[4] == p.kind
            && Four(w, 5) * TWO32 + Four(w, 9) == p.timestamp
            && Four(w, 13) == (if p.responseCode < 0 then p.responseCode + TWO32 else p.responseCode)
            && HoldsAll(w, 17, [p.sender, p.receiver, p.room, p.message])
  {
    BodyShape(p);
    WireHead(p);
    hide Body, Wire, U32, U64, Four, HoldsAll, Fields;
    var w, high, low, code := Wire(p), p.timestamp / TWO32, p.timestamp % TWO32, ToUnsigned(p.responseCode);
    HeadPieces(w, U32(|Body(p)|), [p.kind], U32(high), U32(low), U32(code), Fields(Texts(p)));
    FourOf(|Body(p)|, w, 0);
    FourOf(high, w, 5);
    FourOf(low, w, 9);
    FourOf(code, w, 13);
    FieldsLayout(w, 17, Texts(p));
  }

  lemma WireHead(p: Packet)
    ensures Wire(p) == U32(|Body(p)|) + Body(p) && |Wire(p)| == 4 + |Body(p)|
    ensures Wire(p) == U32(|Body(p)|) + ([p.kind] + (U32(p.timestamp / TWO32) + (U32(p.timestamp % TWO32)
                         + (U32(ToUnsigned(p.responseCode)) + Fields(Texts(p))))))
  {
    BodyShape(p);
    assert U64(p.timestamp) == U32(p.timestamp / TWO32) + U32(p.timestamp % TWO32);
    hide U32, Fields, Body, ToUnsigned, U64;
    Associate(U32(p.timestamp / TWO32), U32(p.timestamp % TWO32), U32(ToUnsigned(p.responseCode)) + Fields(Texts(p)));
  }

  lemma Associate(a: bytes, b: bytes, c: bytes)
    ensures (a + b) + c == a + (b + c)
  {}

  lemma HeadPieces(w: bytes, size: bytes, kind: bytes, high: bytes, low: bytes, code: bytes, texts: bytes)
    requires |size| == |high| == |low| == |code| == 4 && |kind| == 1
    requires w == size + (kind + (high + (low + (code + texts))))
    ensures |w| >= 17 && w[0..4] == size && w[4] == kind[0] && w[5..9] == high && w[9..13] == low && w[13..17] == code
    ensures w[17..] == texts
  {
    assert w[0..] == w;
    Piece(w, 0, size, kind + (high + (low + (code + texts))));
    Piece(w, 4, kind, high + (low + (code + texts)));
    assert w[4..5][0] == w[4];
    Piece(w, 5, high, low + (code + texts));
    Piece(w, 9, low, code + texts);
    Piece(w, 13, code, texts);
  }

  lemma ParseBodyOf(p: Packet)
    requires Encodable(p)
    ensures ParseBody(Body(p)) == Some(p)
  {
    hide U32, TakeU32, Fields, TakeFields;
    BodyShape(p);
    var tail := Fields(Texts(p));
    var s2 := U32(ToUnsigned(p.responseCode)) + tail;
    assert Body(p)[1..] == U64(p.timestamp) + s2;
    TakeU64Of(p.timestamp, s2);
    TakeU32Of(ToUnsigned(p.responseCode), tail);
    assert tail == tail + [];
    TakeFieldsOf(Texts(p), []);
  }

  lemma ParseBodyInverse(s: bytes)
    requires ParseBody(s).Some?
    ensures ValidKind(ParseBody(s).value.kind) && Body(ParseBody(s).value) == s
  {
    hide U32, TakeU32, Fields, TakeFields;
    TakeU64Inverse(s[1..]);
    var (timestamp, s1) := TakeU64(s[1..]).value;
    TakeU32Inverse(s1);
    var (code, s2) := TakeU32(s1).value;
    TakeFieldsInverse(s2, 4);
    var p := ParseBody(s).value;
    assert TakeFields(s2, 4).value.0 == Texts(p);
    BodyShape(p);
    assert s2 == Fields(Texts(p));
    assert s == [s[0]] + s[1..];
  }

  /** Every encodable packet survives the wire. */
  lemma ParseWire(p: Packet)
    requires Encodable(p)
    ensures Parse(Wire(p)) == Some(p)
  {
    hide ParseBody;
    BodyShape(p);
    TakeU32Of(|Body(p)|, Body(p));
    ParseBodyOf(p);
  }

  /** Every accepted byte string is the encoding of what it was read as. */
  lemma WireParse(s: bytes)
    requires Parse(s).Some?
    ensures Encodable(Parse(s).value) && Wire(Parse(s).value) == s
  {
    hide ParseBody;
    TakeU32Inverse(s);
    ParseBodyInverse(TakeU32(s).value.1);
  }

  /** The bijection: a byte string is accepted as p exactly when p is encodable and the string is its
      encoding. */
  lemma ParseIffWire(s: bytes, p: Packet)
    ensures Parse(s) == Some(p) <==> Encodable(p) && s == Wire(p)
  {
    if Parse(s) == Some(p) { WireParse(s); }
    if Encodable(p) { ParseWire(p); }
  }

  // ---------------------------------------------------------------- the C++ routines

  method AppendU32BE(data: bytes, value: nat) returns (out: bytes)
    ensures out == data + U32(value)
  {
    out := data + [value / 0x100_0000 % 256];
    out := out + [value / 0x1_0000 % 256];
    out := out + [value / 0x100 % 256];
    out := out + [value % 256];
  }

  method AppendLenPrefixed(data: bytes, value: bytes) returns (out: bytes)
    ensures out == data + Field(value)
  {
    out := AppendU32BE(data, |value|);
    out := out + value;
  }

  /** Serializer::serialize. The empty string is the failure answer. */
  method Serialize(packet: Packet) returns (framed: bytes)
    ensures framed == if Encodable(packet) then Wire(packet) else []
    ensures framed == [] || Parse(framed) == Some(packet)
  {
    hide U32, Body, Parse;
    if !ValidKind(packet.kind) {
      return [];
    }
    var payload := SerializeBody(packet);
    if |payload| > MAX_PAYLOAD_BYTES {
      return [];
    }
    framed := AppendU32BE([], |payload|);
    framed := framed + payload;
    ParseWire(packet);
  }

  /** Everything after the size word. */
  method SerializeBody(packet: Packet) returns (payload: bytes)
    ensures payload == Body(packet)
  {
    hide U32, Field, Fields;
    payload := [packet.kind];
    payload := AppendU32BE(payload, packet.timestamp / TWO32);
    payload := AppendU32BE(payload, packet.timestamp % TWO32);
    payload := AppendU32BE(payload, ToUnsigned(packet.responseCode));
    ghost var head := payload;
    assert head == [packet.kind] + U64(packet.timestamp) + U32(ToUnsigned(packet.responseCode));
    payload := AppendLenPrefixed(payload, packet.sender);
    payload := AppendLenPrefixed(payload, packet.receiver);
    payload := AppendLenPrefixed(payload, packet.room);
    payload := AppendLenPrefixed(payload, packet.message);
    FieldsOfFour(packet.sender, packet.receiver, packet.room, packet.message);
    assert payload == head
      + (Field(packet.sender) + Field(packet.receiver) + Field(packet.room) + Field(packet.message));
  }

  lemma FieldsOfFour(a: bytes, b: bytes, c: bytes, d: bytes)
    ensures Fields([a, b, c, d]) == Field(a) + Field(b) + Field(c) + Field(d)
  {
    assert [a, b, c, d][1..] == [b, c, d] && [b, c, d][1..] == [c, d] && [c, d][1..] == [d] && [d][1..] == [];
    assert Fields([d]) == Field(d) + Fields([]);
    assert Fields([c, d]) == Field(c) + Field(d);
    assert Fields([b, c, d]) == Field(b) + (Field(c) + Field(d));
  }

  method ReadU32BE(data: bytes, offset: nat) returns (ok: bool, value: u32, next: nat)
    ensures ok <==> offset <= |data| && TakeU32(data[offset..]).Some?
    ensures ok ==> next == offset + 4 <= |data| && TakeU32(data[offset..]) == Some((value, data[next..]))
  {
    value, next := 0, offset;
    ok := offset <= |data| && |data| - offset >= 4;
    if ok {
      value := Word(data[offset], data[offset + 1], data[offset + 2], data[offset + 3]);
      next := offset + 4;
      assert data[offset..][4..] == data[next..];
    }
  }

  method ReadLenPrefixed(data: bytes, offset: nat) returns (ok: bool, value: bytes, next: nat)
    ensures ok <==> offset <= |data| && TakeField(data[offset..]).Some?
    ensures ok ==> next <= |data| && TakeField(data[offset..]) == Some((value, data[next..]))
  {
    value := [];
    var length;
    ok, length, next := ReadU32BE(data, offset);
    if ok {
      ok := |data| - next >= length;
      if ok {
        value := data[next..next + length];
        assert data[next..][..length] == value && data[next..][length..] == data[next + length..];
        next := next + length;
      }
    }
  }

  /** Four fields in a row, stopping at the first that does not fit. */
  method ReadFields(data: bytes, offset: nat, n: nat) returns (ok: bool, values: seq<bytes>, next: nat)
    requires offset <= |data|
    ensures ok <==> TakeFields(data[offset..], n).Some?
    ensures ok ==> next <= |data| && TakeFields(data[offset..], n) == Some((values, data[next..]))
    decreases n
  {
    ok, values, next := true, [], offset;
    if n > 0 {
      var value, rest;
      ok, value, next := ReadLenPrefixed(data, offset);
      if ok {
        ok, rest, next := ReadFields(data, next, n - 1);
        values := [value] + rest;
      }
    }
  }

  /** Serializer::deserialize. */
  method Deserialize(data: bytes) returns (r: Option<Packet>)
    ensures r == Parse(data)
    ensures r.Some? ==> Encodable(r.value) && data == Wire(r.value)
  {
    hide TakeU32, TakeFields, Encodable, Wire;
    if Parse(data).Some? { WireParse(data); }
    assert data[0..] == data;
    var ok, payloadSize, offset := ReadU32BE(data, 0);
    if !ok || payloadSize == 0 || payloadSize > MAX_PAYLOAD_BYTES || |data| != 4 + payloadSize {
      return None;
    }
    var kind := data[offset];
    offset := offset + 1;
    if !ValidKind(kind) {
      return None;
    }
    assert data[4..][1..] == data[5..];
    var high, low, code;
    ok, high, offset := ReadU32BE(data, offset);
    if !ok { return None; }
    ok, low, offset := ReadU32BE(data, offset);
    if !ok { return None; }
    ok, code, offset := ReadU32BE(data, offset);
    if !ok { return None; }
    var texts;
    ok, texts, offset := ReadFields(data, offset, 4);
    if !ok || offset != |data| { return None; }
    return Some(Packet(kind, texts[0], texts[1], texts[2], texts[3], high * TWO32 + low, ToSigned(code)));
  }
}
