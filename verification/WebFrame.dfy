/** The WebSocket frame codec (sections 5.2, 5.3 and 5.5 of RFC 6455) for single, unfragmented frames. */
module WebFrame {
  import opened Powers
  import opened Bytes
  import PacketCodec

  // ---------------------------------------------------------------- big-endian numbers of any width

  function Pow256(k: nat): (r: nat)
    ensures r >= 1
  {
    if k == 0 then 1 else 256 * Pow256(k - 1)
  }

  function ToBE(v: nat, k: nat): (r: bytes)
    ensures |r| == k
    decreases k
  {
    if k == 0 then [] else ToBE(v / 256, k - 1) + [v % 256]
  }

  function FromBE(s: bytes): (r: nat)
    decreases |s|
  {
    if s == [] then 0 else 256 * FromBE(s[..|s| - 1]) + s[|s| - 1] as int
  }

  lemma {:induction false} FromToBE(v: nat, k: nat)
    requires v < Pow256(k)
    ensures FromBE(ToBE(v, k)) == v
    decreases k
  {
    if k > 0 {
      FromToBE(v / 256, k - 1);
      assert ToBE(v, k)[..k - 1] == ToBE(v / 256, k - 1);
    }
  }

  lemma {:induction false} ToFromBE(s: bytes)
    ensures FromBE(s) < Pow256(|s|) && ToBE(FromBE(s), |s|) == s
    decreases |s|
  {
    if s != [] {
      var n := |s| - 1;
      ToFromBE(s[..n]);
      assert FromBE(s) / 256 == FromBE(s[..n]) && FromBE(s) % 256 == s[n];
      assert s == s[..n] + [s[n]];
    }
  }

  // ---------------------------------------------------------------- masking

  /** Exclusive or of the low n bits. */
  function XorBits(a: nat, b: nat, n: nat): (r: nat)
    decreases n
  {
    if n == 0 then 0 else 2 * XorBits(a / 2, b / 2, n - 1) + (a + b) % 2
  }

  lemma {:induction false} XorBound(a: nat, b: nat, n: nat)
    ensures XorBits(a, b, n) < Pow2(n)
    decreases n
  {
    if n > 0 { XorBound(a / 2, b / 2, n - 1); }
  }

  lemma XorStep(a: nat, b: nat, n: nat)
    requires n > 0
    ensures XorBits(a, b, n) == 2 * XorBits(a / 2, b / 2, n - 1) + (a + b) % 2
    ensures a < Pow2(n) ==> a / 2 < Pow2(n - 1)
  {}

  lemma ParityBack(a: nat, b: nat, y: nat)
    ensures var x := 2 * y + (a + b) % 2; x / 2 == y && (x + b) % 2 == a % 2
  {}

  lemma {:induction false} XorTwice(a: nat, b: nat, n: nat)
    requires a < Pow2(n)
    ensures XorBits(XorBits(a, b, n), b, n) == a
    decreases n
  {
    if n > 0 {
      hide XorBits, Pow2;
      var x := XorBits(a, b, n);
      XorStep(a, b, n);
      ParityBack(a, b, XorBits(a / 2, b / 2, n - 1));
      XorTwice(a / 2, b / 2, n - 1);
      XorStep(x, b, n);
    }
  }

  function Xor(a: byte, b: byte): (r: byte)
  {
    XorBound(a, b, 8);
    assert Pow2(8) == 256 by { PowEight(); }
    XorBits(a, b, 8)
  }

  lemma PowEight()
    ensures Pow2(8) == 256
  {
    assert Pow2(4) == 16;
    assert Pow2(6) == 64;
  }

  lemma XorInvolution(a: byte, b: byte)
    ensures Xor(Xor(a, b), b) == a
  {
    PowEight();
    XorTwice(a, b, 8);
  }

  function Mask(payload: bytes, key: bytes): (r: bytes)
    requires |key| == 4
    ensures |r| == |payload|
  {
    seq(|payload|, i requires 0 <= i < |payload| => Xor(payload[i], key[i % 4]))
  }

  lemma MaskTwice(payload: bytes, key: bytes)
    requires |key| == 4
    ensures Mask(Mask(payload, key), key) == payload
  {
    var once := Mask(payload, key);
    forall i | 0 <= i < |payload| ensures Mask(once, key)[i] == payload[i] {
      XorInvolution(payload[i], key[i % 4]);
    }
  }

  // ---------------------------------------------------------------- frames

  type opcode = x: int | 0 <= x < 16

  const TEXT: opcode := 1
  const BINARY: opcode := 2
  const CLOSE: opcode := 8
  const PING: opcode := 9
  const PONG: opcode := 10

  const MAX_FRAME: nat := PacketCodec.MAX_PAYLOAD_BYTES + 4

  predicate Known(op: opcode) { op == TEXT || op == BINARY || op == CLOSE || op == PING || op == PONG }

  /** A frame the decoder takes: a known opcode, within the cap, control frames short. */
  predicate Acceptable(op: opcode, n: nat)
  {
    Known(op) && n <= MAX_FRAME && (op >= 8 ==> n <= 125)
  }

  /** The seven-bit length code and the extended length of the shortest form. */
  function Code(n: nat): (r: nat) ensures r <= 127 { if n < 126 then n else if n <= 65535 then 126 else 127 }
  function Extra(n: nat): (r: bytes) { if n < 126 then [] else if n <= 65535 then ToBE(n, 2) else ToBE(n, 8) }

  /** The key, when there is one, and the payload under it. */
  function Tail(payload: bytes, key: Option<bytes>): (r: bytes)
    requires key.Some? ==> |key.value| == 4
  {
    if key.Some? then key.value + Mask(payload, key.value) else payload
  }

  function Frame(op: opcode, payload: bytes, key: Option<bytes>): (r: bytes)
    requires key.Some? ==> |key.value| == 4
  {
    [128 + op, Code(|payload|) + if key.Some? then 128 else 0] + Extra(|payload|) + Tail(payload, key)
  }

  datatype FrameDecode = Ok(consumed: nat, op: opcode, payload: bytes) | Incomplete | Error

  /** How many bytes precede the payload, from the second byte. */
  function HeaderSize(second: byte): (r: nat)
    ensures 2 <= r <= 14
  {
    2 + (if second % 128 == 126 then 2 else if second % 128 == 127 then 8 else 0) + (if second >= 128 then 4 else 0)
  }

  /** The declared length of a header that is complete. */
  function Declared(s: bytes): (r: nat)
    requires |s| >= 2 && |s| >= HeaderSize(s[1])
  {
    if s[1] % 128 == 126 then FromBE(s[2..4])
    else if s[1] % 128 == 127 then FromBE(s[2..10])
    else s[1] % 128
  }

  predicate BadStart(s: bytes)
    requires |s| >= 2
  {
    s[0] < 128 || s[0] >= 144 || !Known(s[0] - 128)
  }

  /** The length is not in its shortest form, has its top bit set, or is too large. */
  predicate BadLength(s: bytes)
    requires |s| >= 2 && |s| >= HeaderSize(s[1]) && !BadStart(s)
  {
    || (s[1] % 128 == 126 && Declared(s) < 126)
    || (s[1] % 128 == 127 && (s[2] >= 128 || Declared(s) <= 65535))
    || (s[0] - 128 >= 8 && Declared(s) > 125)
    || Declared(s) > MAX_FRAME
  }

  function KeyOf(s: bytes): (r: Option<bytes>)
    requires |s| >= 2 && |s| >= HeaderSize(s[1])
    ensures r.Some? ==> |r.value| == 4
  {
    if s[1] >= 128 then Some(s[HeaderSize(s[1]) - 4..HeaderSize(s[1])]) else None
  }

  function Decode(s: bytes): (r: FrameDecode)
  {
    if |s| < 2 then Incomplete
    else if BadStart(s) then Error
    else
      var header := HeaderSize(s[1]);
      if |s| < header then Incomplete
      else if BadLength(s) then Error
      else
        var total := header + Declared(s);
        if |s| < total then Incomplete
        else
          var raw := s[header..total];
          Ok(total, s[0] - 128, match KeyOf(s) case None => raw case Some(key) => Mask(raw, key))
  }

  // ---------------------------------------------------------------- prefixes and suffixes

  /** The decoder looks at the header only. */
  lemma HeaderOnly(s: bytes, t: bytes)
    requires |s| >= 2 && |s| >= HeaderSize(s[1]) && s <= t
    ensures |t| >= HeaderSize(t[1]) && t[1] == s[1] && t[0] == s[0]
    ensures Declared(t) == Declared(s) && KeyOf(t) == KeyOf(s)
    ensures BadStart(t) <==> BadStart(s)
    ensures !BadStart(s) ==> (BadLength(t) <==> BadLength(s))
  {
    var h := HeaderSize(s[1]);
    assert t[..|s|] == s;
    assert s[1] % 128 == 126 ==> t[2..4] == s[2..4];
    assert s[1] % 128 == 127 ==> t[2..10] == s[2..10];
    assert s[1] >= 128 ==> t[h - 4..h] == s[h - 4..h];
  }

  /** Bytes that follow a complete or a broken frame change nothing. */
  lemma DecodeStable(s: bytes, t: bytes)
    requires s <= t && Decode(s) != Incomplete
    ensures Decode(t) == Decode(s)
  {
    hide Declared, KeyOf, BadLength, BadStart, Mask, HeaderSize;
    SameStart(s, t);
    if !BadStart(s) {
      HeaderOnly(s, t);
      var header := HeaderSize(s[1]);
      if !BadLength(s) {
        assert t[header..header + Declared(s)] == s[header..header + Declared(s)];
      }
    }
  }

  lemma SameStart(s: bytes, t: bytes)
    requires |s| >= 2 && s <= t
    ensures t[0] == s[0] && t[1] == s[1] && (BadStart(t) <==> BadStart(s))
  {}

  /** Every proper prefix of an accepted frame is incomplete. */
  lemma DecodePrefix(s: bytes, k: nat)
    requires Decode(s).Ok? && k < Decode(s).consumed
    ensures Decode(s[..k]) == Incomplete
  {
    var p := s[..k];
    if k >= 2 {
      assert p[0] == s[0] && p[1] == s[1];
      if k >= HeaderSize(s[1]) { HeaderOnly(p, s); }
    }
  }

  // ---------------------------------------------------------------- round trips

  lemma FrameSlices(op: opcode, payload: bytes, key: Option<bytes>, suffix: bytes)
    requires key.Some? ==> |key.value| == 4
    ensures var f := Frame(op, payload, key);
            var s, h := f + suffix, 2 + |Extra(|payload|)|;
            && |f| == h + |Tail(payload, key)| && |s| >= |f|
            && s[0] == 128 + op && s[1] == Code(|payload|) + (if key.Some? then 128 else 0)
            && s[2..h] == Extra(|payload|) && s[h..|f|] == Tail(payload, key)
  {
    hide Mask, Extra, Code;
    var f, h := Frame(op, payload, key), 2 + |Extra(|payload|)|;
    var start := [128 + op, Code(|payload|) + if key.Some? then 128 else 0];
    assert f == start + Extra(|payload|) + Tail(payload, key);
    assert f[..2] == start && f[2..h] == Extra(|payload|) && f[h..] == Tail(payload, key);
    var s := f + suffix;
    assert s[..|f|] == f;
    assert s[2..h] == f[2..h] && s[h..|f|] == f[h..];
  }

  lemma ExtraValue(n: nat)
    requires n < Pow256(8)
    ensures |Extra(n)| == if n < 126 then 0 else if n <= 65535 then 2 else 8
    ensures n >= 126 ==> FromBE(Extra(n)) == n
  {
    PowTwo();
    if n <= 65535 { FromToBE(n, 2); }
    FromToBE(n, 8);
  }

  lemma FrameHeader(op: opcode, payload: bytes, key: Option<bytes>, suffix: bytes)
    requires |payload| < Pow256(8) && (key.Some? ==> |key.value| == 4)
    ensures var s := Frame(op, payload, key) + suffix;
            && |s| >= 2 && s[0] == 128 + op && |s| >= HeaderSize(s[1])
            && HeaderSize(s[1]) + |payload| == |Frame(op, payload, key)|
            && s[1] % 128 == Code(|payload|) && (s[1] >= 128 <==> key.Some?)
            && Declared(s) == |payload| && KeyOf(s) == key
            && s[HeaderSize(s[1])..|Frame(op, payload, key)|]
               == (if key.Some? then Mask(payload, key.value) else payload)
  {
    hide Mask, Frame, Extra, ToBE, FromBE, Pow256;
    var f := Frame(op, payload, key);
    var s, h := f + suffix, 2 + |Extra(|payload|)|;
    FrameSlices(op, payload, key, suffix);
    ExtraValue(|payload|);
    if key.Some? { KeyThenPayload(s, h, |f|, key.value, Mask(payload, key.value)); }
  }

  lemma KeyThenPayload(s: bytes, h: nat, e: nat, key: bytes, body: bytes)
    requires h <= e <= |s| && |key| == 4 && s[h..e] == key + body
    ensures h + 4 <= e && s[h..h + 4] == key && s[h + 4..e] == body
  {
    hide *;
    assert |s[h..e]| == e - h;
    assert s[h..h + 4] == s[h..e][..4] && s[h + 4..e] == s[h..e][4..];
  }

  lemma PowTwo()
    ensures Pow256(2) == 65536
  {
    assert Pow256(1) == 256;
  }

  lemma PowBig()
    ensures MAX_FRAME < Pow256(8) && Pow256(8) == TWO64
  {
    PowTwo();
    assert Pow256(4) == 0x1_0000_0000;
    assert Pow256(6) == 0x1_0000_0000_0000;
  }

  /** Any frame the encoder makes, followed by anything, decodes to its contents and consumes exactly the frame;
      the decoder accepts it exactly when it is acceptable and rejects it otherwise. */
  lemma DecodeFrameOf(op: opcode, payload: bytes, key: Option<bytes>, suffix: bytes)
    requires |payload| < TWO64 / 2 && (key.Some? ==> |key.value| == 4)
    ensures var d := Decode(Frame(op, payload, key) + suffix);
            if Acceptable(op, |payload|) then d == Ok(|Frame(op, payload, key)|, op, payload) else d == Error
  {
    hide Mask, ToBE, FromBE, Extra, Frame, Pow256;
    PowBig();
    FrameHeader(op, payload, key, suffix);
    var s := Frame(op, payload, key) + suffix;
    if |payload| > 65535 { TopBit(s); }
    if key.Some? { MaskTwice(payload, key.value); }
  }

  /** A length below 2^63 leaves the top bit clear. */
  lemma TopBit(s: bytes)
    requires |s| >= 10 && FromBE(s[2..10]) < TWO64 / 2
    ensures s[2] < 128
  {
    var e := s[2..10];
    HighByte(e);
    PowSeven();
  }

  lemma PowSeven()
    ensures Pow256(7) * 128 == TWO64 / 2
  {
    PowTwo();
    assert Pow256(4) == 0x1_0000_0000;
    assert Pow256(6) == 0x1_0000_0000_0000;
  }

  lemma {:induction false} HighByte(s: bytes)
    requires s != []
    ensures FromBE(s) >= s[0] as int * Pow256(|s| - 1)
    decreases |s|
  {
    if |s| > 1 {
      var t := s[..|s| - 1];
      HighByte(t);
      assert FromBE(s) >= 256 * FromBE(t);
      assert 256 * (s[0] as int * Pow256(|s| - 2)) == s[0] as int * Pow256(|s| - 1);
    } else {
      assert FromBE(s[..0]) == 0;
    }
  }

  /** Every accepted frame is, byte for byte, the encoding of its contents under its own mask key. */
  lemma DecodeCanonical(s: bytes)
    requires Decode(s).Ok?
    ensures var d := Decode(s);
            && d.consumed <= |s| && Acceptable(d.op, |d.payload|)
            && |s| >= 2 && |s| >= HeaderSize(s[1])
            && s[..d.consumed] == Frame(d.op, d.payload, KeyOf(s))
  {
    hide Mask, FromBE, ToBE, Extra;
    var d := Decode(s);
    var h := HeaderSize(s[1]);
    var raw, key := s[h..d.consumed], KeyOf(s);
    var e := if key.Some? then h - 4 else h;
    ExtraIs(s, e);
    if key.Some? { MaskTwice(raw, key.value); }
    assert Tail(d.payload, key) == s[e..h] + raw;
    FrameJoins(s, e, h, d.consumed, d.op, d.payload, key);
  }

  lemma ExtraIs(s: bytes, e: nat)
    requires |s| >= 2 && |s| >= HeaderSize(s[1]) && !BadStart(s) && !BadLength(s)
    requires e == HeaderSize(s[1]) - if s[1] >= 128 then 4 else 0
    ensures s[2..e] == Extra(Declared(s)) && Code(Declared(s)) == s[1] % 128
  {
    PowTwo();
    hide FromBE, ToBE, Pow256;
    if s[1] % 128 == 126 { ToFromBE(s[2..4]); }
    if s[1] % 128 == 127 { ToFromBE(s[2..10]); }
  }

  lemma FrameJoins(s: bytes, e: nat, h: nat, total: nat, op: opcode, payload: bytes, key: Option<bytes>)
    requires 2 <= e <= h <= total <= |s| && (key.Some? ==> |key.value| == 4)
    requires s[0] == 128 + op && s[1] == Code(|payload|) + if key.Some? then 128 else 0
    requires s[2..e] == Extra(|payload|) && s[e..h] + s[h..total] == Tail(payload, key)
    ensures s[..total] == Frame(op, payload, key)
  {
    hide Mask, Extra, Code;
    assert s[..total] == [s[0], s[1]] + s[2..e] + (s[e..h] + s[h..total]);
  }

  // ---------------------------------------------------------------- the layout, byte by byte and bit by bit

  function Bit(x: nat, b: nat): (r: bool)
    decreases b
  {
    if b == 0 then x % 2 == 1 else Bit(x / 2, b - 1)
  }

  lemma BitIs(x: nat, b: nat)
    ensures Bit(x, b) == if b == 0 then x % 2 == 1 else Bit(x / 2, b - 1)
  {}

  lemma Parity(a: nat, b: nat, y: nat)
    ensures (2 * y + (a + b) % 2) % 2 == 1 <==> (a % 2 == 1) != (b % 2 == 1)
  {}

  lemma {:induction false} XorAt(x: nat, y: nat, n: nat, b: nat)
    requires b < n
    ensures Bit(XorBits(x, y, n), b) <==> Bit(x, b) != Bit(y, b)
    decreases n
  {
    hide *;
    var z, rest := XorBits(x, y, n), XorBits(x / 2, y / 2, n - 1);
    XorStep(x, y, n);
    BitIs(z, b);
    BitIs(x, b);
    BitIs(y, b);
    if b == 0 {
      Parity(x, y, rest);
    } else {
      ParityBack(x, y, rest);
      XorAt(x / 2, y / 2, n - 1, b - 1);
    }
  }

  /** Eight bytes from position i, most significant first. */
  function EightFrom(s: bytes, i: nat): (r: nat)
    requires i + 8 <= |s|
  {
    0x100_0000_0000_0000 * s[i] as nat + 0x1_0000_0000_0000 * s[i + 1] as nat + 0x100_0000_0000 * s[i + 2] as nat
    + 0x1_0000_0000 * s[i + 3] as nat + 0x100_0000 * s[i + 4] as nat + 0x1_0000 * s[i + 5] as nat
    + 0x100 * s[i + 6] as nat + s[i + 7] as nat
  }

  /** Where the payload begins: after two bytes, the length bytes and the key. */
  function PayloadAt(n: nat, masked: bool): (h: nat)
  {
    (if n < 126 then 2 else if n <= 65535 then 4 else 10) + if masked then 4 else 0
  }

  /** Bit for bit, each payload byte is the exclusive or of the byte that travels and of the key byte whose turn it
      is. */
  ghost predicate Unmasked(s: bytes, h: nat, masked: bool, payload: bytes)
    requires |s| == h + |payload| && (masked ==> h >= 4)
  {
    forall i, b :: 0 <= i < |payload| && 0 <= b < 8 ==>
      (Bit(payload[i], b) <==> Bit(s[h + i], b) != (masked && Bit(s[h - 4 + i % 4], b)))
  }

  /** s is a whole frame with this opcode and payload (section 5.2 of RFC 6455). */
  ghost predicate IsFrame(s: bytes, op: nat, masked: bool, payload: bytes)
  {
    var n, h := |payload|, PayloadAt(|payload|, masked);
    && |s| == h + n && s[0] == 128 + op
    && s[1] == (if n < 126 then n else if n <= 65535 then 126 else 127) + (if masked then 128 else 0)
    && (126 <= n <= 65535 ==> 0x100 * s[2] as nat + s[3] as nat == n)
    && (65535 < n ==> EightFrom(s, 2) == n)
    && Unmasked(s, h, masked, payload)
  }

  lemma MaskedBits(payload: bytes, key: bytes, i: nat, b: nat)
    requires |key| == 4 && i < |payload| && b < 8
    ensures Bit(Mask(payload, key)[i], b) <==> Bit(payload[i], b) != Bit(key[i % 4], b)
  {
    XorAt(payload[i], key[i % 4], 8, b);
  }

  lemma TailUnmasked(s: bytes, h: nat, payload: bytes, key: Option<bytes>)
    requires |s| == h + |payload| && (key.Some? ==> |key.value| == 4 && h >= 4 && s[h - 4..h] == key.value)
    requires s[h..] == if key.Some? then Mask(payload, key.value) else payload
    ensures Unmasked(s, h, key.Some?, payload)
  {
    hide Mask, Bit;
    forall i, b | 0 <= i < |payload| && 0 <= b < 8
      ensures Bit(payload[i], b) <==> Bit(s[h + i], b) != (key.Some? && Bit(s[h - 4 + i % 4], b))
    {
      assert s[h + i] == s[h..][i];
      if key.Some? {
        MaskedBits(payload, key.value, i, b);
        assert s[h - 4..h][i % 4] == s[h - 4 + i % 4];
      }
    }
  }

  lemma TwoValue(s: bytes)
    requires |s| == 2
    ensures FromBE(s) == 0x100 * s[0] as nat + s[1] as nat
  {
    assert s[..1][..0] == [];
    assert FromBE(s[..1]) == s[0] as nat;
  }

  lemma EightValue(s: bytes)
    requires |s| == 8
    ensures FromBE(s) == EightFrom(s, 0)
  {
    var a, b, c, d := s[..2], s[..4], s[..6], s[..7];
    TwoValue(a);
    FromSnoc(s[..3]);
    FromSnoc(b);
    FromSnoc(s[..5]);
    FromSnoc(c);
    FromSnoc(d);
    FromSnoc(s);
    hide FromBE;
    assert s[..3][..2] == a && b[..3] == s[..3] && s[..5][..4] == b && c[..5] == s[..5] && d[..6] == c && s[..7] == d;
  }

  lemma FromSnoc(s: bytes)
    requires s != []
    ensures FromBE(s) == 256 * FromBE(s[..|s| - 1]) + s[|s| - 1] as nat
  {}

  /** What the encoder writes. */
  lemma FrameLayout(op: opcode, payload: bytes, key: Option<bytes>)
    requires |payload| < TWO64 && (key.Some? ==> |key.value| == 4)
    ensures var f, h := Frame(op, payload, key), PayloadAt(|payload|, key.Some?);
            IsFrame(f, op, key.Some?, payload) && (key.Some? ==> f[h - 4..h] == key.value)
  {
    hide *;
    var f, p := Frame(op, payload, key), PayloadAt(|payload|, key.Some?);
    FrameParts(op, payload, key);
    LengthParts(f, payload, key);
    TailUnmasked(f, p, payload, key);
    LayoutIs(f, op, payload, key);
  }

  /** The two halves of the header, then the tail. */
  lemma FrameParts(op: opcode, payload: bytes, key: Option<bytes>)
    requires |payload| < TWO64 && (key.Some? ==> |key.value| == 4)
    ensures var f, n := Frame(op, payload, key), |payload|;
            var h, p := 2 + |Extra(n)|, PayloadAt(n, key.Some?);
            && |f| == p + n && h == (if n < 126 then 2 else if n <= 65535 then 4 else 10) && f[0] == 128 + op
            && f[1] == Code(n) + (if key.Some? then 128 else 0) && f[2..h] == Extra(n)
            && (key.Some? ==> p == h + 4 && f[h..p] == key.value)
            && (key.None? ==> p == h)
            && f[p..] == if key.Some? then Mask(payload, key.value) else payload
  {
    var f, n := Frame(op, payload, key), |payload|;
    hide Mask, Frame, Extra, ToBE, FromBE, Pow256, Code;
    PowBig();
    FrameSlices(op, payload, key, []);
    assert f + [] == f;
    ExtraValue(n);
    var h, p := 2 + |Extra(n)|, PayloadAt(n, key.Some?);
    if key.Some? { KeyThenPayload(f, h, |f|, key.value, Mask(payload, key.value)); }
    assert f[p..] == f[p..|f|];
  }

  lemma LengthParts(f: bytes, payload: bytes, key: Option<bytes>)
    requires |payload| < TWO64 && |f| == PayloadAt(|payload|, key.Some?) + |payload|
    requires |f| >= 2 + |Extra(|payload|)| && f[2..2 + |Extra(|payload|)|] == Extra(|payload|)
    ensures 126 <= |payload| <= 65535 ==> 0x100 * f[2] as nat + f[3] as nat == |payload|
    ensures 65535 < |payload| ==> EightFrom(f, 2) == |payload|
  {
    PowBig();
    hide Extra, FromBE, Pow256;
    ExtraValue(|payload|);
    if |payload| > 65535 {
      EightValue(f[2..10]);
    } else if |payload| >= 126 {
      TwoValue(f[2..4]);
    }
  }

  lemma LayoutIs(f: bytes, op: opcode, payload: bytes, key: Option<bytes>)
    requires var n, p := |payload|, PayloadAt(|payload|, key.Some?);
             && |f| == p + n && f[0] == 128 + op && f[1] == Code(n) + (if key.Some? then 128 else 0)
             && (126 <= n <= 65535 ==> 0x100 * f[2] as nat + f[3] as nat == n)
             && (65535 < n ==> EightFrom(f, 2) == n) && Unmasked(f, p, key.Some?, payload)
    ensures IsFrame(f, op, key.Some?, payload)
  {
    hide EightFrom, Unmasked;
  }

  /** What the decoder accepts. */
  lemma DecodeLayout(s: bytes)
    requires Decode(s).Ok?
    ensures var d := Decode(s);
            d.consumed <= |s| && |s| >= 2 && IsFrame(s[..d.consumed], d.op, s[1] >= 128, d.payload)
  {
    DecodeCanonical(s);
    var d := Decode(s);
    assert MAX_FRAME < TWO64 by { PowBig(); }
    assert KeyOf(s).Some? <==> s[1] >= 128;
    hide Decode, Frame, IsFrame, KeyOf;
    FrameLayout(d.op, d.payload, KeyOf(s));
  }

  // ---------------------------------------------------------------- the C++ routines

  method XorWith(payload: bytes, key: bytes) returns (out: bytes)
    requires |key| == 4
    ensures out == Mask(payload, key)
  {
    out := [];
    var i := 0;
    while i < |payload|
      invariant 0 <= i <= |payload|
      invariant out == Mask(payload, key)[..i]
    {
      out := out + [Xor(payload[i], key[i % 4])];
      i := i + 1;
    }
  }

  /** The two start bytes and the length bytes behind them. */
  method EncodeHead(op: opcode, length: nat, masked: bool) returns (out: bytes)
    ensures out == [128 + op, Code(length) + if masked then 128 else 0] + Extra(length)
  {
    hide ToBE;
    var maskBit := if masked then 128 else 0;
    out := [128 + op];
    if length < 126 {
      out := out + [maskBit + length];
    } else if length <= 65535 {
      out := out + [maskBit + 126];
      TwoBytes(length);
      out := out + [length / 256 % 256];
      out := out + [length % 256];
    } else {
      out := out + [maskBit + 127];
      var extra := LengthBytes(length);
      out := out + extra;
    }
  }

  lemma EncodedLayout(op: opcode, payload: bytes, masked: bool, maskKey: u32)
    requires |payload| < TWO64
    ensures var f := Frame(op, payload, if masked then Some(U32(maskKey)) else None);
            var h := PayloadAt(|payload|, masked);
            && IsFrame(f, op, masked, payload)
            && |f| == h + |payload| && (masked ==> h >= 4)
            && (masked ==> 0x100_0000 * f[h - 4] as nat + 0x1_0000 * f[h - 3] as nat + 0x100 * f[h - 2] as nat
                           + f[h - 1] as nat == maskKey)
  {
    FrameLayout(op, payload, if masked then Some(U32(maskKey)) else None);
    KeyValue(maskKey);
    hide U32, Frame, Unmasked, EightFrom;
  }

  /** encodeFrame. */
  method EncodeFrame(op: opcode, payload: bytes, masked: bool, maskKey: u32) returns (out: bytes)
    requires |payload| < TWO64
    ensures IsFrame(out, op, masked, payload)
    ensures var h := PayloadAt(|payload|, masked);
            masked ==> 0x100_0000 * out[h - 4] as nat + 0x1_0000 * out[h - 3] as nat + 0x100 * out[h - 2] as nat
                       + out[h - 1] as nat == maskKey
    ensures out == Frame(op, payload, if masked then Some(U32(maskKey)) else None)
  {
    EncodedLayout(op, payload, masked, maskKey);
    hide U32, Mask, Code, Extra, IsFrame, PayloadAt;
    out := EncodeHead(op, |payload|, masked);
    if !masked {
      out := out + payload;
      return;
    }
    var mask := U32(maskKey);
    var hidden := XorWith(payload, mask);
    ghost var head := out;
    out := out + mask + hidden;
    assert out == head + (mask + hidden);
  }

  lemma KeyValue(k: u32)
    ensures var u := U32(k);
            0x100_0000 * u[0] as nat + 0x1_0000 * u[1] as nat + 0x100 * u[2] as nat + u[3] as nat == k
  {
    U32Value(k);
  }

  lemma TwoBytes(n: nat)
    ensures ToBE(n, 2) == [n / 256 % 256, n % 256]
  {
    assert ToBE(n / 256, 1) == ToBE(n / 256 / 256, 0) + [n / 256 % 256];
  }

  /** v shifted right by k bytes. */
  function Shift(v: nat, k: nat): (r: nat)
    decreases k
  {
    if k == 0 then v else Shift(v / 256, k - 1)
  }

  lemma {:induction false} ToBEAt(v: nat, k: nat, i: nat)
    requires i < k
    ensures ToBE(v, k)[i] == Shift(v, k - 1 - i) % 256
    decreases k
  {
    if i < k - 1 { ToBEAt(v / 256, k - 1, i); }
  }

  /** The eight bytes of a length, most significant first. */
  method LengthBytes(length: nat) returns (out: bytes)
    ensures out == ToBE(length, 8)
  {
    hide ToBE, Shift;
    out := [];
    var shift := 8;
    while shift > 0
      invariant 0 <= shift <= 8 && |out| == 8 - shift
      invariant forall i :: 0 <= i < |out| ==> out[i] == ToBE(length, 8)[i]
    {
      shift := shift - 1;
      ToBEAt(length, 8, 7 - shift);
      out := out + [Shift(length, shift) % 256];
    }
  }

  method ReadLength(s: bytes) returns (length: nat)
    ensures length == FromBE(s)
  {
    length := 0;
    var i := 0;
    while i < |s|
      invariant 0 <= i <= |s|
      invariant length == FromBE(s[..i])
    {
      length := length * 256 + s[i] as int;
      i := i + 1;
      assert s[..i][..i - 1] == s[..i - 1];
    }
    assert s[..i] == s;
  }

  /** decodeFrame. */
  method DecodeFrame(data: bytes) returns (d: FrameDecode)
    ensures d == Decode(data)
    ensures d.Ok? ==> d.consumed <= |data| && |data| >= 2
                      && IsFrame(data[..d.consumed], d.op, data[1] >= 128, d.payload)
  {
    if Decode(data).Ok? { DecodeLayout(data); }
    hide IsFrame;
    hide FromBE, Mask;
    if |data| < 2 {
      return Incomplete;
    }
    var first, second := data[0], data[1];
    if first / 16 % 8 != 0 || first / 128 == 0 {
      return Error;
    }
    var op := first % 16;
    if op != TEXT && op != BINARY && op != CLOSE && op != PING && op != PONG {
      return Error;
    }
    var masked := second / 128 != 0;
    var code := second % 128;
    var header := 2;
    if code == 126 {
      header := header + 2;
    } else if code == 127 {
      header := header + 8;
    }
    if masked {
      header := header + 4;
    }
    if |data| < header {
      return Incomplete;
    }
    var length: nat := code;
    if code == 126 {
      length := ReadLength(data[2..4]);
      if length < 126 {
        return Error;
      }
    } else if code == 127 {
      if data[2] / 128 != 0 {
        return Error;
      }
      length := ReadLength(data[2..10]);
      if length <= 65535 {
        return Error;
      }
    }
    if op >= 8 && length > 125 {
      return Error;
    }
    if length > MAX_FRAME {
      return Error;
    }
    var total := header + length;
    if |data| < total {
      return Incomplete;
    }
    var payload := data[header..total];
    if masked {
      payload := XorWith(payload, data[header - 4..header]);
    }
    return Ok(total, op, payload);
  }
}
