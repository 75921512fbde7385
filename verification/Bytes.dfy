/** Byte strings, big-endian integers and length-prefixed fields: the vocabulary shared by the packet
    serializer, the gossip payload and the browser codec. */
module Bytes {

  type byte = x: int | 0 <= x < 256
  type bytes = seq<byte>

  const TWO32: int := 0x1_0000_0000
  const TWO64: int := 0x1_0000_0000_0000_0000

  type u32 = x: int | 0 <= x < TWO32
  type u64 = x: int | 0 <= x < TWO64
  type i32 = x: int | -0x8000_0000 <= x < 0x8000_0000

  datatype Option<+T> = None | Some(value: T)
  {
    predicate IsFailure() { None? }
    function PropagateFailure<U>(): Option<U> requires None? { None }
    function Extract(): T requires Some? { value }
  }

  // ---------------------------------------------------------------- integers

  /** Four bytes, most significant first. A wider value keeps its low 32 bits. */
  function U32(v: nat): (r: bytes)
    ensures |r| == 4
  {
    [v / 0x100_0000 % 256, v / 0x1_0000 % 256, v / 0x100 % 256, v % 256]
  }

  function U64(v: nat): (r: bytes)
    ensures |r| == 8
  {
    U32(v / TWO32) + U32(v % TWO32)
  }

  /** The value of four bytes, most significant first. */
  function Word(b0: byte, b1: byte, b2: byte, b3: byte): (v: u32)
  {
    (b0 as int) * 0x100_0000 + (b1 as int) * 0x1_0000 + (b2 as int) * 0x100 + b3 as int
  }

  function TakeU32(s: bytes): (r: Option<(u32, bytes)>)
  {
    if |s| < 4 then None
    else Some((Word(s[0], s[1], s[2], s[3]), s[4..]))
  }

  function TakeU64(s: bytes): (r: Option<(u64, bytes)>)
  {
    var (high, s1) :- TakeU32(s);
    var (low, s2) :- TakeU32(s1);
    Some((high * TWO32 + low, s2))
  }

  lemma U32Digits(b0: byte, b1: byte, b2: byte, b3: byte)
    ensures U32(Word(b0, b1, b2, b3)) == [b0, b1, b2, b3]
  {
    var v := Word(b0, b1, b2, b3);
    assert v / 0x100_0000 == b0;
    assert v / 0x1_0000 == b0 * 0x100 + b1;
    assert v / 0x100 == b0 * 0x1_0000 + b1 * 0x100 + b2;
  }

  lemma U32Value(v: u32)
    ensures var r := U32(v); Word(r[0], r[1], r[2], r[3]) == v
  {
    var a := v / 0x100;
    var b := a / 0x100;
    var c := b / 0x100;
    assert Word(c, b % 0x100, a % 0x100, v % 0x100) == v;
    hide U32;
    U32Digits(c, b % 0x100, a % 0x100, v % 0x100);
  }

  lemma TakeU32Of(v: u32, rest: bytes)
    ensures TakeU32(U32(v) + rest) == Some((v, rest))
  {
    U32Value(v);
    assert (U32(v) + rest)[4..] == rest;
  }

  lemma TakeU32Inverse(s: bytes)
    requires TakeU32(s).Some?
    ensures var (v, rest) := TakeU32(s).value; s == U32(v) + rest
  {
    U32Digits(s[0], s[1], s[2], s[3]);
    assert s == [s[0], s[1], s[2], s[3]] + s[4..];
  }

  lemma TakeU64Of(v: u64, rest: bytes)
    ensures TakeU64(U64(v) + rest) == Some((v, rest))
  {
    hide TakeU32, U32;
    var high, low := v / TWO32, v % TWO32;
    assert U64(v) + rest == U32(high) + (U32(low) + rest);
    TakeU32Of(high, U32(low) + rest);
    TakeU32Of(low, rest);
  }

  lemma TakeU64Inverse(s: bytes)
    requires TakeU64(s).Some?
    ensures var (v, rest) := TakeU64(s).value; s == U64(v) + rest
  {
    hide TakeU32, U32;
    TakeU32Inverse(s);
    var (high, s1) := TakeU32(s).value;
    TakeU32Inverse(s1);
    var (low, s2) := TakeU32(s1).value;
    var v := high * TWO32 + low;
    assert v / TWO32 == high && v % TWO32 == low;
    assert s == U32(high) + U32(low) + s2;
  }

  // ---------------------------------------------------------------- length-prefixed fields

  function Field(v: bytes): (r: bytes)
  {
    U32(|v|) + v
  }

  function Fields(vs: seq<bytes>): (r: bytes)
  {
    if vs == [] then [] else Field(vs[0]) + Fields(vs[1..])
  }

  function TakeField(s: bytes): (r: Option<(bytes, bytes)>)
  {
    var (n, rest) :- TakeU32(s);
    if |rest| < n then None else Some((rest[..n], rest[n..]))
  }

  function TakeFields(s: bytes, n: nat): (r: Option<(seq<bytes>, bytes)>)
    ensures r.Some? ==> |r.value.0| == n
    decreases n
  {
    if n == 0 then Some(([], s))
    else
      var (v, s1) :- TakeField(s);
      var (vs, s2) :- TakeFields(s1, n - 1);
      Some(([v] + vs, s2))
  }

  lemma TakeFieldOf(v: bytes, rest: bytes)
    requires |v| < TWO32
    ensures TakeField(Field(v) + rest) == Some((v, rest))
  {
    hide TakeU32, U32;
    assert Field(v) + rest == U32(|v|) + (v + rest);
    TakeU32Of(|v|, v + rest);
    assert (v + rest)[..|v|] == v && (v + rest)[|v|..] == rest;
  }

  lemma TakeFieldInverse(s: bytes)
    requires TakeField(s).Some?
    ensures var (v, rest) := TakeField(s).value; |v| < TWO32 && s == Field(v) + rest
  {
    hide TakeU32, U32;
    TakeU32Inverse(s);
    var (n, tail) := TakeU32(s).value;
    assert tail == tail[..n] + tail[n..];
  }

  lemma {:induction false} TakeFieldsOf(vs: seq<bytes>, rest: bytes)
    requires forall v :: v in vs ==> |v| < TWO32
    ensures TakeFields(Fields(vs) + rest, |vs|) == Some((vs, rest))
  {
    hide TakeField, Field;
    if vs == [] {
      assert Fields(vs) + rest == rest;
    } else {
      var tail := Fields(vs[1..]) + rest;
      assert vs[0] in vs;
      assert Fields(vs) + rest == Field(vs[0]) + tail;
      TakeFieldOf(vs[0], tail);
      TakeFieldsOf(vs[1..], rest);
      assert [vs[0]] + vs[1..] == vs;
    }
  }

  lemma {:induction false} TakeFieldsInverse(s: bytes, n: nat)
    requires TakeFields(s, n).Some?
    ensures var (vs, rest) := TakeFields(s, n).value;
            s == Fields(vs) + rest && forall v :: v in vs ==> |v| < TWO32
    decreases n
  {
    hide TakeField, Field;
    if n > 0 {
      TakeFieldInverse(s);
      var (v, s1) := TakeField(s).value;
      TakeFieldsInverse(s1, n - 1);
      var (vs, s2) := TakeFields(s1, n - 1).value;
      assert ([v] + vs)[1..] == vs;
      assert s == Field(v) + Fields(vs) + s2;
    }
  }

  /** Taking fewer fields takes the same leading fields. */
  lemma {:induction false} TakeFieldsPrefix(s: bytes, n: nat, k: nat)
    requires k <= n && TakeFields(s, n).Some?
    ensures TakeFields(s, k).Some? && TakeFields(s, k).value.0 == TakeFields(s, n).value.0[..k]
    decreases n
  {
    hide TakeField, Field;
    if k > 0 {
      var (v, s1) := TakeField(s).value;
      TakeFieldsPrefix(s1, n - 1, k - 1);
      var vs := TakeFields(s1, n - 1).value.0;
      assert ([v] + vs)[..k] == [v] + vs[..k - 1];
    }
  }
}
