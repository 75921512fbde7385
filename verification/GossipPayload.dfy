/** The body of a gossip event: five length-prefixed fields, so any field may hold any bytes. */
module GossipPayload {
  import opened Bytes
  import PacketCodec

  datatype Payload = Payload(kind: bytes, eventId: bytes, username: bytes, content: bytes, field5: bytes)

  function Parts(f: Payload): (r: seq<bytes>)
  {
    [f.kind, f.eventId, f.username, f.content, f.field5]
  }

  /** Every part fits its 32-bit length. */
  predicate Fits(f: Payload)
  {
    forall v :: v in Parts(f) ==> |v| < TWO32
  }

  function Encode(f: Payload): (r: bytes) { Fields(Parts(f)) }

  function Decode(s: bytes): (r: Option<Payload>)
  {
    var (vs, rest) :- TakeFields(s, 5);
    if rest != [] then None else Some(Payload(vs[0], vs[1], vs[2], vs[3], vs[4]))
  }

  /** The id of an event body, or the empty string when the first two fields cannot be read. The rest
      of the body is not looked at. */
  function EventId(s: bytes): (r: bytes)
  {
    match TakeFields(s, 2)
    case None => []
    case Some(two) => two.0[1]
  }

  /** A byte string decodes to f exactly when f fits and the string is its encoding. */
  lemma DecodeIffEncode(s: bytes, f: Payload)
    ensures Decode(s) == Some(f) <==> Fits(f) && s == Encode(f)
  {
    if Decode(s) == Some(f) {
      TakeFieldsInverse(s, 5);
      assert TakeFields(s, 5).value.0 == Parts(f);
    }
    if Fits(f) {
      TakeFieldsOf(Parts(f), []);
      assert Encode(f) + [] == Encode(f);
    }
  }

  /** The id peeked at is the second field, whatever follows it; without two fields there is none. */
  lemma EventIdPeeks(s: bytes, id: bytes)
    requires id != []
    ensures EventId(s) == id <==>
            |id| < TWO32 && exists kind, rest :: |kind| < TWO32 && s == Field(kind) + Field(id) + rest
  {
    hide Field, TakeFields;
    if EventId(s) == id {
      TakeFieldsInverse(s, 2);
      var (vs, rest) := TakeFields(s, 2).value;
      TwoFields(vs[0], vs[1]);
      assert vs == [vs[0], vs[1]] && vs[1] in vs && vs[0] in vs;
    }
    forall kind: bytes, rest: bytes | |id| < TWO32 && |kind| < TWO32 && s == Field(kind) + Field(id) + rest
      ensures EventId(s) == id
    {
      TwoFields(kind, id);
      TakeFieldsOf([kind, id], rest);
    }
  }

  lemma TwoFields(a: bytes, b: bytes)
    ensures Fields([a, b]) == Field(a) + Field(b)
  {
    hide Field;
    var none: seq<bytes> := [];
    assert [a, b][1..] == [b] && [b][1..] == none;
    assert Fields([b]) == Field(b) + Fields(none);
    assert Field(b) + Fields(none) == Field(b);
  }

  /** The id peeked at before decoding is the id the decoder finds. */
  lemma EventIdAgrees(s: bytes)
    requires Decode(s).Some?
    ensures EventId(s) == Decode(s).value.eventId
  {
    TakeFieldsPrefix(s, 5, 2);
  }

  lemma EncodeShape(f: Payload)
    ensures Encode(f)
         == Field(f.kind) + Field(f.eventId) + Field(f.username) + Field(f.content) + Field(f.field5)
  {
    var tail := [f.eventId, f.username, f.content, f.field5];
    PacketCodec.FieldsOfFour(f.eventId, f.username, f.content, f.field5);
    assert Parts(f)[1..] == tail;
    assert Encode(f) == Field(f.kind) + Fields(tail);
  }

  /** Where everything is in an encoded payload. */
  lemma PayloadLayout(f: Payload)
    requires Fits(f)
    ensures PacketCodec.HoldsAll(Encode(f), 0, [f.kind, f.eventId, f.username, f.content, f.field5])
  {
    hide PacketCodec.HoldsAll;
    assert Encode(f)[0..] == Encode(f);
    PacketCodec.FieldsLayout(Encode(f), 0, Parts(f));
  }

  /** gossip_payload::encode. */
  method EncodeFields(f: Payload) returns (out: bytes)
    ensures out == Encode(f)
    ensures Fits(f) ==> Decode(out) == Some(f) && EventId(out) == f.eventId
  {
    hide *;
    out := PacketCodec.AppendLenPrefixed([], f.kind);
    out := PacketCodec.AppendLenPrefixed(out, f.eventId);
    out := PacketCodec.AppendLenPrefixed(out, f.username);
    out := PacketCodec.AppendLenPrefixed(out, f.content);
    out := PacketCodec.AppendLenPrefixed(out, f.field5);
    EncodeShape(f);
    DecodeIffEncode(out, f);
    if Fits(f) { EventIdAgrees(out); }
  }
}
