/** When the HTTP head of a WebSocket upgrade is read successfully. The reader refuses a buffer that grows past
    its cap even if the head itself fits, so the answer depends on how the bytes are cut into pieces. */
module HttpHead {
  import opened Bytes
  import opened Seqs

  const TERMINATOR: bytes := [13, 10, 13, 10]
  const ASK: nat := 1024

  ghost predicate IsCut(chunks: seq<bytes>) { forall i :: 0 <= i < |chunks| ==> chunks[i] != [] }

  /** What one recv returns, and the pieces that remain. */
  function Take(chunks: seq<bytes>, ask: nat): (r: (bytes, seq<bytes>))
  {
    if chunks == [] then ([], [])
    else if |chunks[0]| <= ask then (chunks[0], chunks[1..])
    else (chunks[0][..ask], [chunks[0][ask..]] + chunks[1..])
  }

  lemma TakeKeeps(chunks: seq<bytes>, ask: nat)
    requires IsCut(chunks) && ask > 0
    ensures var (got, rest) := Take(chunks, ask);
            && IsCut(rest) && |got| <= ask && got + Flatten(rest) == Flatten(chunks)
            && (got == [] <==> chunks == []) && (chunks == [] <==> Flatten(chunks) == [])
  {
    if chunks != [] {
      var c := chunks[0];
      var (got, rest) := Take(chunks, ask);
      if |c| > ask {
        assert rest[1..] == chunks[1..];
        assert got + (c[ask..] + Flatten(chunks[1..])) == c + Flatten(chunks[1..]);
      }
      assert |Flatten(chunks)| >= |c|;
    }
  }

  // ---------------------------------------------------------------- the end of the head

  predicate EndsAt(s: bytes, e: nat) { 4 <= e <= |s| && s[e - 4..e] == TERMINATOR }

  function HeadEndFrom(s: bytes, e: nat): (r: nat)
    requires 4 <= e
    ensures e <= r && (r <= |s| ==> EndsAt(s, r))
    ensures forall x :: e <= x < r && x <= |s| ==> !EndsAt(s, x)
    ensures r <= |s| || forall x :: e <= x <= |s| ==> !EndsAt(s, x)
    decreases |s| + 1 - e
  {
    if e > |s| || EndsAt(s, e) then e else HeadEndFrom(s, e + 1)
  }

  /** The position right after the first terminator; beyond the end when there is none. */
  function HeadEnd(s: bytes): (r: nat) ensures r >= 4 { HeadEndFrom(s, 4) }

  /** CR LF CR LF ends here. */
  predicate BlankLine(s: bytes, e: nat)
  {
    4 <= e <= |s| && s[e - 4] == 13 && s[e - 3] == 10 && s[e - 2] == 13 && s[e - 1] == 10
  }

  lemma EndsIs(s: bytes, e: nat)
    ensures EndsAt(s, e) <==> BlankLine(s, e)
  {}

  /** The head ends after the first CR LF CR LF. */
  lemma HeadIs(s: bytes, e: nat)
    requires 4 <= e <= |s|
    ensures HeadEnd(s) == e <==> BlankLine(s, e) && forall x :: 4 <= x < e ==> !BlankLine(s, x)
  {
    forall x ensures EndsAt(s, x) <==> BlankLine(s, x) { EndsIs(s, x); }
    hide EndsAt, BlankLine, HeadEndFrom;
  }

  predicate HasHead(s: bytes) { HeadEnd(s) <= |s| }

  lemma HeadEndPrefix(p: bytes, s: bytes)
    requires p <= s
    ensures HasHead(p) ==> HasHead(s) && HeadEnd(s) == HeadEnd(p)
    ensures HasHead(s) ==> (HasHead(p) <==> HeadEnd(s) <= |p|)
    ensures !HasHead(s) ==> !HasHead(p)
  {
    forall e | 4 <= e <= |p| ensures EndsAt(p, e) <==> EndsAt(s, e) {
      assert s[..|p|] == p;
      assert s[e - 4..e] == p[e - 4..e];
    }
  }

  // ---------------------------------------------------------------- reading

  /** readHeaders succeeds on these pieces. */
  ghost predicate HeadArrives(pending: bytes, chunks: seq<bytes>, max: nat)
    requires IsCut(chunks)
    decreases |Flatten(chunks)|
  {
    TakeKeeps(chunks, ASK);
    var (got, rest) := Take(chunks, ASK);
    if HasHead(pending) then true
    else if |pending| >= max || chunks == [] then false
    else |pending + got| <= max && HeadArrives(pending + got, rest, max)
  }

  function Min(a: int, b: int): (r: int) { if a < b then a else b }

  /** The largest buffer the reader can come to hold: it stops at the first piece that completes the head. */
  function Reach(s: bytes): (r: int) { Min(HeadEnd(s) + ASK - 1, |s|) }

  /** Room for the head and a whole further piece suffices, for every cut. */
  lemma {:induction false} Arrives(pending: bytes, chunks: seq<bytes>, max: nat)
    requires IsCut(chunks)
    requires var s := pending + Flatten(chunks); HasHead(s) && Reach(s) <= max
    ensures HeadArrives(pending, chunks, max)
    decreases |Flatten(chunks)|
  {
    hide HeadEnd, Flatten;
    var s := pending + Flatten(chunks);
    HeadEndPrefix(pending, s);
    if !HasHead(pending) {
      TakeKeeps(chunks, ASK);
      var (got, rest) := Take(chunks, ASK);
      assert pending + Flatten(chunks) == (pending + got) + Flatten(rest);
      assert |pending| < HeadEnd(s) <= |s|;
      assert chunks != [];
      hide Take;
      Arrives(pending + got, rest, max);
    }
  }

  /** Without a terminator no cut succeeds. */
  lemma {:induction false} NeverArrives(pending: bytes, chunks: seq<bytes>, max: nat)
    requires IsCut(chunks) && !HasHead(pending + Flatten(chunks))
    ensures !HeadArrives(pending, chunks, max)
    decreases |Flatten(chunks)|
  {
    hide HeadEnd, Flatten, HasHead;
    HeadEndPrefix(pending, pending + Flatten(chunks));
    if chunks != [] {
      TakeKeeps(chunks, ASK);
      var (got, rest) := Take(chunks, ASK);
      assert pending + Flatten(chunks) == (pending + got) + Flatten(rest);
      hide Take;
      NeverArrives(pending + got, rest, max);
    }
  }

  /** A piece that does not complete the head is consumed, in as many reads as it takes. */
  lemma {:induction false} Feed(pending: bytes, c: bytes, rest: seq<bytes>, max: nat)
    requires c != [] && IsCut(rest) && !HasHead(pending + c)
    ensures IsCut([c] + rest)
    ensures HeadArrives(pending, [c] + rest, max) ==> HeadArrives(pending + c, rest, max)
    decreases |c|
  {
    var chunks := [c] + rest;
    assert chunks[1..] == rest;
    TakeKeeps(chunks, ASK);
    var (got, more) := Take(chunks, ASK);
    HeadEndPrefix(pending, pending + c);
    if |c| > ASK {
      assert got == c[..ASK] && more == [c[ASK..]] + rest;
      assert (pending + got) + c[ASK..] == pending + c;
      Feed(pending + got, c[ASK..], rest, max);
    }
  }

  lemma TwoPieces(a: bytes, b: bytes)
    requires a != [] && b != []
    ensures IsCut([a, b]) && IsCut([b]) && [a, b] == [a] + [b] && Flatten([a, b]) == a + b
  {
    assert [a, b][1..] == [b] && [b][1..] == [];
    assert Flatten([b]) == b + Flatten([]);
  }

  /** The last read of the unluckiest cut brings in what one recv can, which must fit. */
  lemma LastRead(pending: bytes, b: bytes, max: nat)
    requires b != [] && IsCut([b]) && !HasHead(pending) && HeadArrives(pending, [b], max)
    ensures |pending| + Min(ASK, |b|) <= max
  {
    assert Take([b], ASK).0 == b[..Min(ASK, |b|)];
  }

  /** The unluckiest cut: everything short of the terminator's last byte, then the rest. */
  lemma WorstCut(s: bytes, max: nat) returns (chunks: seq<bytes>)
    requires HasHead(s) && Reach(s) > max
    ensures IsCut(chunks) && Flatten(chunks) == s && !HeadArrives([], chunks, max)
  {
    hide *;
    var e := HeadEnd(s);
    BeforeHead(s);
    var a, b := s[..e - 1], s[e - 1..];
    chunks := [a, b];
    TwoPieces(a, b);
    assert [] + a == a;
    Feed([], a, [b], max);
    if HeadArrives(a, [b], max) {
      LastRead(a, b, max);
      ReachIs(s);
    }
  }

  lemma BeforeHead(s: bytes)
    requires HasHead(s)
    ensures var e := HeadEnd(s);
            4 <= e <= |s| && !HasHead(s[..e - 1]) && s[..e - 1] + s[e - 1..] == s
  {
    hide HeadEnd;
    HeadEndPrefix(s[..HeadEnd(s) - 1], s);
  }

  lemma ReachIs(s: bytes)
    requires HasHead(s)
    ensures Reach(s) == HeadEnd(s) - 1 + Min(ASK, |s| - HeadEnd(s) + 1)
  {
    hide HeadEnd;
  }

  /** The head is read under every cut of the stream exactly when it is there and the buffer has room for it and
      for the bytes a single recv may bring along. */
  lemma ReadsUnderEveryCut(s: bytes, max: nat)
    ensures (forall chunks: seq<bytes> :: IsCut(chunks) && Flatten(chunks) == s ==> HeadArrives([], chunks, max))
       <==> HasHead(s) && Reach(s) <= max
  {
    if HasHead(s) && Reach(s) <= max {
      forall chunks: seq<bytes> | IsCut(chunks) && Flatten(chunks) == s ensures HeadArrives([], chunks, max) {
        assert [] + s == s;
        Arrives([], chunks, max);
      }
    } else if HasHead(s) {
      var chunks: seq<bytes> := WorstCut(s, max);
      assert IsCut(chunks) && Flatten(chunks) == s && !HeadArrives([], chunks, max);
    } else {
      var chunks: seq<bytes> := if s == [] then [] else [s];
      assert Flatten(chunks) == s;
      assert [] + s == s;
      NeverArrives([], chunks, max);
    }
  }

  /** A piece that ends with the head is read to its end, in as many reads as it takes, when the head fits. */
  lemma {:induction false} CleanCut(pending: bytes, piece: bytes, rest: seq<bytes>, max: nat)
    requires piece != [] && IsCut(rest) && HeadEnd(pending + piece) == |pending + piece| <= max
    ensures IsCut([piece] + rest) && HeadArrives(pending, [piece] + rest, max)
    decreases |piece|
  {
    hide HeadEnd;
    var chunks := [piece] + rest;
    assert chunks[1..] == rest;
    TakeKeeps(chunks, ASK);
    HeadEndPrefix(pending, pending + piece);
    if |piece| > ASK {
      var (got, more) := Take(chunks, ASK);
      assert got == piece[..ASK] && more == [piece[ASK..]] + rest;
      assert (pending + got) + piece[ASK..] == pending + piece;
      CleanCut(pending + got, piece[ASK..], rest, max);
    } else {
      TakeKeeps(rest, ASK);
    }
  }

  /** A head that is read fits the limit. */
  lemma {:induction false} ArrivedFits(pending: bytes, chunks: seq<bytes>, max: nat)
    requires IsCut(chunks) && HeadArrives(pending, chunks, max) && (HasHead(pending) ==> HeadEnd(pending) <= max)
    ensures var s := pending + Flatten(chunks); HasHead(s) && HeadEnd(s) <= max
    decreases |Flatten(chunks)|
  {
    hide HeadEnd, Flatten;
    HeadEndPrefix(pending, pending + Flatten(chunks));
    if !HasHead(pending) {
      TakeKeeps(chunks, ASK);
      var (got, rest) := Take(chunks, ASK);
      assert pending + Flatten(chunks) == (pending + got) + Flatten(rest);
      hide Take;
      ArrivedFits(pending + got, rest, max);
    }
  }

  /** Some cut of the stream is read exactly when the head is there and fits the limit. */
  lemma ReadsUnderSomeCut(s: bytes, max: nat)
    ensures (exists chunks: seq<bytes> :: IsCut(chunks) && Flatten(chunks) == s && HeadArrives([], chunks, max))
       <==> HasHead(s) && HeadEnd(s) <= max
  {
    if chunks: seq<bytes> :| IsCut(chunks) && Flatten(chunks) == s && HeadArrives([], chunks, max) {
      assert [] + s == s;
      assert !HasHead([]);
      ArrivedFits([], chunks, max);
    }
    if HasHead(s) && HeadEnd(s) <= max {
      var chunks := LuckyCut(s, max);
      assert IsCut(chunks) && Flatten(chunks) == s && HeadArrives([], chunks, max);
    }
  }

  /** The luckiest cut: the head, then the rest. */
  lemma LuckyCut(s: bytes, max: nat) returns (chunks: seq<bytes>)
    requires HasHead(s) && HeadEnd(s) <= max
    ensures IsCut(chunks) && Flatten(chunks) == s && HeadArrives([], chunks, max)
  {
    hide *;
    var e := HeadEnd(s);
    AtHead(s);
    var head := s[..e];
    var more := Remaining(head, s[e..]);
    chunks := [head] + more;
    CleanCut([], head, more, max);
  }

  lemma AtHead(s: bytes)
    requires HasHead(s)
    ensures var e := HeadEnd(s);
            && 4 <= e <= |s| && s[..e] + s[e..] == s
            && HeadEnd([] + s[..e]) == |[] + s[..e]| == e
  {
    hide HeadEnd;
    var e := HeadEnd(s);
    HeadEndPrefix(s[..e], s);
    assert [] + s[..e] == s[..e];
  }

  /** What follows the head, as the pieces of a cut. */
  lemma Remaining(head: bytes, rest: bytes) returns (more: seq<bytes>)
    requires head != []
    ensures IsCut(more) && Flatten([head] + more) == head + rest
  {
    more := if rest == [] then [] else [rest];
    assert ([head] + more)[1..] == more;
    assert rest != [] ==> more[1..] == [];
    assert Flatten(more) == rest;
  }

  const MAX_HTTP_HEADER_BYTES: nat := 8192

  /** A head of exactly 8192 bytes and one byte behind it. */
  function FullHead(): (s: bytes) { seq(8188, i => 65) + TERMINATOR + [66] }

  lemma FullHeadEnds()
    ensures |FullHead()| == 8193 && HeadEnd(FullHead()) == 8192
  {
    var s := FullHead();
    assert s[8188] == 13 && s[8189] == 10 && s[8190] == 13 && s[8191] == 10;
    assert s[8188..8192] == TERMINATOR;
    assert EndsAt(s, 8192);
    forall e | 4 <= e < 8192 ensures !EndsAt(s, e) {
      assert s[e - 4..e][0] == 65;
    }
  }

  /** Under the server's own limit the same bytes are read in one cut and refused in another. */
  lemma SameBytesReadAndRefused() returns (read: seq<bytes>, refused: seq<bytes>)
    ensures IsCut(read) && Flatten(read) == FullHead() && HeadArrives([], read, MAX_HTTP_HEADER_BYTES)
    ensures IsCut(refused) && Flatten(refused) == FullHead() && !HeadArrives([], refused, MAX_HTTP_HEADER_BYTES)
  {
    hide HeadArrives, HeadEnd, Flatten, IsCut, FullHead;
    FullHeadEnds();
    read := LuckyCut(FullHead(), MAX_HTTP_HEADER_BYTES);
    refused := WorstCut(FullHead(), MAX_HTTP_HEADER_BYTES);
  }
}
