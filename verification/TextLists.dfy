/** Lists written as pieces with semicolons between them, read so that a piece that cannot be read is
    skipped; and the bracketed, bar-separated shape of one piece. */
module TextLists {
  import opened Bytes
  import opened Seqs

  const SEMI: char := ';'
  const BAR: char := '|'

  /** What the readable pieces hold, in order. */
  function ReadAll<T>(ps: seq<string>, one: string -> Option<T>): (r: seq<T>)
  {
    if ps == [] then [] else Maybe(one(ps[0])) + ReadAll(ps[1..], one)
  }

  function Maybe<T>(o: Option<T>): (r: seq<T>)
  {
    match o
    case None => []
    case Some(x) => [x]
  }

  function ReadList<T>(text: string, one: string -> Option<T>): (r: seq<T>)
  {
    ReadAll(Pieces(text, SEMI), one)
  }

  function Printed<T>(xs: seq<T>, show: T -> string): (r: seq<string>)
  {
    if xs == [] then [] else [show(xs[0])] + Printed(xs[1..], show)
  }

  function WriteList<T>(xs: seq<T>, show: T -> string): (r: string)
  {
    Join(Printed(xs, show), SEMI)
  }

  lemma {:induction false} ReadAllAppend<T>(a: seq<string>, b: seq<string>, one: string -> Option<T>)
    ensures ReadAll(a + b, one) == ReadAll(a, one) + ReadAll(b, one)
  {
    hide *;
    if a == [] {
      assert a + b == b;
      ReadNone(one);
    } else {
      ReadAllAppend(a[1..], b, one);
      ReadCons(a, one);
      ReadCons(a + b, one);
      assert (a + b)[1..] == a[1..] + b && (a + b)[0] == a[0];
    }
  }

  lemma ReadNone<T>(one: string -> Option<T>)
    ensures ReadAll([], one) == []
  {}

  lemma ReadCons<T>(ps: seq<string>, one: string -> Option<T>)
    requires ps != []
    ensures ReadAll(ps, one) == Maybe(one(ps[0])) + ReadAll(ps[1..], one)
  {}

  lemma {:induction false} ReadAllMembers<T(!new)>(ps: seq<string>, one: string -> Option<T>, x: T)
    ensures x in ReadAll(ps, one) <==> exists p :: p in ps && one(p) == Some(x)
  {
    if ps != [] {
      assert ps == [ps[0]] + ps[1..];
      ReadAllMembers(ps[1..], one, x);
    }
  }

  /** Reading is piecewise: a list is read as its two halves are, and a text with no semicolon as itself.
      So a piece that cannot be read removes only itself. */
  lemma ReadConcat<T>(a: string, b: string, one: string -> Option<T>)
    ensures ReadList(a + [SEMI] + b, one) == ReadList(a, one) + ReadList(b, one)
  {
    hide Pieces, ReadAll;
    PiecesConcat(a, b, SEMI);
    ReadAllAppend(Pieces(a, SEMI), Pieces(b, SEMI), one);
  }

  lemma ReadOne<T>(p: string, one: string -> Option<T>)
    ensures SEMI !in p && p != "" ==> ReadList(p, one) == Maybe(one(p))
    ensures ReadList("", one) == []
  {
    hide Pieces;
    PiecesOne(p, SEMI);
    PiecesNil(SEMI);
    if SEMI !in p && p != "" {
      assert [p][1..] == [];
      assert ReadAll([p], one) == Maybe(one(p)) + ReadAll([], one);
    }
  }

  lemma BadPieceRemovesItself<T>(a: string, p: string, b: string, one: string -> Option<T>)
    requires SEMI !in p && one(p) == None
    ensures ReadList(a + [SEMI] + p + [SEMI] + b, one) == ReadList(a + [SEMI] + b, one)
  {
    hide ReadList;
    ReadConcat(a + [SEMI] + p, b, one);
    ReadConcat(a, p, one);
    ReadConcat(a, b, one);
    ReadOne(p, one);
  }

  /** Everything read comes from a piece without semicolons. */
  lemma ReadFrom<T(!new)>(text: string, one: string -> Option<T>, x: T)
    requires x in ReadList(text, one)
    ensures exists p :: p != "" && SEMI !in p && one(p) == Some(x)
  {
    hide Pieces, ReadAll;
    ReadAllMembers(Pieces(text, SEMI), one, x);
    PiecesClean(text, SEMI);
  }

  lemma {:induction false} ReadPrinted<T>(xs: seq<T>, show: T -> string, one: string -> Option<T>)
    requires forall x :: x in xs ==> one(show(x)) == Some(x) && show(x) != "" && SEMI !in show(x)
    ensures ReadAll(Printed(xs, show), one) == xs
    ensures forall p :: p in Printed(xs, show) ==> p != "" && SEMI !in p
  {
    if xs != [] {
      assert xs == [xs[0]] + xs[1..];
      assert xs[0] in xs;
      ReadPrinted(xs[1..], show, one);
      var ps := Printed(xs, show);
      assert ps[1..] == Printed(xs[1..], show) && ps[0] == show(xs[0]);
      assert ps == [ps[0]] + ps[1..];
    }
  }

  lemma ReadWritten<T>(xs: seq<T>, show: T -> string, one: string -> Option<T>)
    requires forall x :: x in xs ==> one(show(x)) == Some(x) && show(x) != "" && SEMI !in show(x)
    ensures ReadList(WriteList(xs, show), one) == xs
  {
    hide ReadAll, Printed, Pieces;
    ReadPrinted(xs, show, one);
    PiecesJoinClean(Printed(xs, show), SEMI);
  }

  // ---------------------------------------------------------------- loops

  /** One turn of a reading loop at a position: the piece there, then the rest behind its semicolon. */
  lemma ReadStep<T>(text: string, start: nat, one: string -> Option<T>)
    requires start <= |text|
    ensures var len := Find(text[start..], SEMI);
            && start + len <= |text|
            && ReadList(text[start..], one) == PieceAt(text[start..start + len], one)
                                              + (if start + len == |text| then []
                                                 else ReadList(text[start + len + 1..], one))
  {
    hide *;
    var s := text[start..];
    var len := Find(s, SEMI);
    SemiStep(s);
    ReadIs(s, one);
    BehindIs(text, start, len, one);
    ReadIs(Behind(s, len), one);
    ReadPiece(s[..len], Pieces(Behind(s, len), SEMI), one);
  }

  lemma SemiStep(s: string)
    ensures var i := Find(s, SEMI);
            Pieces(s, SEMI) == NonEmpty([s[..i]]) + Pieces(Behind(s, i), SEMI)
  {
    PiecesStep(s, SEMI);
  }

  lemma ReadIs<T>(s: string, one: string -> Option<T>)
    ensures ReadList(s, one) == ReadAll(Pieces(s, SEMI), one)
  {}

  lemma BehindIs<T>(text: string, start: nat, len: nat, one: string -> Option<T>)
    requires start + len <= |text|
    ensures text[start..][..len] == text[start..start + len]
    ensures ReadList(Behind(text[start..], len), one) ==
            if start + len == |text| then [] else ReadList(text[start + len + 1..], one)
  {
    if start + len == |text| {
      ReadOne("", one);
    } else {
      assert Behind(text[start..], len) == text[start + len + 1..];
    }
  }

  /** What one piece, possibly empty, contributes. */
  function PieceAt<T>(p: string, one: string -> Option<T>): (r: seq<T>)
  {
    if p == "" then [] else Maybe(one(p))
  }

  lemma ReadPiece<T>(p: string, more: seq<string>, one: string -> Option<T>)
    ensures ReadAll(NonEmpty([p]) + more, one) == PieceAt(p, one) + ReadAll(more, one)
  {
    hide NonEmpty, ReadAll;
    NonEmptyOne(p);
    if p == "" {
      assert [] + more == more;
    } else {
      ReadCons([p] + more, one);
      assert ([p] + more)[1..] == more;
    }
  }

  /** One turn of a loop over the split text. */
  lemma PieceStep<T>(ps: seq<string>, i: nat, one: string -> Option<T>)
    requires i < |ps|
    ensures ReadAll(NonEmpty(ps[i..]), one) ==
            PieceAt(ps[i], one) + ReadAll(NonEmpty(ps[i + 1..]), one)
  {
    hide NonEmpty, ReadAll, PieceAt;
    assert ps[i..] == [ps[i]] + ps[i + 1..];
    NonEmptyAppend([ps[i]], ps[i + 1..]);
    ReadPiece(ps[i], NonEmpty(ps[i + 1..]), one);
  }

  lemma PieceEnd<T>(one: string -> Option<T>)
    ensures ReadAll(NonEmpty<char>([]), one) == []
  {}

  lemma WriteNone<T>(show: T -> string)
    ensures WriteList([], show) == ""
  {}

  /** Appending one more piece to a written list. */
  lemma {:induction false} WriteSnoc<T>(xs: seq<T>, i: nat, show: T -> string)
    requires i < |xs|
    ensures WriteList(xs[..i + 1], show) ==
            if i == 0 then show(xs[0]) else WriteList(xs[..i], show) + [SEMI] + show(xs[i])
    decreases i
  {
    assert xs[..i + 1][1..] == xs[1..][..i];
    if i > 0 {
      WriteSnoc(xs[1..], i - 1, show);
      assert xs[..i][1..] == xs[1..][..i - 1];
      assert |Printed(xs[..i], show)| > 0;
    }
    if i > 1 {
      assert xs[1..][..i - 1] != [] && Printed(xs[1..][..i - 1], show) != [];
    }
  }

  // ---------------------------------------------------------------- one piece

  /** The text between a prefix ending in '(' and the closing bracket. */
  function Body(s: string, prefix: string): (r: Option<string>)
  {
    if |s| < |prefix| + 1 || s[..|prefix|] != prefix || s[|s| - 1] != ')' then None
    else Some(s[|prefix|..|s| - 1])
  }

  /** The text on either side of the first bar. */
  function Cut(s: string): (r: Option<(string, string)>)
    ensures r.Some? <==> BAR in s
    ensures r.Some? ==> s == r.value.0 + [BAR] + r.value.1 && BAR !in r.value.0
  {
    var i := Find(s, BAR);
    if i == |s| then None else Some((s[..i], s[i + 1..]))
  }

  lemma CutAt(a: string, b: string)
    requires BAR !in a
    ensures Cut(a + [BAR] + b) == Some((a, b))
  {
    hide Find;
    FindAt(a, BAR, b);
  }

  lemma BodyOf(prefix: string, body: string)
    ensures Body(prefix + body + ")", prefix) == Some(body)
  {
    var s := prefix + body + ")";
    assert s[..|prefix|] == prefix && s[|prefix|..|s| - 1] == body;
  }

  lemma BodyIff(s: string, prefix: string, body: string)
    ensures Body(s, prefix) == Some(body) <==> s == prefix + body + ")"
  {
    if Body(s, prefix) == Some(body) { assert s == s[..|prefix|] + s[|prefix|..|s| - 1] + [s[|s| - 1]]; }
    if s == prefix + body + ")" { BodyOf(prefix, body); }
  }

  lemma BodyMembers(s: string, prefix: string, c: char)
    requires Body(s, prefix).Some? && c !in s
    ensures c !in Body(s, prefix).value
  {}
}
