/** Finite sequences as the C++ containers and strings use them: distinctness, the last n
    elements, counting, flattening, and splitting or joining on a separator. */
module Seqs {

  function Elems<T(==)>(s: seq<T>): (r: set<T>)
  {
    set x | x in s
  }

  ghost predicate NoDup<T>(s: seq<T>)
  {
    forall i, j :: 0 <= i < j < |s| ==> s[i] != s[j]
  }

  /** The last n elements, or all of them when there are fewer. */
  function Last<T>(s: seq<T>, n: nat): (r: seq<T>)
    ensures |r| == if |s| < n then |s| else n
  {
    if |s| <= n then s else s[|s| - n..]
  }

  function Count<T(==)>(s: seq<T>, x: T): (n: nat)
  {
    if s == [] then 0 else (if s[0] == x then 1 else 0) + Count(s[1..], x)
  }

  function Flatten<T>(ss: seq<seq<T>>): (r: seq<T>)
  {
    if ss == [] then [] else ss[0] + Flatten(ss[1..])
  }

  /** Position of the first sep, or the length when there is none. */
  function Find<T(==)>(s: seq<T>, sep: T): (i: nat)
    ensures i <= |s|
    ensures i < |s| ==> s[i] == sep
    ensures sep !in s[..i]
    ensures sep !in s <==> i == |s|
  {
    if s == [] then 0
    else if s[0] == sep then 0
    else
      var k := Find(s[1..], sep);
      assert s[..1 + k] == [s[0]] + s[1..][..k];
      assert s == [s[0]] + s[1..];
      1 + k
  }

  lemma FindAt<T>(a: seq<T>, sep: T, b: seq<T>)
    requires sep !in a
    ensures Find(a + [sep] + b, sep) == |a|
    ensures (a + [sep] + b)[..|a|] == a && (a + [sep] + b)[|a| + 1..] == b
  {
    var s := a + [sep] + b;
    assert s[..|a|] == a && s[|a| + 1..] == b;
    assert s[|a|] == sep && Find(s, sep) == |a|;
  }

  /** Every piece between separators, empty pieces included. */
  function Split<T(==)>(s: seq<T>, sep: T): (r: seq<seq<T>>)
    ensures |r| >= 1
    decreases |s|
  {
    var i := Find(s, sep);
    if i == |s| then [s] else [s[..i]] + Split(s[i + 1..], sep)
  }

  function Join<T>(ps: seq<seq<T>>, sep: T): (r: seq<T>)
  {
    if |ps| == 0 then [] else if |ps| == 1 then ps[0] else ps[0] + [sep] + Join(ps[1..], sep)
  }

  function NonEmpty<T(==,!new)>(ps: seq<seq<T>>): (r: seq<seq<T>>)
    ensures forall p :: p in r <==> p in ps && p != []
  {
    if ps == [] then []
    else (if ps[0] == [] then [] else [ps[0]]) + NonEmpty(ps[1..])
  }

  /** The pieces the readers look at: those between separators that are not empty. */
  function Pieces<T(==,!new)>(s: seq<T>, sep: T): (r: seq<seq<T>>)
  {
    NonEmpty(Split(s, sep))
  }

  // ---------------------------------------------------------------- lemmas

  lemma {:induction false} NoDupCardinality<T>(s: seq<T>)
    ensures |Elems(s)| <= |s|
    ensures NoDup(s) <==> |Elems(s)| == |s|
  {
    if s != [] {
      var n := |s| - 1;
      NoDupCardinality(s[..n]);
      assert s == s[..n] + [s[n]];
      assert Elems(s) == Elems(s[..n]) + {s[n]};
      if s[n] in s[..n] {
        assert Elems(s) == Elems(s[..n]);
        var i :| 0 <= i < n && s[i] == s[n];
        assert !NoDup(s);
      } else {
        assert NoDup(s) <==> NoDup(s[..n]) by {
          if NoDup(s[..n]) {
            forall i, j | 0 <= i < j < |s| ensures s[i] != s[j] {
              if j < n { assert s[..n][i] != s[..n][j]; } else { assert s[i] in s[..n]; }
            }
          }
          if NoDup(s) {
            forall i, j | 0 <= i < j < n ensures s[..n][i] != s[..n][j] {
              assert s[i] != s[j];
            }
          }
        }
      }
    }
  }

  lemma {:induction false} CountAppend<T>(a: seq<T>, b: seq<T>, x: T)
    ensures Count(a + b, x) == Count(a, x) + Count(b, x)
  {
    if a == [] {
      assert a + b == b;
    } else {
      CountAppend(a[1..], b, x);
      assert (a + b)[1..] == a[1..] + b;
    }
  }

  lemma {:induction false} CountMember<T>(s: seq<T>, x: T)
    ensures Count(s, x) > 0 <==> x in s
    ensures NoDup(s) ==> Count(s, x) <= 1
  {
    if s != [] {
      CountMember(s[1..], x);
      assert s == [s[0]] + s[1..];
      if NoDup(s) {
        assert NoDup(s[1..]) by {
          forall i, j | 0 <= i < j < |s[1..]| ensures s[1..][i] != s[1..][j] {
            assert s[1 + i] != s[1 + j];
          }
        }
        assert s[0] !in s[1..];
      }
    }
  }

  lemma {:induction false} SplitAt<T>(s: seq<T>, i: nat, sep: T)
    requires i < |s| && s[i] == sep && sep !in s[..i]
    ensures Split(s, sep) == [s[..i]] + Split(s[i + 1..], sep)
  {
    assert Find(s, sep) == i;
  }

  lemma {:induction false} SplitClean<T>(s: seq<T>, sep: T)
    ensures forall p :: p in Split(s, sep) ==> sep !in p
    decreases |s|
  {
    var i := Find(s, sep);
    if i < |s| {
      SplitClean(s[i + 1..], sep);
    }
  }

  lemma SplitNone<T>(s: seq<T>, sep: T)
    requires sep !in s
    ensures Split(s, sep) == [s]
  {}

  lemma {:induction false} SplitConcat<T>(a: seq<T>, b: seq<T>, sep: T)
    ensures Split(a + [sep] + b, sep) == Split(a, sep) + Split(b, sep)
    decreases |a|
  {
    hide Split, Find;
    var s := a + [sep] + b;
    var i := Find(a, sep);
    assert s[..i] == a[..i];
    SplitAt(s, i, sep);
    if i == |a| {
      SplitNone(a, sep);
      assert a[..i] == a && s[i + 1..] == b;
    } else {
      SplitAt(a, i, sep);
      assert s[i + 1..] == a[i + 1..] + [sep] + b;
      SplitConcat(a[i + 1..], b, sep);
    }
  }

  lemma JoinStep<T>(ps: seq<seq<T>>, sep: T)
    requires ps != []
    ensures Join(ps, sep) == if |ps| == 1 then ps[0] else ps[0] + [sep] + Join(ps[1..], sep)
    ensures |ps| == 1 ==> ps == [ps[0]]
  {}

  /** When no piece holds the separator, splitting the joined text gives the pieces back. */
  lemma {:induction false} SplitJoinClean<T>(ps: seq<seq<T>>, sep: T)
    requires ps != []
    requires forall p :: p in ps ==> sep !in p
    ensures Split(Join(ps, sep), sep) == ps
  {
    hide *;
    SplitNone(ps[0], sep);
    JoinStep(ps, sep);
    if |ps| > 1 {
      SplitConcat(ps[0], Join(ps[1..], sep), sep);
      SplitJoinClean(ps[1..], sep);
      assert ps == [ps[0]] + ps[1..];
    }
  }

  lemma {:induction false} NonEmptyAll<T(!new)>(ps: seq<seq<T>>)
    requires forall p :: p in ps ==> p != []
    ensures NonEmpty(ps) == ps
  {
    if ps != [] {
      assert ps == [ps[0]] + ps[1..];
      forall p | p in ps[1..] ensures p != [] {
        assert p in ps;
      }
      NonEmptyAll(ps[1..]);
      assert ps[0] in ps;
    }
  }

  lemma {:induction false} NonEmptyAppend<T(!new)>(a: seq<seq<T>>, b: seq<seq<T>>)
    ensures NonEmpty(a + b) == NonEmpty(a) + NonEmpty(b)
  {
    if a == [] {
      assert a + b == b;
    } else {
      assert (a + b)[1..] == a[1..] + b;
      NonEmptyAppend(a[1..], b);
    }
  }

  function AllPieces<T(==,!new)>(ps: seq<seq<T>>, sep: T): (r: seq<seq<T>>)
  {
    if ps == [] then [] else Pieces(ps[0], sep) + AllPieces(ps[1..], sep)
  }

  /** The pieces of a joined text are the pieces of its parts, whatever the parts contain. */
  lemma {:induction false} PiecesJoin<T(!new)>(ps: seq<seq<T>>, sep: T)
    ensures Pieces(Join(ps, sep), sep) == AllPieces(ps, sep)
  {
    if |ps| == 0 {
      PiecesNil<T>(sep);
    } else if |ps| == 1 {
      assert AllPieces(ps[1..], sep) == [];
    } else {
      SplitConcat(ps[0], Join(ps[1..], sep), sep);
      NonEmptyAppend(Split(ps[0], sep), Split(Join(ps[1..], sep), sep));
      PiecesJoin(ps[1..], sep);
    }
  }

  lemma {:induction false} AllPiecesMember<T(!new)>(ps: seq<seq<T>>, sep: T, p: seq<T>, x: seq<T>)
    requires p in ps && x in Pieces(p, sep)
    ensures x in AllPieces(ps, sep)
  {
    hide Pieces;
    if p != ps[0] {
      assert ps == [ps[0]] + ps[1..];
      AllPiecesMember(ps[1..], sep, p, x);
    }
  }

  lemma PiecesClean<T(!new)>(s: seq<T>, sep: T)
    ensures forall p :: p in Pieces(s, sep) ==> p != [] && sep !in p
  {
    SplitClean(s, sep);
  }

  lemma PiecesNil<T(!new)>(sep: T)
    ensures Pieces([], sep) == []
  {
    var none: seq<T> := [];
    assert Split(none, sep) == [none];
    assert NonEmpty([none]) == NonEmpty([none][1..]);
  }

  lemma PiecesOne<T(!new)>(p: seq<T>, sep: T)
    ensures sep !in p && p != [] ==> Pieces(p, sep) == [p]
    ensures p in Pieces(p, sep) ==> sep !in p && p != []
  {
    SplitClean(p, sep);
    if sep !in p && p != [] {
      assert Split(p, sep) == [p];
      assert NonEmpty([p]) == [p] + NonEmpty([]);
    }
  }

  lemma PiecesJoinClean<T(!new)>(ps: seq<seq<T>>, sep: T)
    requires forall p :: p in ps ==> sep !in p && p != []
    ensures Pieces(Join(ps, sep), sep) == ps
  {
    if ps == [] {
      PiecesNil<T>(sep);
    } else {
      SplitJoinClean(ps, sep);
      NonEmptyAll(ps);
    }
  }

  /** What follows the element at i; nothing when i is past the end. */
  function Behind<T>(s: seq<T>, i: nat): (r: seq<T>)
  {
    if i < |s| then s[i + 1..] else []
  }

  /** What is left at a reading position; nothing once the position has passed the end. */
  function Rest<T>(s: seq<T>, start: nat): (r: seq<T>)
  {
    if start <= |s| then s[start..] else []
  }

  lemma RestEnds<T>(s: seq<T>, start: nat)
    ensures Rest(s, 0) == s
    ensures start >= |s| ==> Rest(s, start) == []
  {}

  /** A reading step of some length, then over the element behind it. */
  lemma RestIs<T>(s: seq<T>, start: nat, len: nat)
    requires start + len <= |s|
    ensures Rest(s, start) == s[start..]
    ensures s[start..][..len] == s[start..start + len]
    ensures Behind(s[start..], len) == Rest(s, start + len + 1)
  {}

  /** The first piece, then the pieces behind the first separator. */
  lemma PiecesStep<T(!new)>(s: seq<T>, sep: T)
    ensures var i := Find(s, sep);
            Pieces(s, sep) == NonEmpty([s[..i]]) + Pieces(Behind(s, i), sep)
  {
    hide Find;
    var i := Find(s, sep);
    PiecesNil<T>(sep);
    if i < |s| {
      NonEmptyAppend([s[..i]], Split(s[i + 1..], sep));
    } else {
      assert s[..i] == s;
    }
  }

  lemma NonEmptyOne<T(!new)>(p: seq<T>)
    ensures NonEmpty([p]) == if p == [] then [] else [p]
  {
    assert NonEmpty([p]) == (if p == [] then [] else [p]) + NonEmpty([p][1..]);
  }

  /** Pieces on both sides of a separator. */
  lemma PiecesConcat<T(!new)>(a: seq<T>, b: seq<T>, sep: T)
    ensures Pieces(a + [sep] + b, sep) == Pieces(a, sep) + Pieces(b, sep)
  {
    SplitConcat(a, b, sep);
    NonEmptyAppend(Split(a, sep), Split(b, sep));
  }
}
