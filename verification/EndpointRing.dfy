/** The client's failover list: merging the current endpoint, the live directory and the seed, and the
    wrapping cursor over the result. */
module EndpointRing {
  import opened Seqs
  import opened Powers

  type u16 = x: int | 0 <= x < 65536

  datatype Point = Point(host: string, port: u16)
  datatype Endpoint = Endpoint(nodeId: string, host: string, port: u16)

  const NOWHERE: Point := Point("", 0)

  predicate Usable(p: Point) { p.host != "" && p.port != 0 }

  predicate Live(e: Endpoint) { e.nodeId != "" && e.host != "" && e.port != 0 }

  // ---------------------------------------------------------------- merging

  function AppendUnique(out: seq<Point>, p: Point): (r: seq<Point>)
  {
    if !Usable(p) || p in out then out else out + [p]
  }

  function AppendAll(out: seq<Point>, ps: seq<Point>): (r: seq<Point>)
    decreases |ps|
  {
    if ps == [] then out else AppendAll(AppendUnique(out, ps[0]), ps[1..])
  }

  /** The points of the live directory entries, in order. */
  function LivePoints(directory: seq<Endpoint>): (r: seq<Point>)
  {
    if directory == [] then []
    else (if Live(directory[0]) then [Point(directory[0].host, directory[0].port)] else []) + LivePoints(directory[1..])
  }

  /** Everything that is merged, in the order of preference. */
  function Candidates(current: Point, seed: seq<Point>, directory: seq<Endpoint>): (r: seq<Point>)
  {
    [current] + LivePoints(directory) + seed
  }

  /** Independent description: the usable candidates, each at the place of its first occurrence. */
  function FirstUsable(ps: seq<Point>): (r: seq<Point>)
    decreases |ps|
  {
    if ps == [] then []
    else
      var front, last := FirstUsable(ps[..|ps| - 1]), ps[|ps| - 1];
      if Usable(last) && last !in ps[..|ps| - 1] then front + [last] else front
  }

  lemma {:induction false} FirstUsableMembers(ps: seq<Point>)
    ensures forall p :: p in FirstUsable(ps) <==> p in ps && p.host != "" && p.port != 0
    ensures NoDup(FirstUsable(ps))
    decreases |ps|
  {
    if ps != [] {
      var n := |ps| - 1;
      FirstUsableMembers(ps[..n]);
      assert ps == ps[..n] + [ps[n]];
    }
  }

  lemma {:induction false} AppendAllSnoc(out: seq<Point>, ps: seq<Point>, p: Point)
    ensures AppendAll(out, ps + [p]) == AppendUnique(AppendAll(out, ps), p)
    decreases |ps|
  {
    if ps == [] {
      assert (ps + [p])[1..] == [];
    } else {
      assert (ps + [p])[1..] == ps[1..] + [p];
      AppendAllSnoc(AppendUnique(out, ps[0]), ps[1..], p);
    }
  }

  lemma {:induction false} AppendAllIs(ps: seq<Point>)
    ensures AppendAll([], ps) == FirstUsable(ps)
    decreases |ps|
  {
    if ps != [] {
      var n := |ps| - 1;
      assert AppendUnique(FirstUsable(ps[..n]), ps[n]) == FirstUsable(ps) by { FirstUsableMembers(ps[..n]); }
      hide *;
      AppendAllIs(ps[..n]);
      AppendAllSnoc([], ps[..n], ps[n]);
      assert ps == ps[..n] + [ps[n]];
    }
  }

  lemma {:induction false} AppendAllConcat(out: seq<Point>, a: seq<Point>, b: seq<Point>)
    ensures AppendAll(out, a + b) == AppendAll(AppendAll(out, a), b)
    decreases |a|
  {
    if a == [] {
      assert a + b == b;
    } else {
      assert (a + b)[1..] == a[1..] + b;
      AppendAllConcat(AppendUnique(out, a[0]), a[1..], b);
    }
  }

  method AppendUniqueTo(out: seq<Point>, p: Point) returns (r: seq<Point>)
    ensures r == AppendUnique(out, p)
  {
    if p.host == "" || p.port == 0 {
      return out;
    }
    var i := 0;
    while i < |out|
      invariant 0 <= i <= |out|
      invariant p !in out[..i]
    {
      if out[i].host == p.host && out[i].port == p.port {
        return out;
      }
      i := i + 1;
    }
    assert out[..i] == out;
    return out + [p];
  }

  /** mergeFailoverList: exactly the usable candidates without repetition, in order of first appearance. */
  method MergeFailoverList(current: Point, seed: seq<Point>, directory: seq<Endpoint>) returns (merged: seq<Point>)
    ensures merged == FirstUsable(Candidates(current, seed, directory))
  {
    hide *;
    merged := AppendUniqueTo([], current);
    AppendOne([], current);
    merged := AppendDirectory(merged, directory);
    merged := AppendSeeds(merged, seed);
    MergeIs(current, seed, directory);
  }

  /** The live entries of the directory, in order. */
  method AppendDirectory(out: seq<Point>, directory: seq<Endpoint>) returns (r: seq<Point>)
    ensures r == AppendAll(out, LivePoints(directory))
  {
    hide AppendUnique, AppendAll, LivePoints;
    r := out;
    var i := 0;
    AppendNone(out);
    LivePointsNone();
    assert directory[..0] == [];
    while i < |directory|
      invariant 0 <= i <= |directory|
      invariant r == AppendAll(out, LivePoints(directory[..i]))
    {
      LivePointsSnoc(directory, i);
      if directory[i].nodeId != "" && directory[i].host != "" && directory[i].port != 0 {
        AppendAllSnoc(out, LivePoints(directory[..i]), Point(directory[i].host, directory[i].port));
        r := AppendUniqueTo(r, Point(directory[i].host, directory[i].port));
      }
      i := i + 1;
    }
    assert directory[..i] == directory;
  }

  method AppendSeeds(out: seq<Point>, seed: seq<Point>) returns (r: seq<Point>)
    ensures r == AppendAll(out, seed)
  {
    hide AppendUnique, AppendAll;
    r := out;
    var i := 0;
    AppendNone(out);
    assert seed[..0] == [];
    while i < |seed|
      invariant 0 <= i <= |seed|
      invariant r == AppendAll(out, seed[..i])
    {
      AppendAllSnoc(out, seed[..i], seed[i]);
      assert seed[..i + 1] == seed[..i] + [seed[i]];
      r := AppendUniqueTo(r, seed[i]);
      i := i + 1;
    }
    assert seed[..i] == seed;
  }

  lemma AppendNone(out: seq<Point>)
    ensures AppendAll(out, []) == out
  {}

  lemma AppendOne(out: seq<Point>, p: Point)
    ensures AppendAll(out, [p]) == AppendUnique(out, p)
  {
    assert [p][1..] == [];
  }

  /** The three stages together. */
  lemma MergeIs(current: Point, seed: seq<Point>, directory: seq<Endpoint>)
    ensures AppendAll(AppendAll(AppendAll([], [current]), LivePoints(directory)), seed)
         == FirstUsable(Candidates(current, seed, directory))
  {
    hide AppendAll, LivePoints, FirstUsable;
    AppendAllConcat([], [current], LivePoints(directory));
    AppendAllConcat([], [current] + LivePoints(directory), seed);
    AppendAllIs(Candidates(current, seed, directory));
  }

  lemma {:induction false} LivePointsAppend(a: seq<Endpoint>, b: seq<Endpoint>)
    ensures LivePoints(a + b) == LivePoints(a) + LivePoints(b)
  {
    hide *;
    if a == [] {
      assert a + b == b;
      LivePointsNone();
    } else {
      LivePointsAppend(a[1..], b);
      LivePointsCons(a);
      LivePointsCons(a + b);
      assert (a + b)[1..] == a[1..] + b && (a + b)[0] == a[0];
    }
  }

  lemma LivePointsNone()
    ensures LivePoints([]) == []
  {}

  lemma LivePointsCons(directory: seq<Endpoint>)
    requires directory != []
    ensures LivePoints(directory) == LivePoint(directory[0]) + LivePoints(directory[1..])
  {}

  function LivePoint(e: Endpoint): (r: seq<Point>) { if Live(e) then [Point(e.host, e.port)] else [] }

  lemma LivePointsSnoc(directory: seq<Endpoint>, i: nat)
    requires i < |directory|
    ensures LivePoints(directory[..i + 1]) ==
            if Live(directory[i]) then LivePoints(directory[..i]) + [Point(directory[i].host, directory[i].port)]
            else LivePoints(directory[..i])
  {
    hide LivePoints;
    assert directory[..i + 1] == directory[..i] + [directory[i]];
    LivePointsAppend(directory[..i], [directory[i]]);
    LivePointsCons([directory[i]]);
    assert [directory[i]][1..] == [];
    LivePointsNone();
  }

  // ---------------------------------------------------------------- the ring

  class Ring {
    var points: seq<Point>
    var index: nat

    ghost predicate Valid()
      reads this
    {
      index == 0 || index < |points|
    }

    constructor ()
      ensures Valid() && points == [] && index == 0
    {
      points, index := [], 0;
    }

    function Current(): (p: Point)
      requires Valid()
      reads this
    {
      if points == [] then NOWHERE else points[index]
    }

    /** replace: the cursor stays on its endpoint when the new list has it, and goes to the front otherwise. */
    method Replace(next: seq<Point>)
      requires Valid()
      modifies this
      ensures Valid() && points == next
      ensures old(points) != [] && old(Current()) in next ==>
              Current() == old(Current()) && old(Current()) !in points[..index]
      ensures old(points) == [] || old(Current()) !in next ==> index == 0
    {
      var had := points != [];
      var previous := Current();
      points := next;
      index := 0;
      if !had || points == [] {
        return;
      }
      var i := 0;
      while i < |points|
        invariant 0 <= i <= |points|
        invariant points == next && index == 0
        invariant previous !in points[..i]
      {
        if points[i].host == previous.host && points[i].port == previous.port {
          index := i;
          return;
        }
        i := i + 1;
      }
      assert points[..i] == points;
    }

    /** advance: one step, wrapping. */
    method Advance()
      requires Valid()
      modifies this`index
      ensures Valid()
      ensures points == [] ==> index == old(index)
      ensures points != [] ==> index == (old(index) + 1) % |points|
    {
      if points == [] {
        return;
      }
      index := (index + 1) % |points|;
    }

    /** rebuildEndpoints: the list becomes the merged one and a usable current endpoint stays current, at the
        front. */
    method RebuildEndpoints(seed: seq<Point>, directory: seq<Endpoint>)
      requires Valid()
      modifies this
      ensures Valid()
      ensures points == FirstUsable(Candidates(old(Current()), seed, directory))
      ensures NoDup(points) && forall p :: p in points ==> Usable(p)
      ensures Usable(old(Current())) ==> points != [] && index == 0 && Current() == points[0] == old(Current())
      ensures !Usable(old(Current())) && points != [] ==> Current() != old(Current())
    {
      var connected := Current();
      var merged := MergeFailoverList(connected, seed, directory);
      FirstUsableMembers(Candidates(connected, seed, directory));
      if Usable(connected) { FirstUsableHead(Candidates(connected, seed, directory)); }
      Replace(merged);
    }
  }

  lemma {:induction false} FirstUsableHead(ps: seq<Point>)
    requires ps != [] && Usable(ps[0])
    ensures FirstUsable(ps) != [] && FirstUsable(ps)[0] == ps[0]
    decreases |ps|
  {
    if |ps| > 1 {
      FirstUsableHead(ps[..|ps| - 1]);
    } else {
      assert ps[..0] == [];
      assert FirstUsable(ps[..0]) == [];
    }
  }

  /** After a rebuild around a usable current endpoint, the next endpoint is the first live directory entry
      other than the current one, when there is one. */
  lemma {:induction false} NextIsDirectory(current: Point, seed: seq<Point>, directory: seq<Endpoint>, i: nat)
    requires Usable(current) && i < |LivePoints(directory)| && LivePoints(directory)[i] != current
    requires forall j :: 0 <= j < i ==> LivePoints(directory)[j] == current
    ensures var merged := FirstUsable(Candidates(current, seed, directory));
            |merged| > 1 && merged[0] == current && merged[1] == LivePoints(directory)[i]
  {
    hide FirstUsable, LivePoints;
    var live := LivePoints(directory);
    var all := Candidates(current, seed, directory);
    LiveAreUsable(directory);
    assert Usable(live[i]);
    var front := all[..i + 1];
    assert forall j :: 0 <= j < |front| ==> front[j] == current;
    RepeatsVanish(front, current);
    FirstUsableSnoc(front, live[i]);
    assert all[..i + 2] == front + [live[i]];
    FirstUsablePrefix(all, i + 2);
    PrefixPair(FirstUsable(all), current, live[i]);
  }

  lemma PrefixPair(s: seq<Point>, a: Point, b: Point)
    requires [a, b] <= s
    ensures |s| > 1 && s[0] == a && s[1] == b
  {
    assert s[..2] == [a, b];
  }

  lemma FirstUsableSnoc(ps: seq<Point>, p: Point)
    ensures FirstUsable(ps + [p]) == if Usable(p) && p !in ps then FirstUsable(ps) + [p] else FirstUsable(ps)
  {
    assert (ps + [p])[..|ps|] == ps;
  }

  lemma {:induction false} LiveAreUsable(directory: seq<Endpoint>)
    ensures forall p :: p in LivePoints(directory) ==> Usable(p)
  {
    if directory != [] { LiveAreUsable(directory[1..]); }
  }

  lemma {:induction false} RepeatsVanish(ps: seq<Point>, p: Point)
    requires ps != [] && Usable(p) && forall j :: 0 <= j < |ps| ==> ps[j] == p
    ensures FirstUsable(ps) == [p]
    decreases |ps|
  {
    var n := |ps| - 1;
    if n > 0 {
      RepeatsVanish(ps[..n], p);
      assert ps[..n][0] == p;
    } else {
      assert FirstUsable(ps[..0]) == [];
    }
  }

  lemma {:induction false} FirstUsablePrefix(ps: seq<Point>, k: nat)
    requires k <= |ps|
    ensures FirstUsable(ps[..k]) <= FirstUsable(ps)
    decreases |ps|
  {
    if k < |ps| {
      FirstUsablePrefix(ps[..|ps| - 1], k);
      assert ps[..|ps| - 1][..k] == ps[..k];
    } else {
      assert ps[..k] == ps;
    }
  }

  // ---------------------------------------------------------------- backoff

  const BASE_MS: int := 200
  const CAP_MS: int := 8000

  function Ceiling(attempt: int): (r: int)
  {
    var raw := BASE_MS * Pow2(if attempt < 0 then 0 else attempt);
    if raw < CAP_MS then raw else CAP_MS
  }

  /** The ceiling never falls as attempts grow, and stays within its bounds. */
  lemma CeilingMonotone(m: int, n: int)
    requires m <= n
    ensures BASE_MS <= Ceiling(m) <= Ceiling(n) <= CAP_MS
  {
    Pow2Grows(if m < 0 then 0 else m, if n < 0 then 0 else n);
  }

  /** 200 to begin with, twice as much with every attempt, never above 8000. */
  lemma CeilingSteps(n: int)
    ensures n <= 0 ==> Ceiling(n) == 200
    ensures n >= 0 ==> Ceiling(n + 1) == if 2 * Ceiling(n) < 8000 then 2 * Ceiling(n) else 8000
  {
    if n >= 0 { Pow2Grows(0, n); }
  }

  /** backoffCeilingMs: the loop computes min(8000, 200 * 2^max(n, 0)) without ever exceeding 8000. */
  method BackoffCeilingMs(attempt: int) returns (ceiling: int)
    ensures ceiling == Ceiling(attempt)
  {
    ceiling := BASE_MS;
    var steps := if attempt < 0 then 0 else attempt;
    var i := 0;
    while i < steps
      invariant 0 <= i <= steps
      invariant ceiling == BASE_MS * Pow2(i) <= CAP_MS
    {
      if ceiling >= CAP_MS / 2 {
        Pow2Grows(i + 1, steps);
        ceiling := CAP_MS;
        break;
      }
      ceiling := ceiling * 2;
      i := i + 1;
    }
  }
}
