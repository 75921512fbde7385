/** The client's supervisor: it dials around the ring until the budget of refused dials is spent. */
module Supervisor {
  import opened Seqs
  import opened EndpointRing

  /** What becomes of one dial: refused, or a link that comes up, may push a new directory, and drops. */
  datatype Outcome = Refused | Dropped(pushes: seq<seq<Endpoint>>)

  datatype Sup = Sup(points: seq<Point>, index: nat, attempt: nat)

  ghost predicate Ready(s: Sup)
  {
    s.points != [] && s.index < |s.points| && NoDup(s.points) && forall p :: p in s.points ==> Usable(p)
  }

  function Limit(points: seq<Point>, laps: nat): (r: nat)
  {
    (if |points| < 1 then 1 else |points|) * laps
  }

  /** The position after i on a ring of n. */
  function Next(i: nat, n: nat): (r: nat)
    requires i < n
    ensures r < n
  {
    if i + 1 == n then 0 else i + 1
  }

  lemma NextIsModulo(i: nat, n: nat)
    requires i < n
    ensures Next(i, n) == (i + 1) % n
  {
    if i + 1 < n {
      assert (i + 1) / n == 0;
    } else {
      assert n % n == 0;
    }
  }

  /** One failAndWait: step the cursor and count the attempt. */
  function Fail(s: Sup): (r: Sup)
    requires s.index < |s.points|
  {
    Sup(s.points, Next(s.index, |s.points|), s.attempt + 1)
  }

  function Rebuild(s: Sup, seed: seq<Point>, directory: seq<Endpoint>): (r: Sup)
    requires s.points != [] && s.index < |s.points|
  {
    Sup(FirstUsable(Candidates(s.points[s.index], seed, directory)), 0, s.attempt)
  }

  lemma RebuildReady(s: Sup, seed: seq<Point>, directory: seq<Endpoint>)
    requires Ready(s)
    ensures Ready(Rebuild(s, seed, directory))
    ensures Rebuild(s, seed, directory).points[0] == s.points[s.index]
  {
    var all := Candidates(s.points[s.index], seed, directory);
    FirstUsableMembers(all);
    assert s.points[s.index] in s.points;
    FirstUsableHead(all);
  }

  ghost function RebuildAll(s: Sup, seed: seq<Point>, pushes: seq<seq<Endpoint>>): (r: Sup)
    requires Ready(s)
    ensures Ready(r) && r.points[r.index] == s.points[s.index] && r.attempt == s.attempt
    decreases |pushes|
  {
    if pushes == [] then s
    else
      RebuildReady(s, seed, pushes[0]);
      RebuildAll(Rebuild(s, seed, pushes[0]), seed, pushes[1..])
  }

  /** The state right after a dial has met its outcome, before the next one. */
  ghost function After(s: Sup, seed: seq<Point>, o: Outcome): (r: Sup)
    requires Ready(s)
    ensures Ready(r)
  {
    match o
    case Refused => Fail(s)
    case Dropped(pushes) => Fail(RebuildAll(s.(attempt := 0), seed, pushes))
  }

  /** The dials made and whether the budget ended the loop. */
  ghost function Supervise(s: Sup, seed: seq<Point>, laps: nat, outcomes: seq<Outcome>): (r: (seq<Point>, bool))
    requires Ready(s)
    decreases |outcomes|
  {
    if outcomes == [] then ([], false)
    else
      var next := After(s, seed, outcomes[0]);
      if next.attempt >= Limit(next.points, laps) then ([s.points[s.index]], true)
      else
        var (dials, spent) := Supervise(next, seed, laps, outcomes[1..]);
        ([s.points[s.index]] + dials, spent)
  }

  /** supervisorLoop over any outcomes of its dials; stop is requested when they run out. */
  method SupervisorLoop(ring: Ring, seed: seq<Point>, laps: nat, outcomes: seq<Outcome>)
    returns (dials: seq<Point>, spent: bool)
    requires ring.Valid()
    requires ring.points == [] || Ready(Sup(ring.points, ring.index, 0))
    modifies ring
    ensures old(ring.points) == [] ==> dials == [] && !spent
    ensures old(ring.points) != [] ==>
              (dials, spent) == Supervise(Sup(old(ring.points), old(ring.index), 0), seed, laps, outcomes)
  {
    dials, spent := [], false;
    if ring.points != [] { assert ring.points[ring.index] in ring.points; }
    if ring.Current().port == 0 {
      return;
    }
    var attempt := 0;
    var i := 0;
    ghost var s := Sup(ring.points, ring.index, 0);
    ghost var total := Supervise(s, seed, laps, outcomes);
    assert outcomes[0..] == outcomes && [] + total.0 == total.0;
    hide Supervise, After, Limit, Ready;
    while i < |outcomes|
      invariant 0 <= i <= |outcomes|
      invariant ring.Valid() && ring.points != [] && Ready(s) && s == Sup(ring.points, ring.index, attempt)
      invariant total == Then(dials, Supervise(s, seed, laps, outcomes[i..]))
    {
      DialedThen(s, seed, laps, outcomes[i..], dials);
      assert outcomes[i..][0] == outcomes[i] && outcomes[i..][1..] == outcomes[i + 1..];
      dials := dials + [ring.Current()];
      var goOn;
      attempt, goOn := DialOnce(ring, seed, laps, attempt, outcomes[i]);
      s := After(s, seed, outcomes[i]);
      i := i + 1;
      if !goOn {
        spent := true;
        return;
      }
    }
    SuperviseEnd(s, seed, laps);
    assert outcomes[i..] == [];
    assert dials + [] == dials;
  }

  /** A result with dials made before it. */
  ghost function Then(dials: seq<Point>, r: (seq<Point>, bool)): (t: (seq<Point>, bool)) { (dials + r.0, r.1) }

  /** One dial and what follows it, up to the next dial. */
  method DialOnce(ring: Ring, seed: seq<Point>, laps: nat, attempt: nat, outcome: Outcome)
    returns (next: nat, goOn: bool)
    requires ring.Valid() && Ready(Sup(ring.points, ring.index, attempt))
    modifies ring
    ensures ring.Valid() && ring.points != []
    ensures Sup(ring.points, ring.index, next) == After(Sup(old(ring.points), old(ring.index), attempt), seed, outcome)
    ensures goOn <==> next < Limit(ring.points, laps)
  {
    hide RebuildAll, Fail, Limit;
    ghost var s := Sup(ring.points, ring.index, attempt);
    var count := attempt;
    if outcome.Dropped? {
      count := 0;
      ApplyPushes(ring, seed, outcome.pushes, s.(attempt := 0));
    }
    next, goOn := FailAndWait(ring, count, laps);
  }

  /** failAndWait: step the ring, count the attempt, and say whether the budget allows another dial. */
  method FailAndWait(ring: Ring, attempt: nat, laps: nat) returns (next: nat, goOn: bool)
    requires ring.Valid() && ring.points != []
    modifies ring`index
    ensures ring.Valid()
    ensures Sup(ring.points, ring.index, next) == Fail(Sup(old(ring.points), old(ring.index), attempt))
    ensures goOn <==> next < Limit(ring.points, laps)
  {
    NextIsModulo(ring.index, |ring.points|);
    ring.Advance();
    next := attempt + 1;
    var limit := (if |ring.points| < 1 then 1 else |ring.points|) * laps;
    goOn := next < limit;
  }

  lemma SuperviseEnd(s: Sup, seed: seq<Point>, laps: nat)
    requires Ready(s)
    ensures Supervise(s, seed, laps, []) == ([], false)
  {}

  /** Directory pushes arriving while a link is up. */
  method ApplyPushes(ring: Ring, seed: seq<Point>, pushes: seq<seq<Endpoint>>, ghost s: Sup)
    requires ring.Valid() && Ready(s) && s.points == ring.points && s.index == ring.index
    modifies ring
    ensures ring.Valid() && Sup(ring.points, ring.index, s.attempt) == RebuildAll(s, seed, pushes)
    decreases |pushes|
  {
    if pushes != [] {
      assert ring.Current() in ring.points;
      ring.RebuildEndpoints(seed, pushes[0]);
      RebuildReady(s, seed, pushes[0]);
      ApplyPushes(ring, seed, pushes[1..], Rebuild(s, seed, pushes[0]));
    }
  }

  lemma SuperviseStep(s: Sup, seed: seq<Point>, laps: nat, outcomes: seq<Outcome>)
    requires Ready(s) && outcomes != []
    ensures var next := After(s, seed, outcomes[0]);
            Supervise(s, seed, laps, outcomes) ==
            if next.attempt >= Limit(next.points, laps) then ([s.points[s.index]], true)
            else Then([s.points[s.index]], Supervise(next, seed, laps, outcomes[1..]))
  {}

  lemma DialedThen(s: Sup, seed: seq<Point>, laps: nat, outcomes: seq<Outcome>, dials: seq<Point>)
    requires Ready(s) && outcomes != []
    ensures s.index < |s.points|
    ensures var next := After(s, seed, outcomes[0]);
            (Then(dials, Supervise(s, seed, laps, outcomes)) ==
             if next.attempt >= Limit(next.points, laps) then (dials + [s.points[s.index]], true)
             else Then(dials + [s.points[s.index]], Supervise(next, seed, laps, outcomes[1..])))
  {
    hide Limit, After, Supervise;
    SuperviseStep(s, seed, laps, outcomes);
    var later := Supervise(After(s, seed, outcomes[0]), seed, laps, outcomes[1..]).0;
    assert dials + ([s.points[s.index]] + later) == (dials + [s.points[s.index]]) + later;
  }

  // ---------------------------------------------------------------- laps

  /** m dials around the ring, from a position. */
  function Lap(points: seq<Point>, i: nat, m: nat): (r: seq<Point>)
    requires i < |points|
    ensures |r| == m
    decreases m
  {
    if m == 0 then [] else [points[i]] + Lap(points, Next(i, |points|), m - 1)
  }

  /** Dials from i up to, but not including, j. */
  lemma {:induction false} LapStretch(points: seq<Point>, i: nat, j: nat, m: nat)
    requires i <= j < |points| && m >= j - i
    ensures Lap(points, i, m) == points[i..j] + Lap(points, j, m - (j - i))
    decreases j - i
  {
    if i < j {
      LapStretch(points, i + 1, j, m - 1);
      assert points[i..j] == [points[i]] + points[i + 1..j];
    }
  }

  lemma LapToEnd(points: seq<Point>, i: nat, m: nat)
    requires i < |points| && m >= |points| - i
    ensures Lap(points, i, m) == points[i..] + Lap(points, 0, m - (|points| - i))
  {
    var last := |points| - 1;
    LapStretch(points, i, last, m);
    assert points[i..] == points[i..last] + [points[last]];
  }

  /** A full turn comes back to where it began. */
  lemma LapTurn(points: seq<Point>, i: nat, m: nat)
    requires i < |points| && m >= |points|
    ensures Lap(points, i, m) == points[i..] + points[..i] + Lap(points, i, m - |points|)
  {
    LapToEnd(points, i, m);
    LapStretch(points, 0, i, m - (|points| - i));
    assert points[0..i] == points[..i];
  }

  lemma {:induction false} FullLaps(points: seq<Point>, i: nat, laps: nat, p: Point)
    requires i < |points| && NoDup(points)
    ensures Count(Lap(points, i, |points| * laps), p) == if p in points then laps else 0
    decreases laps
  {
    var n := |points|;
    if laps == 0 {
      assert n * laps == 0;
    } else {
      hide Lap, Count;
      var rest := n * (laps - 1);
      assert n * laps == n + rest;
      LapTurn(points, i, n + rest);
      CountAppend(points[i..] + points[..i], Lap(points, i, rest), p);
      OnceAround(points, i, p);
      FullLaps(points, i, laps - 1, p);
    }
  }

  /** One turn meets every endpoint once. */
  lemma OnceAround(points: seq<Point>, i: nat, p: Point)
    requires i < |points| && NoDup(points)
    ensures Count(points[i..] + points[..i], p) == if p in points then 1 else 0
  {
    hide Count;
    CountAppend(points[i..], points[..i], p);
    CountAppend(points[..i], points[i..], p);
    assert points[..i] + points[i..] == points;
    CountMember(points, p);
  }

  // ---------------------------------------------------------------- the budget

  ghost predicate AllRefused(outcomes: seq<Outcome>)
  {
    forall k :: 0 <= k < |outcomes| ==> outcomes[k].Refused?
  }

  /** From any state with budget left, refusals use up exactly the rest of the budget, around the ring. */
  lemma {:induction false} RefusedRun(s: Sup, seed: seq<Point>, laps: nat, outcomes: seq<Outcome>)
    requires Ready(s) && AllRefused(outcomes) && s.attempt < Limit(s.points, laps)
    requires |outcomes| >= Limit(s.points, laps) - s.attempt
    ensures Supervise(s, seed, laps, outcomes) == (Lap(s.points, s.index, Limit(s.points, laps) - s.attempt), true)
    decreases |outcomes|
  {
    hide Limit;
    var limit := Limit(s.points, laps);
    var next := Fail(s);
    assert outcomes[0].Refused?;
    SuperviseStep(s, seed, laps, outcomes);
    if next.attempt < limit {
      var rest := outcomes[1..];
      assert AllRefused(rest) by {
        forall k | 0 <= k < |rest| ensures rest[k].Refused? { assert outcomes[k + 1].Refused?; }
      }
      RefusedRun(next, seed, laps, rest);
    } else {
      assert Lap(s.points, s.index, 1) == [s.points[s.index]];
    }
  }

  /** Refused from the start: exactly n * L dials, L to every endpoint, and then the supervisor stops. */
  lemma BudgetFromStart(points: seq<Point>, index: nat, seed: seq<Point>, laps: nat, outcomes: seq<Outcome>, p: Point)
    requires Ready(Sup(points, index, 0)) && laps > 0 && AllRefused(outcomes) && |outcomes| >= |points| * laps
    ensures var (dials, spent) := Supervise(Sup(points, index, 0), seed, laps, outcomes);
            && spent && |dials| == |points| * laps
            && Count(dials, p) == if p in points then laps else 0
  {
    assert Limit(points, laps) == |points| * laps;
    Positive(|points|, laps);
    RefusedRun(Sup(points, index, 0), seed, laps, outcomes);
    FullLaps(points, index, laps, p);
  }

  lemma Positive(n: nat, laps: nat)
    requires n > 0 && laps > 0
    ensures n * laps >= 1 && n * laps >= n && n * laps >= laps
  {
    assert n * laps == n * (laps - 1) + n;
    assert n * laps == (n - 1) * laps + laps;
  }

  /** A link at the current endpoint drops, after any number of directory pushes, and every redial is refused:
      the dial of the link itself, then n * L - 1 more around the ring as it was rebuilt, L to every other
      endpoint and L - 1 to the one that dropped. */
  lemma BudgetAfterDrop(s: Sup, seed: seq<Point>, laps: nat, pushes: seq<seq<Endpoint>>, outcomes: seq<Outcome>,
                        p: Point)
    requires Ready(s) && laps > 0
    requires var r := RebuildAll(s.(attempt := 0), seed, pushes);
             AllRefused(outcomes) && |outcomes| >= |r.points| * laps
    ensures var r := RebuildAll(s.(attempt := 0), seed, pushes);
            var (dials, spent) := Supervise(s, seed, laps, [Dropped(pushes)] + outcomes);
            && spent && |dials| == |r.points| * laps && dials[0] == s.points[s.index]
            && Count(dials[1..], p) == if p == s.points[s.index] then laps - 1 else if p in r.points then laps else 0
  {
    var r := RebuildAll(s.(attempt := 0), seed, pushes);
    var all := [Dropped(pushes)] + outcomes;
    var next := Fail(r);
    assert all[1..] == outcomes;
    SuperviseStep(s, seed, laps, all);
    assert Limit(r.points, laps) == |r.points| * laps;
    Positive(|r.points|, laps);
    var m := |r.points| * laps;
    if m > 1 { RefusedRun(next, seed, laps, outcomes); }
    assert Lap(r.points, r.index, m) == [r.points[r.index]] + Lap(r.points, next.index, m - 1);
    FullLaps(r.points, r.index, laps, p);
    CountAppend([r.points[r.index]], Lap(r.points, next.index, m - 1), p);
    assert Count([r.points[r.index]], p) == if p == r.points[r.index] then 1 else 0;
    assert Supervise(s, seed, laps, all).0[1..] == Lap(r.points, next.index, m - 1);
  }
}
