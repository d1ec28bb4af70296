/**
  services/data_quality.py: the quality gate over one window of telemetry. `units` is the deterministic
  `canonical_unit`; None is its ValueError.
 */
module DataQuality {
  import opened Basics
  import opened Sorting
  import D = Decimals

  const INTERVAL_MS: int := 60_000
  const WINDOW_POINTS: nat := 66

  datatype Point = Point(timestamp: int, value: string, unit: string)

  datatype Quality = Quality(distinct: nat, missing: nat, raw: nat)

  datatype Code =
    | WindowPointCount
    | FutureTimestamp
    | OutsideWindow
    | UnitMismatch
    | NonFinite
    | DuplicateRecord
    | MissingRatio
    | ConsecutiveMissing

  datatype Verdict =
    | Accepted(points: seq<Point>, summary: Quality)
    | Rejected(code: Code, summary: Quality)
    | BadBindingUnit

  type Units = string -> Option<string>

  /** The binding columns the gate uses, and the end of the window in milliseconds. */
  datatype Gate = Gate(windowPoints: nat, unit: string, scale: nat, windowEnd: int)

  function WindowStart(g: Gate): int { g.windowEnd - g.windowPoints * INTERVAL_MS }

  // ---------------------------------------------------------------- one record

  function Check(g: Gate, units: Units, expected: string, p: Point): Result<Point, Code> {
    if p.timestamp >= g.windowEnd then Err(FutureTimestamp)
    else if p.timestamp < WindowStart(g) || p.timestamp % INTERVAL_MS != 0 then Err(OutsideWindow)
    else if units(p.unit) != Some(expected) then Err(UnitMismatch)
    else
      match D.Canonical(p.value, g.scale)
      case Err(_) => Err(NonFinite)
      case Ok(value) => Ok(Point(p.timestamp, value, expected))
  }

  // ---------------------------------------------------------------- all records

  type Checked = Result<Point, Code>

  function Checks(g: Gate, units: Units, expected: string, points: seq<Point>): seq<Checked> {
    Map(p => Check(g, units, expected, p), points)
  }

  datatype Scanned = Scanned(canonical: seq<Point>, error: Option<Code>)

  /** The records are taken in order up to the first failure or repetition. */
  function Scan(results: seq<Checked>): Scanned {
    if results == [] then Scanned([], None)
    else
      var before := Scan(results[..|results| - 1]);
      if before.error.Some? then before
      else
        match results[|results| - 1]
        case Err(code) => Scanned(before.canonical, Some(code))
        case Ok(p) =>
          if p in before.canonical then Scanned(before.canonical, Some(DuplicateRecord))
          else Scanned(before.canonical + [p], None)
  }

  function Occupied(points: seq<Point>): (r: set<int>)
    ensures forall p :: p in points ==> p.timestamp in r
    ensures forall at :: at in r ==> exists p :: p in points && p.timestamp == at
  {
    if points == [] then {} else Occupied(points[..|points| - 1]) + {points[|points| - 1].timestamp}
  }

  function BucketAt(start: int, i: int): int { start + i * INTERVAL_MS }

  function MissingIndexes(start: int, occupied: set<int>, n: nat): (r: seq<nat>)
    ensures forall i: nat :: i in r <==> i < n && BucketAt(start, i) !in occupied
    ensures |r| <= n
  {
    if n == 0 then []
    else
      var rest := MissingIndexes(start, occupied, n - 1);
      if BucketAt(start, n - 1) in occupied then rest else rest + [n - 1]
  }

  predicate ThreeInARow(missing: seq<nat>, n: nat) {
    exists i: nat :: i < n && i in missing && i + 1 in missing && i + 2 in missing
  }

  function FailedSummary(points: seq<Point>, windowPoints: nat): Quality {
    var distinct := |Occupied(points)|;
    Quality(distinct, if windowPoints > distinct then windowPoints - distinct else 0, |points|)
  }

  predicate PointLe(p: Point, q: Point) {
    || p.timestamp < q.timestamp
    || (p.timestamp == q.timestamp
        && (if p.value != q.value then TextLe(p.value, q.value) else TextLe(p.unit, q.unit)))
  }

  function Judge(g: Gate, canonical: seq<Point>): Verdict {
    var occupied := Occupied(canonical);
    var missing := MissingIndexes(WindowStart(g), occupied, g.windowPoints);
    if |missing| > g.windowPoints / 10 then Rejected(MissingRatio, FailedSummary(canonical, g.windowPoints))
    else if g.windowPoints >= 2 && ThreeInARow(missing, g.windowPoints - 2)
    then Rejected(ConsecutiveMissing, FailedSummary(canonical, g.windowPoints))
    else Accepted(Sort(canonical, PointLe), Quality(|occupied|, |missing|, |canonical|))
  }

  function Evaluated(g: Gate, units: Units, points: seq<Point>): Verdict {
    if g.windowPoints != WINDOW_POINTS then Rejected(WindowPointCount, FailedSummary([], g.windowPoints))
    else
      match units(g.unit)
      case None => BadBindingUnit
      case Some(expected) =>
        var s := Scan(Checks(g, units, expected, points));
        if s.error.Some? then Rejected(s.error.value, FailedSummary(s.canonical, g.windowPoints))
        else Judge(g, s.canonical)
  }

  /** `DataQualityEvaluator.evaluate`: grows the list of canonical records and the set of their identities. */
  method Evaluate(g: Gate, units: Units, points: seq<Point>) returns (verdict: Verdict)
    ensures verdict == Evaluated(g, units, points)
  {
    if g.windowPoints != WINDOW_POINTS {
      return Rejected(WindowPointCount, FailedSummary([], g.windowPoints));
    }
    var unit := units(g.unit);
    if unit.None? {
      return BadBindingUnit;
    }
    ghost var results := Checks(g, units, unit.value, points);
    var canonical: seq<Point> := [];
    var identities: set<Point> := {};
    var i := 0;
    while i < |points|
      invariant 0 <= i <= |points|
      invariant Scan(results[..i]) == Scanned(canonical, None)
      invariant forall p :: p in identities <==> p in canonical
    {
      assert results[..i + 1][..i] == results[..i];
      var checked := Check(g, units, unit.value, points[i]);
      assert checked == results[i];
      if checked.Err? {
        ScanStops(results, i + 1);
        return Rejected(checked.error, FailedSummary(canonical, g.windowPoints));
      }
      if checked.value in identities {
        ScanStops(results, i + 1);
        return Rejected(DuplicateRecord, FailedSummary(canonical, g.windowPoints));
      }
      identities := identities + {checked.value};
      canonical := canonical + [checked.value];
      i := i + 1;
    }
    assert results[..i] == results;
    verdict := Judge(g, canonical);
  }

  /** The first failure is the verdict on every longer list. */
  lemma {:induction false} ScanStops(results: seq<Checked>, n: nat)
    requires n <= |results| && Scan(results[..n]).error.Some?
    ensures Scan(results) == Scan(results[..n])
    decreases |results|
  {
    if n == |results| {
      assert results[..n] == results;
    } else {
      var front := results[..|results| - 1];
      assert front[..n] == results[..n];
      ScanStops(front, n);
    }
  }

  // ---------------------------------------------------------------- acceptance without an order

  function Values(results: seq<Checked>): seq<Point> {
    if results == [] then []
    else
      var rest := Values(results[..|results| - 1]);
      if results[|results| - 1].Ok? then rest + [results[|results| - 1].value] else rest
  }

  ghost predicate AllPass(results: seq<Checked>) { forall i :: 0 <= i < |results| ==> results[i].Ok? }

  ghost predicate AllDistinct(points: seq<Point>) { forall p :: multiset(points)[p] <= 1 }

  lemma AddedStaysDistinct(points: seq<Point>, p: Point)
    ensures AllDistinct(points + [p]) <==> AllDistinct(points) && p !in points
  {
    assert forall q :: multiset(points + [p])[q] == multiset(points)[q] + (if q == p then 1 else 0);
    assert p in points <==> multiset(points)[p] > 0;
  }

  /** A scan succeeds exactly when every record passes and no two are the same, and then finds all of them. */
  lemma {:induction false} ScanIsExact(results: seq<Checked>)
    ensures Scan(results).error.None? <==> AllPass(results) && AllDistinct(Values(results))
    ensures Scan(results).error.None? ==> Scan(results).canonical == Values(results)
  {
    if results != [] {
      var n := |results| - 1;
      ScanIsExact(results[..n]);
      if results[n].Ok? {
        AddedStaysDistinct(Values(results[..n]), results[n].value);
      }
    }
  }

  lemma {:induction false} CountValue(results: seq<Checked>, p: Point)
    ensures multiset(Values(results))[p] == multiset(results)[Ok(p)]
  {
    if results != [] {
      var n := |results| - 1;
      CountValue(results[..n], p);
      assert results == results[..n] + [results[n]];
    }
  }

  lemma ValuesIgnoreOrder(xs: seq<Checked>, ys: seq<Checked>)
    requires multiset(xs) == multiset(ys)
    ensures multiset(Values(xs)) == multiset(Values(ys))
    ensures AllPass(xs) <==> AllPass(ys)
  {
    forall p ensures multiset(Values(xs))[p] == multiset(Values(ys))[p] {
      CountValue(xs, p);
      CountValue(ys, p);
    }
    PassIgnoresOrder(xs, ys);
    PassIgnoresOrder(ys, xs);
  }

  lemma PassIgnoresOrder(xs: seq<Checked>, ys: seq<Checked>)
    requires multiset(xs) == multiset(ys)
    ensures AllPass(xs) ==> AllPass(ys)
  {
    forall i | 0 <= i < |ys| && AllPass(xs) ensures ys[i].Ok? {
      assert ys[i] in multiset(xs);
    }
  }

  lemma PointOrder()
    ensures IsTotalOrder(PointLe) && IsAntisymmetric(PointLe)
  {
    forall p: Point, q: Point ensures PointLe(p, q) || PointLe(q, p) {
      TextLeTotal(p.value, q.value);
      TextLeTotal(p.unit, q.unit);
    }
    forall p: Point, q: Point, r: Point | PointLe(p, q) && PointLe(q, r) ensures PointLe(p, r) {
      PointLeTransitive(p, q, r);
    }
    forall p: Point, q: Point | PointLe(p, q) && PointLe(q, p) ensures p == q {
      if p.value != q.value {
        TextLeAntisymmetric(p.value, q.value);
      } else {
        TextLeAntisymmetric(p.unit, q.unit);
      }
    }
  }

  lemma PointLeTransitive(p: Point, q: Point, r: Point)
    requires PointLe(p, q) && PointLe(q, r)
    ensures PointLe(p, r)
  {
    if p.timestamp == q.timestamp == r.timestamp {
      if p.value != q.value && q.value != r.value {
        TextLeTransitive(p.value, q.value, r.value);
        if p.value == r.value {
          TextLeAntisymmetric(p.value, q.value);
        }
      } else if p.value == q.value == r.value {
        TextLeTransitive(p.unit, q.unit, r.unit);
      }
    }
  }

  lemma OccupiedIgnoresOrder(xs: seq<Point>, ys: seq<Point>)
    requires multiset(xs) == multiset(ys)
    ensures Occupied(xs) == Occupied(ys) && |xs| == |ys|
  {
    assert |multiset(xs)| == |xs| && |multiset(ys)| == |ys|;
    assert forall p :: p in xs <==> p in multiset(xs);
    assert forall p :: p in ys <==> p in multiset(ys);
  }

  lemma JudgeIgnoresOrder(g: Gate, xs: seq<Point>, ys: seq<Point>)
    requires multiset(xs) == multiset(ys)
    ensures Judge(g, xs) == Judge(g, ys)
  {
    OccupiedIgnoresOrder(xs, ys);
    PointOrder();
    SortIgnoresOrder(xs, ys, PointLe);
  }

  /** The gate accepts a list exactly when it accepts any permutation of it, with the same points and summary. */
  lemma EvaluationIgnoresOrder(g: Gate, units: Units, xs: seq<Point>, ys: seq<Point>)
    requires multiset(xs) == multiset(ys)
    ensures Evaluated(g, units, xs).Accepted? <==> Evaluated(g, units, ys).Accepted?
    ensures Evaluated(g, units, xs).Accepted? ==> Evaluated(g, units, xs) == Evaluated(g, units, ys)
  {
    if g.windowPoints == WINDOW_POINTS && units(g.unit).Some? {
      var expected := units(g.unit).value;
      var rs, ss := Checks(g, units, expected, xs), Checks(g, units, expected, ys);
      MapIgnoresOrder(p => Check(g, units, expected, p), xs, ys);
      ScanIsExact(rs);
      ScanIsExact(ss);
      ValuesIgnoreOrder(rs, ss);
      JudgeIgnoresOrder(g, Values(rs), Values(ss));
    }
  }

  // ---------------------------------------------------------------- what an accepted window looks like

  function OccupiedBelow(occupied: set<int>, start: int, n: nat): set<int> {
    set t | t in occupied && t < BucketAt(start, n)
  }

  /** On an aligned grid, the first `n` buckets are either occupied or missing. */
  lemma {:induction false} BucketsAdd(start: int, occupied: set<int>, n: nat)
    requires start % INTERVAL_MS == 0 && forall t :: t in occupied ==> start <= t && t % INTERVAL_MS == 0
    ensures |OccupiedBelow(occupied, start, n)| + |MissingIndexes(start, occupied, n)| == n
  {
    if n == 0 {
      assert OccupiedBelow(occupied, start, 0) == {};
    } else {
      BucketsAdd(start, occupied, n - 1);
      var b := BucketAt(start, n - 1);
      forall t | t in occupied && b <= t < BucketAt(start, n) ensures t == b {
        AlignedGap(start, t, n - 1);
      }
      assert OccupiedBelow(occupied, start, n) ==
             OccupiedBelow(occupied, start, n - 1) + (if b in occupied then {b} else {});
    }
  }

  lemma AlignedGap(start: int, t: int, i: nat)
    requires start % INTERVAL_MS == 0 && t % INTERVAL_MS == 0
    requires BucketAt(start, i) <= t < BucketAt(start, i + 1)
    ensures t == BucketAt(start, i)
  {}

  /** One of the buckets `i`, `i + 1`, `i + 2` holds a point. */
  ghost predicate HasPointWithin(points: seq<Point>, start: int, i: nat) {
    exists p :: p in points && BucketAt(start, i) <= p.timestamp <= BucketAt(start, i + 2)
  }

  ghost predicate GatePassed(g: Gate, expected: string, v: Verdict)
    requires v.Accepted?
  {
    && g.windowEnd % INTERVAL_MS == 0
    && v.summary.distinct + v.summary.missing == WINDOW_POINTS
    && v.summary.distinct >= 60
    && v.summary.raw == |v.points|
    && (forall i: nat :: i < WINDOW_POINTS - 2 ==> HasPointWithin(v.points, WindowStart(g), i))
    && (forall i :: 1 <= i < |v.points| ==> PointLe(v.points[i - 1], v.points[i]) && v.points[i - 1] != v.points[i])
    && (forall p :: p in v.points ==> InWindow(g, expected, p))
  }

  ghost predicate InWindow(g: Gate, expected: string, p: Point) {
    && WindowStart(g) <= p.timestamp < g.windowEnd && p.timestamp % INTERVAL_MS == 0
    && p.unit == expected && D.Canonical(p.value, g.scale) == Ok(p.value)
  }

  lemma CheckedInWindow(g: Gate, units: Units, expected: string, p: Point)
    requires Check(g, units, expected, p).Ok?
    ensures InWindow(g, expected, Check(g, units, expected, p).value)
  {
    D.CanonicalIsIdempotent(p.value, g.scale);
  }

  ghost predicate ResultInWindow(g: Gate, expected: string, r: Checked) { r.Ok? ==> InWindow(g, expected, r.value) }

  lemma {:induction false} ValuesInWindow(g: Gate, expected: string, results: seq<Checked>)
    requires forall i :: 0 <= i < |results| ==> ResultInWindow(g, expected, results[i])
    ensures forall p :: p in Values(results) ==> InWindow(g, expected, p)
    ensures AllPass(results) ==> |Values(results)| == |results|
  {
    if results != [] {
      ValuesInWindow(g, expected, results[..|results| - 1]);
    }
  }

  lemma ScannedInWindow(g: Gate, units: Units, expected: string, points: seq<Point>)
    requires Scan(Checks(g, units, expected, points)).error.None?
    ensures var all := Scan(Checks(g, units, expected, points)).canonical;
            && AllDistinct(all) && |all| == |points|
            && forall p :: p in all ==> InWindow(g, expected, p)
  {
    var results := Checks(g, units, expected, points);
    ScanIsExact(results);
    forall i | 0 <= i < |results| ensures ResultInWindow(g, expected, results[i]) {
      if results[i].Ok? {
        CheckedInWindow(g, units, expected, points[i]);
      }
    }
    ValuesInWindow(g, expected, results);
  }

  lemma SortedMembers(all: seq<Point>)
    ensures var sorted := Sort(all, PointLe);
            && |sorted| == |all| && IsSorted(sorted, PointLe)
            && (forall p :: p in sorted <==> p in all)
            && (AllDistinct(all) ==> AllDistinct(sorted))
  {
    var sorted := Sort(all, PointLe);
    PointOrder();
    SortContents(all, PointLe);
    SortSorts(all, PointLe);
    forall p ensures p in sorted <==> p in all {
      assert p in multiset(sorted) <==> p in multiset(all);
    }
  }

  lemma TwinsCountTwice(points: seq<Point>, i: nat)
    requires 1 <= i < |points|
    ensures points[i - 1] == points[i] ==> multiset(points)[points[i]] >= 2
  {
    assert points == points[..i - 1] + [points[i - 1], points[i]] + points[i + 1..];
  }

  lemma DistinctNeighbours(points: seq<Point>, i: nat)
    requires AllDistinct(points) && 1 <= i < |points|
    ensures points[i - 1] != points[i]
  {
    TwinsCountTwice(points, i);
  }

  lemma SortedStrictly(all: seq<Point>)
    requires AllDistinct(all)
    ensures var sorted := Sort(all, PointLe);
            forall i :: 1 <= i < |sorted| ==> PointLe(sorted[i - 1], sorted[i]) && sorted[i - 1] != sorted[i]
  {
    var sorted := Sort(all, PointLe);
    SortedMembers(all);
    forall i | 1 <= i < |sorted| ensures PointLe(sorted[i - 1], sorted[i]) && sorted[i - 1] != sorted[i] {
      DistinctNeighbours(sorted, i);
    }
  }

  lemma JudgedSummary(g: Gate, expected: string, all: seq<Point>)
    requires g.windowPoints == WINDOW_POINTS && Judge(g, all).Accepted?
    requires WindowStart(g) % INTERVAL_MS == 0 && forall p :: p in all ==> InWindow(g, expected, p)
    ensures var v := Judge(g, all);
            v.summary.distinct + v.summary.missing == WINDOW_POINTS && v.summary.distinct >= 60 && v.summary.raw == |all|
  {
    BucketsAdd(WindowStart(g), Occupied(all), WINDOW_POINTS);
    assert OccupiedBelow(Occupied(all), WindowStart(g), WINDOW_POINTS) == Occupied(all);
  }

  lemma SortedSpread(g: Gate, all: seq<Point>)
    requires g.windowPoints == WINDOW_POINTS
    requires !ThreeInARow(MissingIndexes(WindowStart(g), Occupied(all), WINDOW_POINTS), WINDOW_POINTS - 2)
    ensures forall i: nat :: i < WINDOW_POINTS - 2 ==> HasPointWithin(Sort(all, PointLe), WindowStart(g), i)
  {
    var sorted := Sort(all, PointLe);
    SortedMembers(all);
    NoThreeMissing(g, all);
    forall i: nat | i < WINDOW_POINTS - 2 ensures HasPointWithin(sorted, WindowStart(g), i) {
      assert HasPointWithin(all, WindowStart(g), i);
    }
  }

  lemma JudgedGood(g: Gate, expected: string, all: seq<Point>)
    requires g.windowPoints == WINDOW_POINTS && Judge(g, all).Accepted?
    requires AllDistinct(all) && forall p :: p in all ==> InWindow(g, expected, p)
    ensures GatePassed(g, expected, Judge(g, all)) && |Judge(g, all).points| == |all|
  {
    SortedMembers(all);
    SortedStrictly(all);
    AlignedWindow(g, all);
    JudgedSummary(g, expected, all);
    SortedSpread(g, all);
  }

  /**
    Whatever is accepted lies on a minute-aligned window, which the checks imply; of its 66 buckets at least 60 are
    present and no three in a row are missing, and the points are canonical, distinct and in order.
   */
  lemma AcceptedMeansGood(g: Gate, units: Units, points: seq<Point>)
    requires Evaluated(g, units, points).Accepted?
    ensures units(g.unit).Some? && GatePassed(g, units(g.unit).value, Evaluated(g, units, points))
    ensures |Evaluated(g, units, points).points| == |points|
  {
    var expected := units(g.unit).value;
    ScannedInWindow(g, units, expected, points);
    JudgedGood(g, expected, Scan(Checks(g, units, expected, points)).canonical);
  }

  /** Sixty-six buckets with at most six missing leave one occupied, and that one is on the minute. */
  lemma AlignedWindow(g: Gate, all: seq<Point>)
    requires g.windowPoints == WINDOW_POINTS
    requires |MissingIndexes(WindowStart(g), Occupied(all), WINDOW_POINTS)| <= 6
    requires forall p :: p in all ==> p.timestamp % INTERVAL_MS == 0
    ensures WindowStart(g) % INTERVAL_MS == 0 && g.windowEnd % INTERVAL_MS == 0
  {
    var missing := MissingIndexes(WindowStart(g), Occupied(all), WINDOW_POINTS);
    var i := PresentIndex(WindowStart(g), Occupied(all), WINDOW_POINTS);
    assert BucketAt(WindowStart(g), i) % INTERVAL_MS == 0;
  }

  lemma {:induction false} PresentIndex(start: int, occupied: set<int>, n: nat) returns (i: nat)
    requires |MissingIndexes(start, occupied, n)| < n
    ensures i < n && BucketAt(start, i) in occupied
  {
    if BucketAt(start, n - 1) in occupied {
      i := n - 1;
    } else {
      i := PresentIndex(start, occupied, n - 1);
    }
  }

  lemma NoThreeMissing(g: Gate, all: seq<Point>)
    requires g.windowPoints == WINDOW_POINTS
    requires !ThreeInARow(MissingIndexes(WindowStart(g), Occupied(all), WINDOW_POINTS), WINDOW_POINTS - 2)
    ensures forall i: nat :: i < WINDOW_POINTS - 2 ==> HasPointWithin(all, WindowStart(g), i)
  {
    var start, occupied := WindowStart(g), Occupied(all);
    var missing := MissingIndexes(start, occupied, WINDOW_POINTS);
    forall i: nat | i < WINDOW_POINTS - 2 ensures HasPointWithin(all, start, i) {
      assert !(i in missing && i + 1 in missing && i + 2 in missing);
      var j :| i <= j <= i + 2 && j !in missing;
      assert BucketAt(start, j) in occupied;
      var p :| p in all && p.timestamp == BucketAt(start, j);
    }
  }
}
