/** Exactly which windows of telemetry the quality gate accepts, and what each rejection means. */
module QualityVerdicts {
  import opened Basics
  import opened Sorting
  import opened DataQuality
  import D = Decimals

  // ---------------------------------------------------------------- the window in its own terms

  /** Minute `m` of the sixty-six before the window's end. */
  function Minute(g: Gate, m: int): int { g.windowEnd - 66 * 60000 + m * 60000 }

  /** The record is in the window, on a minute, in the expected unit, and a decimal. */
  predicate IsGood(g: Gate, units: Units, expected: string, p: Point) {
    && g.windowEnd - 66 * 60000 <= p.timestamp < g.windowEnd && p.timestamp % 60000 == 0
    && units(p.unit) == Some(expected) && D.Parse(p.value).Some?
  }

  /** Two good records say the same: the same minute and the same rounded value. */
  predicate IsRepeat(g: Gate, p: Point, q: Point)
    requires D.Parse(p.value).Some? && D.Parse(q.value).Some?
  {
    p.timestamp == q.timestamp && D.RoundTo(D.Parse(p.value).value, g.scale) == D.RoundTo(D.Parse(q.value).value, g.scale)
  }

  ghost predicate NoRepeats(g: Gate, points: seq<Point>)
    requires forall i :: 0 <= i < |points| ==> D.Parse(points[i].value).Some?
  {
    forall i, j :: 0 <= i < j < |points| ==> !IsRepeat(g, points[i], points[j])
  }

  predicate HasRecord(g: Gate, points: seq<Point>, m: int) {
    exists i :: 0 <= i < |points| && points[i].timestamp == Minute(g, m)
  }

  /** The minutes of the window without a record. */
  function Missing(g: Gate, points: seq<Point>): set<int> {
    set m | 0 <= m < 66 && !HasRecord(g, points, m)
  }

  /** Three minutes in a row have no record. */
  predicate HasGap(g: Gate, points: seq<Point>) {
    exists m :: 0 <= m < 64 && m in Missing(g, points) && m + 1 in Missing(g, points) && m + 2 in Missing(g, points)
  }

  ghost predicate RecordsAreGood(g: Gate, units: Units, expected: string, points: seq<Point>) {
    (forall i :: 0 <= i < |points| ==> IsGood(g, units, expected, points[i])) && NoRepeats(g, points)
  }

  /** A window of 66 minutes whose records are good and never repeat, at most six minutes missing, no three in a row. */
  ghost predicate IsAcceptable(g: Gate, units: Units, points: seq<Point>) {
    && g.windowPoints == 66 && units(g.unit).Some?
    && RecordsAreGood(g, units, units(g.unit).value, points)
    && |Missing(g, points)| <= 6 && !HasGap(g, points)
  }

  // ---------------------------------------------------------------- records

  lemma CheckIsGood(g: Gate, units: Units, expected: string, p: Point)
    requires g.windowPoints == 66
    ensures Check(g, units, expected, p).Ok? <==> IsGood(g, units, expected, p)
    ensures IsGood(g, units, expected, p) ==>
              Check(g, units, expected, p).value ==
              Point(p.timestamp, D.Print(D.RoundTo(D.Parse(p.value).value, g.scale), g.scale), expected)
  {}

  lemma RepeatIsEqual(g: Gate, units: Units, expected: string, p: Point, q: Point)
    requires g.windowPoints == 66 && IsGood(g, units, expected, p) && IsGood(g, units, expected, q)
    ensures Check(g, units, expected, p).value == Check(g, units, expected, q).value <==> IsRepeat(g, p, q)
  {
    CheckIsGood(g, units, expected, p);
    CheckIsGood(g, units, expected, q);
    if Check(g, units, expected, p).value == Check(g, units, expected, q).value {
      D.PrintIsInjective(D.RoundTo(D.Parse(p.value).value, g.scale), D.RoundTo(D.Parse(q.value).value, g.scale), g.scale);
    }
  }

  lemma {:induction false} PassedValues(results: seq<Checked>)
    requires AllPass(results)
    ensures |Values(results)| == |results| && forall i :: 0 <= i < |results| ==> Values(results)[i] == results[i].value
  {
    if results != [] {
      PassedValues(results[..|results| - 1]);
    }
  }

  lemma {:induction false} DistinctMeansApart(points: seq<Point>)
    ensures AllDistinct(points) <==> forall i, j :: 0 <= i < j < |points| ==> points[i] != points[j]
  {
    if points == [] {
      assert AllDistinct(points);
    } else {
      var n := |points| - 1;
      DistinctMeansApart(points[..n]);
      AddedStaysDistinct(points[..n], points[n]);
      assert points[..n] + [points[n]] == points;
      assert points[n] in points[..n] <==> exists i :: 0 <= i < n && points[i] == points[n];
    }
  }

  /** The scan of a window succeeds exactly when its records are good and never repeat. */
  lemma ScanAcceptsGood(g: Gate, units: Units, expected: string, points: seq<Point>)
    requires g.windowPoints == 66
    ensures var results := Checks(g, units, expected, points);
            && (Scan(results).error.None? <==> RecordsAreGood(g, units, expected, points))
            && (Scan(results).error.None? ==>
                  |Scan(results).canonical| == |points|
                  && forall i :: 0 <= i < |points| ==>
                       IsGood(g, units, expected, points[i])
                       && Scan(results).canonical[i] == Check(g, units, expected, points[i]).value)
  {
    var results := Checks(g, units, expected, points);
    ScanIsExact(results);
    forall i | 0 <= i < |points| ensures results[i].Ok? <==> IsGood(g, units, expected, points[i]) {
      CheckIsGood(g, units, expected, points[i]);
    }
    if AllPass(results) {
      PassedValues(results);
      DistinctMeansNoRepeats(g, units, expected, points, Values(results));
    }
  }

  lemma DistinctMeansNoRepeats(g: Gate, units: Units, expected: string, points: seq<Point>, values: seq<Point>)
    requires g.windowPoints == 66 && |values| == |points|
    requires forall i :: 0 <= i < |points| ==> D.Parse(points[i].value).Some?
    requires forall i :: 0 <= i < |points| ==>
               IsGood(g, units, expected, points[i]) && Check(g, units, expected, points[i]) == Ok(values[i])
    ensures AllDistinct(values) <==> NoRepeats(g, points)
  {
    DistinctMeansApart(values);
    forall i, j | 0 <= i < j < |points| ensures values[i] == values[j] <==> IsRepeat(g, points[i], points[j]) {
      RepeatIsEqual(g, units, expected, points[i], points[j]);
    }
  }

  // ---------------------------------------------------------------- minutes

  /** The canonical records stand for the raw ones, minute by minute. */
  ghost predicate SameMinutes(points: seq<Point>, canonical: seq<Point>) {
    |canonical| == |points| && forall i :: 0 <= i < |points| ==> canonical[i].timestamp == points[i].timestamp
  }

  lemma OccupiedIsRecorded(g: Gate, points: seq<Point>, canonical: seq<Point>, m: int)
    requires g.windowPoints == 66 && SameMinutes(points, canonical)
    ensures BucketAt(WindowStart(g), m) in Occupied(canonical) <==> HasRecord(g, points, m)
  {
    assert BucketAt(WindowStart(g), m) == Minute(g, m);
    if BucketAt(WindowStart(g), m) in Occupied(canonical) {
      var p :| p in canonical && p.timestamp == Minute(g, m);
      var i :| 0 <= i < |canonical| && canonical[i] == p;
      assert points[i].timestamp == Minute(g, m);
    }
    if HasRecord(g, points, m) {
      var i :| 0 <= i < |points| && points[i].timestamp == Minute(g, m);
      assert canonical[i] in canonical;
    }
  }

  ghost function MissingBelow(g: Gate, points: seq<Point>, n: nat): set<int> {
    set m | 0 <= m < n && !HasRecord(g, points, m)
  }

  lemma MissingGrows(g: Gate, points: seq<Point>, n: nat)
    ensures MissingBelow(g, points, 0) == {}
    ensures |MissingBelow(g, points, n + 1)| == |MissingBelow(g, points, n)| + if HasRecord(g, points, n) then 0 else 1
  {
    var here := if HasRecord(g, points, n) then {} else {n as int};
    assert MissingBelow(g, points, n + 1) == MissingBelow(g, points, n) + here;
  }

  lemma {:induction false} MissingAreCounted(g: Gate, points: seq<Point>, canonical: seq<Point>, n: nat)
    requires g.windowPoints == 66 && SameMinutes(points, canonical)
    ensures |MissingIndexes(WindowStart(g), Occupied(canonical), n)| == |MissingBelow(g, points, n)|
  {
    if n == 0 {
      MissingGrows(g, points, 0);
    } else {
      MissingAreCounted(g, points, canonical, n - 1);
      OccupiedIsRecorded(g, points, canonical, n - 1);
      MissingGrows(g, points, n - 1);
    }
  }

  lemma MissingMinutes(g: Gate, points: seq<Point>, canonical: seq<Point>)
    requires g.windowPoints == 66 && SameMinutes(points, canonical)
    ensures var missing := MissingIndexes(WindowStart(g), Occupied(canonical), 66);
            && |missing| == |Missing(g, points)|
            && (forall m: nat :: m in missing <==> m in Missing(g, points))
            && (ThreeInARow(missing, 64) <==> HasGap(g, points))
  {
    var missing := MissingIndexes(WindowStart(g), Occupied(canonical), 66);
    MissingAreCounted(g, points, canonical, 66);
    assert MissingBelow(g, points, 66) == Missing(g, points);
    forall m: nat ensures m in missing <==> m in Missing(g, points) {
      OccupiedIsRecorded(g, points, canonical, m);
    }
    if HasGap(g, points) {
      var m :| 0 <= m < 64 && m in Missing(g, points) && m + 1 in Missing(g, points) && m + 2 in Missing(g, points);
      var k: nat := m;
      assert k in missing && k + 1 in missing && k + 2 in missing;
    }
    if ThreeInARow(missing, 64) {
      var k: nat :| k < 64 && k in missing && k + 1 in missing && k + 2 in missing;
      assert (k as int) in Missing(g, points);
    }
  }

  // ---------------------------------------------------------------- the verdict

  lemma JudgeIsExact(g: Gate, points: seq<Point>, canonical: seq<Point>)
    requires g.windowPoints == 66 && SameMinutes(points, canonical)
    ensures var v := Judge(g, canonical);
            && (v.Accepted? <==> |Missing(g, points)| <= 6 && !HasGap(g, points))
            && (v.Rejected? ==> v.code == if |Missing(g, points)| > 6 then MissingRatio else ConsecutiveMissing)
            && (v.Accepted? ==> v.points == Sort(canonical, PointLe) && v.summary.missing == |Missing(g, points)|
                                && v.summary.raw == |points| && v.summary.distinct == |Occupied(canonical)|)
  {
    MissingMinutes(g, points, canonical);
  }

  /** The gate accepts exactly the acceptable windows. */
  lemma AcceptanceIsExact(g: Gate, units: Units, points: seq<Point>)
    ensures Evaluated(g, units, points).Accepted? <==> IsAcceptable(g, units, points)
  {
    if g.windowPoints == 66 && units(g.unit).Some? {
      var expected := units(g.unit).value;
      ScanAcceptsGood(g, units, expected, points);
      var s := Scan(Checks(g, units, expected, points));
      if s.error.None? {
        JudgeIsExact(g, points, s.canonical);
      }
    }
  }

  // ---------------------------------------------------------------- what is accepted, and why not

  /** A good record as the gate keeps it: its minute, its value rounded and printed, and the binding's unit. */
  function KeptAs(g: Gate, expected: string, p: Point): Point {
    if D.Parse(p.value).None? then p
    else Point(p.timestamp, D.Print(D.RoundTo(D.Parse(p.value).value, g.scale), g.scale), expected)
  }

  function KeptPoints(g: Gate, expected: string, points: seq<Point>): seq<Point> {
    Map(p => KeptAs(g, expected, p), points)
  }

  lemma ScanKeeps(g: Gate, units: Units, expected: string, points: seq<Point>)
    requires g.windowPoints == 66 && Scan(Checks(g, units, expected, points)).error.None?
    ensures Scan(Checks(g, units, expected, points)).canonical == KeptPoints(g, expected, points)
    ensures SameMinutes(points, KeptPoints(g, expected, points))
  {
    var canonical := Scan(Checks(g, units, expected, points)).canonical;
    ScanAcceptsGood(g, units, expected, points);
    forall i | 0 <= i < |points|
      ensures canonical[i] == KeptAs(g, expected, points[i]) && canonical[i].timestamp == points[i].timestamp
    {
      CheckIsGood(g, units, expected, points[i]);
    }
    assert canonical == KeptPoints(g, expected, points);
  }

  lemma PassedInOrder(g: Gate, expected: string, v: Verdict)
    requires v.Accepted? && GatePassed(g, expected, v)
    ensures forall i :: 1 <= i < |v.points| ==> v.points[i - 1].timestamp <= v.points[i].timestamp
    ensures v.summary.distinct + v.summary.missing == 66
  {}

  /** The kept records are in order of time, and the minutes with a record and the missing ones are all sixty-six. */
  lemma AcceptedInOrder(g: Gate, units: Units, points: seq<Point>)
    requires Evaluated(g, units, points).Accepted?
    ensures var v := Evaluated(g, units, points);
            && (forall i :: 1 <= i < |v.points| ==> v.points[i - 1].timestamp <= v.points[i].timestamp)
            && v.summary.distinct + v.summary.missing == 66
  {
    AcceptedMeansGood(g, units, points);
    PassedInOrder(g, units(g.unit).value, Evaluated(g, units, points));
  }

  lemma AcceptedIsJudged(g: Gate, units: Units, points: seq<Point>)
    requires Evaluated(g, units, points).Accepted?
    ensures g.windowPoints == 66 && units(g.unit).Some?
    ensures var kept := KeptPoints(g, units(g.unit).value, points);
            SameMinutes(points, kept) && Evaluated(g, units, points) == Judge(g, kept)
  {
    ScanKeeps(g, units, units(g.unit).value, points);
  }

  lemma JudgedKeepsAll(g: Gate, points: seq<Point>, canonical: seq<Point>)
    requires g.windowPoints == 66 && SameMinutes(points, canonical) && Judge(g, canonical).Accepted?
    ensures var v := Judge(g, canonical);
            && multiset(v.points) == multiset(canonical)
            && v.summary.missing == |Missing(g, points)| && v.summary.raw == |points|
  {
    JudgeIsExact(g, points, canonical);
    SortContents(canonical, PointLe);
  }

  /** An accepted window keeps exactly its records, each canonical, and counts them and the missing minutes. */
  lemma AcceptedKeepsAll(g: Gate, units: Units, points: seq<Point>)
    requires Evaluated(g, units, points).Accepted?
    ensures units(g.unit).Some?
    ensures var v := Evaluated(g, units, points);
            && multiset(v.points) == multiset(KeptPoints(g, units(g.unit).value, points))
            && v.summary.missing == |Missing(g, points)| && v.summary.raw == |points|
  {
    AcceptedIsJudged(g, units, points);
    JudgedKeepsAll(g, points, KeptPoints(g, units(g.unit).value, points));
  }

  lemma {:induction false} ScanFailure(results: seq<Checked>)
    requires Scan(results).error.Some?
    ensures var code := Scan(results).error.value;
            || (exists i :: 0 <= i < |results| && results[i] == Err(code))
            || (code.DuplicateRecord? && exists i, j :: 0 <= i < j < |results| && results[i].Ok? && results[i] == results[j])
  {
    var n := |results| - 1;
    var before := Scan(results[..n]);
    if before.error.Some? {
      ScanFailure(results[..n]);
      if i :| 0 <= i < n && results[..n][i] == Err(before.error.value) {
        assert results[i] == Err(before.error.value);
      } else {
        var i, j :| 0 <= i < j < n && results[..n][i].Ok? && results[..n][i] == results[..n][j];
        assert results[i] == results[j];
      }
    } else if results[n].Ok? {
      ScanIsExact(results[..n]);
      PassedValues(results[..n]);
      var i :| 0 <= i < n && before.canonical[i] == results[n].value;
      assert results[i] == results[n];
    }
  }

  /** The record that a rejection is about. */
  ghost predicate IsFault(g: Gate, units: Units, expected: string, p: Point, code: Code) {
    match code
    case FutureTimestamp => p.timestamp >= g.windowEnd
    case OutsideWindow => p.timestamp < g.windowEnd - 66 * 60000 || (p.timestamp < g.windowEnd && p.timestamp % 60000 != 0)
    case UnitMismatch => units(p.unit) != Some(expected)
    case NonFinite => D.Parse(p.value).None?
    case _ => false
  }

  /** Every rejection has its cause in the window. */
  ghost predicate IsRejection(g: Gate, units: Units, points: seq<Point>, code: Code) {
    match code
    case WindowPointCount => g.windowPoints != 66
    case MissingRatio => |Missing(g, points)| > 6
    case ConsecutiveMissing => |Missing(g, points)| <= 6 && HasGap(g, points)
    case DuplicateRecord =>
      exists i, j :: 0 <= i < j < |points| && D.Parse(points[i].value).Some? && D.Parse(points[j].value).Some?
                     && IsRepeat(g, points[i], points[j])
    case _ => units(g.unit).Some? && exists p :: p in points && IsFault(g, units, units(g.unit).value, p, code)
  }

  lemma FaultyCheck(g: Gate, units: Units, expected: string, p: Point, code: Code)
    requires g.windowPoints == 66 && Check(g, units, expected, p) == Err(code)
    ensures IsFault(g, units, expected, p, code)
  {}

  lemma ScannedRejection(g: Gate, units: Units, points: seq<Point>)
    requires g.windowPoints == 66 && units(g.unit).Some? && Scan(Checks(g, units, units(g.unit).value, points)).error.Some?
    ensures IsRejection(g, units, points, Scan(Checks(g, units, units(g.unit).value, points)).error.value)
  {
    var expected := units(g.unit).value;
    var results := Checks(g, units, expected, points);
    var code := Scan(results).error.value;
    ScanFailure(results);
    if i :| 0 <= i < |results| && results[i] == Err(code) {
      FaultyCheck(g, units, expected, points[i], code);
      assert points[i] in points;
    } else {
      var i, j :| 0 <= i < j < |results| && results[i].Ok? && results[i] == results[j];
      CheckIsGood(g, units, expected, points[i]);
      CheckIsGood(g, units, expected, points[j]);
      RepeatIsEqual(g, units, expected, points[i], points[j]);
    }
  }

  lemma RejectionHasCause(g: Gate, units: Units, points: seq<Point>)
    requires Evaluated(g, units, points).Rejected?
    ensures IsRejection(g, units, points, Evaluated(g, units, points).code)
    ensures g.windowPoints != 66 ==> Evaluated(g, units, points).code.WindowPointCount?
  {
    if g.windowPoints == 66 {
      var expected := units(g.unit).value;
      var s := Scan(Checks(g, units, expected, points));
      if s.error.Some? {
        ScannedRejection(g, units, points);
      } else {
        ScanAcceptsGood(g, units, expected, points);
        JudgeIsExact(g, points, s.canonical);
      }
    }
  }

  // ---------------------------------------------------------------- the summary of a rejection

  lemma {:induction false} ScanPrefix(results: seq<Checked>)
    ensures var s, k := Scan(results), |Scan(results).canonical|;
            && k <= |results| && (s.error.Some? <==> k < |results|)
            && forall i :: 0 <= i < k ==> results[i] == Ok(s.canonical[i])
  {
    if results != [] {
      ScanPrefix(results[..|results| - 1]);
    }
  }

  function Minutes(points: seq<Point>): set<int> { set p | p in points :: p.timestamp }

  lemma OccupiedMinutes(points: seq<Point>, canonical: seq<Point>)
    requires SameMinutes(points, canonical)
    ensures Occupied(canonical) == Minutes(points)
  {
    forall at | at in Occupied(canonical) ensures at in Minutes(points) {
      var p :| p in canonical && p.timestamp == at;
      var i :| 0 <= i < |canonical| && canonical[i] == p;
      assert points[i] in points;
    }
    forall at | at in Minutes(points) ensures at in Occupied(canonical) {
      var p :| p in points && p.timestamp == at;
      var i :| 0 <= i < |points| && points[i] == p;
      assert canonical[i] in canonical;
    }
  }

  /** The summary of the first `k` records: their minutes, the rest of the window, and their number. */
  predicate Summarises(q: Quality, windowPoints: nat, points: seq<Point>, k: nat)
    requires k <= |points|
  {
    var distinct := |Minutes(points[..k])|;
    q == Quality(distinct, if distinct < windowPoints then windowPoints - distinct else 0, k)
  }

  lemma CheckedMinutes(g: Gate, units: Units, expected: string, points: seq<Point>, k: nat)
    requires k == |Scan(Checks(g, units, expected, points)).canonical|
    ensures k <= |points| && SameMinutes(points[..k], Scan(Checks(g, units, expected, points)).canonical)
  {
    var results := Checks(g, units, expected, points);
    ScanPrefix(results);
    forall i | 0 <= i < k ensures Scan(results).canonical[i].timestamp == points[i].timestamp {
      assert results[i] == Check(g, units, expected, points[i]);
    }
  }

  predicate IsOfWindow(code: Code) { code.WindowPointCount? || code.MissingRatio? || code.ConsecutiveMissing? }

  lemma ScannedCode(g: Gate, units: Units, expected: string, points: seq<Point>)
    requires g.windowPoints == 66 && Scan(Checks(g, units, expected, points)).error.Some?
    ensures !IsOfWindow(Scan(Checks(g, units, expected, points)).error.value)
  {
    var results := Checks(g, units, expected, points);
    var code := Scan(results).error.value;
    ScanFailure(results);
    if i :| 0 <= i < |results| && results[i] == Err(code) {
      FaultyCheck(g, units, expected, points[i], code);
    }
  }

  lemma ScannedSummary(g: Gate, units: Units, expected: string, points: seq<Point>)
    ensures var canonical := Scan(Checks(g, units, expected, points)).canonical;
            |canonical| <= |points| && Summarises(FailedSummary(canonical, g.windowPoints), g.windowPoints, points, |canonical|)
  {
    var canonical := Scan(Checks(g, units, expected, points)).canonical;
    CheckedMinutes(g, units, expected, points, |canonical|);
    OccupiedMinutes(points[..|canonical|], canonical);
  }

  /** A rejection counts the records before the one at fault, or all of them when their minutes are at fault. */
  lemma RejectionCounts(g: Gate, units: Units, points: seq<Point>) returns (k: nat)
    requires Evaluated(g, units, points).Rejected?
    ensures k <= |points| && Summarises(Evaluated(g, units, points).summary, g.windowPoints, points, k)
    ensures var code := Evaluated(g, units, points).code;
            if code.WindowPointCount? then k == 0 else if IsOfWindow(code) then k == |points| else k < |points|
  {
    k := 0;
    if g.windowPoints != 66 {
      assert Minutes(points[..0]) == {};
      OccupiedMinutes([], []);
    } else {
      var expected := units(g.unit).value;
      var s := Scan(Checks(g, units, expected, points));
      k := |s.canonical|;
      ScanPrefix(Checks(g, units, expected, points));
      ScannedSummary(g, units, expected, points);
      if s.error.Some? {
        ScannedCode(g, units, expected, points);
      }
    }
  }
}
