/**
  services/prediction_requests.py and contracts/canonical.py: from telemetry to the pinned request digest. SHA-256 over
  RFC 8785 texts is a deterministic function of the value hashed.
 */
module PredictionRequests {
  import opened Basics
  import opened Sorting
  import opened DataQuality
  import opened QualityVerdicts

  datatype RequestBinding = RequestBinding(
    tenantId: Uuid,
    equipmentId: Uuid,
    deviceId: Uuid,
    telemetryKey: string,
    measCode: string,
    unit: string,
    sampling: string,
    modelProfileId: string,
    modelInfoId: string,
    windowPoints: nat,
    scale: nat,
    windowEnd: int)

  /** What identifies one telemetry record. */
  datatype Identity = Identity(
    tenantId: Uuid, deviceId: Uuid, telemetryKey: string, timestamp: int, value: string, unit: string)

  datatype HistoryPoint = HistoryPoint(dataId: string, timestamp: int, value: string, unit: string)

  /** The replay identity of a request; the correlation id is no part of it. */
  datatype Replay = Replay(
    tenantId: Uuid,
    equipmentId: Uuid,
    modelProfileId: string,
    modelInfoId: string,
    measCode: string,
    unit: string,
    sampling: string,
    windowStart: int,
    windowEnd: int,
    history: seq<HistoryPoint>)

  datatype Request = Request(
    tenantId: Uuid,
    correlationId: Uuid,
    equipmentId: Uuid,
    modelProfileId: string,
    modelInfoId: string,
    measCode: string,
    unit: string,
    sampling: string,
    windowStart: int,
    windowEnd: int,
    digest: string,
    history: seq<HistoryPoint>)

  datatype Hashes = Hashes(dataId: Identity -> string, replay: Replay -> string)

  datatype Prepared = Prepared(request: Request, quality: Quality)

  function GateOf(b: RequestBinding): Gate { Gate(b.windowPoints, b.unit, b.scale, b.windowEnd) }

  function HistoryPointOf(b: RequestBinding, h: Hashes, p: Point): HistoryPoint {
    HistoryPoint(h.dataId(Identity(b.tenantId, b.deviceId, b.telemetryKey, p.timestamp, p.value, p.unit)),
                 p.timestamp, p.value, p.unit)
  }

  predicate HistoryLe(x: HistoryPoint, y: HistoryPoint) {
    x.timestamp < y.timestamp || (x.timestamp == y.timestamp && TextLe(x.dataId, y.dataId))
  }

  function HistoryOf(b: RequestBinding, h: Hashes, points: seq<Point>): seq<HistoryPoint> {
    Sort(Map(p => HistoryPointOf(b, h, p), points), HistoryLe)
  }

  /** `_history`: appends the points one by one, then sorts them. */
  method History(b: RequestBinding, h: Hashes, points: seq<Point>) returns (history: seq<HistoryPoint>)
    ensures history == HistoryOf(b, h, points)
    ensures IsSorted(history, HistoryLe)
    ensures multiset(history) == multiset(Map(p => HistoryPointOf(b, h, p), points))
  {
    var result: seq<HistoryPoint> := [];
    var i := 0;
    while i < |points|
      invariant 0 <= i <= |points| && |result| == i
      invariant forall k :: 0 <= k < i ==> result[k] == HistoryPointOf(b, h, points[k])
    {
      result := result + [HistoryPointOf(b, h, points[i])];
      i := i + 1;
    }
    assert result == Map(p => HistoryPointOf(b, h, p), points);
    history := Sort(result, HistoryLe);
    HistoryOrder();
    SortContents(result, HistoryLe);
    SortSorts(result, HistoryLe);
  }

  lemma HistoryOrder()
    ensures forall x: HistoryPoint, y: HistoryPoint :: HistoryLe(x, y) || HistoryLe(y, x)
  {
    forall x: HistoryPoint, y: HistoryPoint ensures HistoryLe(x, y) || HistoryLe(y, x) {
      TextLeTotal(x.dataId, y.dataId);
    }
  }

  /** `prediction_request_projection`: the history is sorted once more. */
  function ReplayOf(r: Request): Replay {
    Replay(r.tenantId, r.equipmentId, r.modelProfileId, r.modelInfoId, r.measCode, r.unit, r.sampling,
           r.windowStart, r.windowEnd, Sort(r.history, HistoryLe))
  }

  /** `calculate_request_digest`. */
  function RequestDigest(h: Hashes, r: Request): string { h.replay(ReplayOf(r)) }

  /** `prepare`; Err is the rejected window. */
  function Prepare(b: RequestBinding, units: Units, h: Hashes, points: seq<Point>, correlationId: Uuid): Result<Prepared, Verdict> {
    var quality := Evaluated(GateOf(b), units, points);
    if !quality.Accepted? || units(b.unit).None? then Err(quality)
    else
      var unit, history := units(b.unit).value, HistoryOf(b, h, quality.points);
      var windowStart := b.windowEnd - b.windowPoints * INTERVAL_MS;
      var replay := Replay(b.tenantId, b.equipmentId, b.modelProfileId, b.modelInfoId, b.measCode, unit, b.sampling,
                           windowStart, b.windowEnd, history);
      Ok(Prepared(Request(b.tenantId, correlationId, b.equipmentId, b.modelProfileId, b.modelInfoId, b.measCode, unit,
                          b.sampling, windowStart, b.windowEnd, h.replay(replay), history),
                  quality.summary))
  }

  /** The digest the builder writes is the digest the contract calculates for its request. */
  lemma BuilderMeetsContract(b: RequestBinding, units: Units, h: Hashes, points: seq<Point>, correlationId: Uuid)
    requires Prepare(b, units, h, points, correlationId).Ok?
    ensures var r := Prepare(b, units, h, points, correlationId).value.request;
            r.digest == RequestDigest(h, r) && IsSorted(r.history, HistoryLe)
  {
    var points' := Evaluated(GateOf(b), units, points).points;
    var result := Map(p => HistoryPointOf(b, h, p), points');
    HistoryOrder();
    SortSorts(result, HistoryLe);
    SortedIsFixed(HistoryOf(b, h, points'), HistoryLe);
  }

  /** The history point of a kept record: its id hashes the source of the record and the record itself. */
  function RecordPoint(b: RequestBinding, h: Hashes, p: Point): HistoryPoint {
    HistoryPoint(h.dataId(Identity(b.tenantId, b.deviceId, b.telemetryKey, p.timestamp, p.value, p.unit)),
                 p.timestamp, p.value, p.unit)
  }

  function RecordPoints(b: RequestBinding, h: Hashes, points: seq<Point>): seq<HistoryPoint> {
    Map(p => RecordPoint(b, h, p), points)
  }

  /** The request is about the binding and the sixty-six minutes before its slot. */
  predicate IsAbout(r: Request, b: RequestBinding, unit: string, correlationId: Uuid) {
    && r.tenantId == b.tenantId && r.equipmentId == b.equipmentId && r.correlationId == correlationId
    && r.modelProfileId == b.modelProfileId && r.modelInfoId == b.modelInfoId && r.measCode == b.measCode
    && r.sampling == b.sampling && r.unit == unit
    && r.windowEnd == b.windowEnd && r.windowStart == b.windowEnd - 66 * 60000
  }

  lemma HistoryIsRecords(b: RequestBinding, h: Hashes, accepted: seq<Point>, kept: seq<Point>)
    requires multiset(accepted) == multiset(kept)
    ensures multiset(HistoryOf(b, h, accepted)) == multiset(RecordPoints(b, h, kept))
  {
    var f := p => HistoryPointOf(b, h, p);
    MapIgnoresOrder(f, accepted, kept);
    SortContents(Map(f, accepted), HistoryLe);
    assert Map(f, kept) == RecordPoints(b, h, kept);
  }

  /**
    A request is prepared exactly for an acceptable window; it is about the binding and the window of its slot, and its
    history has a point for every record of the telemetry, kept in canonical form, and no other.
   */
  lemma PrepareIsExact(b: RequestBinding, units: Units, h: Hashes, points: seq<Point>, correlationId: Uuid)
    ensures Prepare(b, units, h, points, correlationId).Ok? <==> IsAcceptable(GateOf(b), units, points)
    ensures Prepare(b, units, h, points, correlationId).Ok? ==>
              var r := Prepare(b, units, h, points, correlationId).value.request;
              && units(b.unit).Some? && IsAbout(r, b, units(b.unit).value, correlationId)
              && multiset(r.history) == multiset(RecordPoints(b, h, KeptPoints(GateOf(b), units(b.unit).value, points)))
    ensures Prepare(b, units, h, points, correlationId).Ok? ==>
              var q := Prepare(b, units, h, points, correlationId).value.quality;
              q.raw == |points| && q.missing == |Missing(GateOf(b), points)| && q.distinct + q.missing == 66
  {
    var g := GateOf(b);
    AcceptanceIsExact(g, units, points);
    if Evaluated(g, units, points).Accepted? {
      AcceptedKeepsAll(g, units, points);
      AcceptedInOrder(g, units, points);
      HistoryIsRecords(b, h, Evaluated(g, units, points).points, KeptPoints(g, units(b.unit).value, points));
    }
  }

  /** The digest is over the binding's columns, the window and the history, and nothing else. */
  lemma DigestIsExact(b: RequestBinding, units: Units, h: Hashes, points: seq<Point>, correlationId: Uuid)
    requires Prepare(b, units, h, points, correlationId).Ok?
    ensures units(b.unit).Some?
    ensures var r := Prepare(b, units, h, points, correlationId).value.request;
            r.digest == h.replay(Replay(b.tenantId, b.equipmentId, b.modelProfileId, b.modelInfoId, b.measCode,
                                        units(b.unit).value, b.sampling, b.windowEnd - 66 * 60000, b.windowEnd, r.history))
  {
    AcceptanceIsExact(GateOf(b), units, points);
  }

  /** The same records in another order, and another correlation id, give the same digest and summary. */
  lemma PrepareIgnoresOrder(b: RequestBinding, units: Units, h: Hashes, xs: seq<Point>, ys: seq<Point>, c: Uuid, d: Uuid)
    requires multiset(xs) == multiset(ys)
    ensures var p, q := Prepare(b, units, h, xs, c), Prepare(b, units, h, ys, d);
            && (p.Ok? <==> q.Ok?)
            && (p.Ok? ==> p.value.request.digest == q.value.request.digest && p.value.quality == q.value.quality
                          && p.value.request.history == q.value.request.history)
  {
    EvaluationIgnoresOrder(GateOf(b), units, xs, ys);
  }
}

/** Reading the same data again never drifts. */
module PredictionRetries {
  import opened Basics
  import opened DataQuality
  import opened PredictionRequests
  import R = PredictionRuns
  import T = PredictionRunsTheorems

  function EvidenceOf(p: Prepared, profile: R.Profile): R.Evidence {
    R.Evidence(p.request.digest, profile, p.quality)
  }

  /**
    Once a run is pinned, a retry that reads the same records in any order, under the same binding and profile, pins
    without any change, whatever happened to the run table in between.
   */
  lemma RetryNeverDrifts(t: R.Tenancy, run: nat, first: string, ops: seq<R.Op>, second: string, profile: R.Profile,
                         b: RequestBinding, units: Units, h: Hashes, xs: seq<Point>, ys: seq<Point>, c: Uuid, d: Uuid)
    requires multiset(xs) == multiset(ys) && Prepare(b, units, h, xs, c).Ok?
    requires R.Pin(t, run, first, EvidenceOf(Prepare(b, units, h, xs, c).value, profile)).how.Done?
    requires R.HoldsRun(R.ApplyAll(R.Pin(t, run, first, EvidenceOf(Prepare(b, units, h, xs, c).value, profile)).after, ops),
                        run, second)
    ensures Prepare(b, units, h, ys, d).Ok?
    ensures var u := R.ApplyAll(R.Pin(t, run, first, EvidenceOf(Prepare(b, units, h, xs, c).value, profile)).after, ops);
            R.Pin(u, run, second, EvidenceOf(Prepare(b, units, h, ys, d).value, profile)) == R.Ending(u, R.Done)
  {
    PrepareIgnoresOrder(b, units, h, xs, ys, c, d);
    var e := EvidenceOf(Prepare(b, units, h, xs, c).value, profile);
    PinnedStays(t, run, first, e, ops, second);
  }

  lemma PinnedStays(t: R.Tenancy, run: nat, first: string, e: R.Evidence, ops: seq<R.Op>, second: string)
    requires R.Pin(t, run, first, e).how.Done?
    requires R.HoldsRun(R.ApplyAll(R.Pin(t, run, first, e).after, ops), run, second)
    ensures var u := R.ApplyAll(R.Pin(t, run, first, e).after, ops); R.Pin(u, run, second, e) == R.Ending(u, R.Done)
  {
    var p := R.Pin(t, run, first, e).after;
    assert p.runs[run].evidence == Some(e);
    T.AllGoOn(p, ops);
    assert T.RunGoesOn(p.runs[run], R.ApplyAll(p, ops).runs[run]);
  }
}
