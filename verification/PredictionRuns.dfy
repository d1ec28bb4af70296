/**
  Scheduled prediction runs of one tenant: leases, retries, pinned evidence, and the closed loop of every series they
  feed. Every operation is one transaction.
 */
module PredictionRuns {
  import opened Basics
  import opened RiskStates
  import opened ClosedLoop
  import DataQuality

  type Quality = DataQuality.Quality

  const RUN_LEASE: nat := 600
  const RUN_ATTEMPTS: nat := 3
  const SLOT_SECONDS: nat := 900
  const QUALITY_LIMIT: nat := 10_000

  datatype Series = Series(equipmentId: Uuid, measCode: string)

  datatype RunStatus = Waiting | Running | Succeeded | SkippedQuality | Failed | FailedStale

  /** The binding columns that are pinned with a request. */
  datatype Profile = Profile(
    modelProfileId: string, modelInfoId: string, preprocessing: string, policyVersion: string)

  datatype Evidence = Evidence(digest: string, profile: Profile, quality: Quality)

  /** `evidence` holds the columns written together by the pin; a skip alone writes only the quality summary. */
  datatype PredictionRun = PredictionRun(
    series: Series,
    scheduledAt: Time,
    correlationId: Uuid,
    status: RunStatus,
    owner: Option<string>,
    expires: Option<Time>,
    attempt: nat,
    error: Option<string>,
    evidence: Option<Evidence>,
    skippedWith: Option<Quality>,
    forecast: Option<Forecast>)

  /** Active measurement bindings; a series without one is inactive. */
  datatype Binding = Binding(profile: Profile, threshold: Threshold)

  datatype Tenancy = Tenancy(
    tenantId: Uuid, runs: seq<PredictionRun>, loops: map<Series, Aggregate>, bindings: map<Series, Binding>)

  function NewTenancy(tenantId: Uuid): Tenancy { Tenancy(tenantId, [], map[], map[]) }

  function KeyOf(tenantId: Uuid, s: Series): Key { Key(tenantId, s.equipmentId, s.measCode) }

  /** The closed loop of a series; no row of it exists before its first slot. */
  function LoopOf(t: Tenancy, s: Series): Aggregate {
    if s in t.loops then t.loops[s] else Empty(KeyOf(t.tenantId, s))
  }

  function SetLoop(t: Tenancy, s: Series, a: Aggregate): Tenancy { t.(loops := t.loops[s := a]) }

  function SetRun(t: Tenancy, run: nat, r: PredictionRun): Tenancy
    requires run < |t.runs|
  {
    t.(runs := t.runs[run := r])
  }

  // ---------------------------------------------------------------- slots and claims

  predicate SlotTaken(runs: seq<PredictionRun>, s: Series, at: Time) {
    exists i :: 0 <= i < |runs| && runs[i].series == s && runs[i].scheduledAt == at
  }

  function NewRun(s: Series, at: Time, correlationId: Uuid): PredictionRun {
    PredictionRun(s, at, correlationId, Waiting, None, None, 0, None, None, None, None)
  }

  /** `create_slot`: at most one run per slot. */
  function CreateSlot(t: Tenancy, s: Series, at: Time, correlationId: Uuid): Tenancy {
    if SlotTaken(t.runs, s, at) then t
    else
      SetLoop(t, s, Step(LoopOf(t, s), NewSlot(|t.runs|, at))).(runs := t.runs + [NewRun(s, at, correlationId)])
  }

  predicate HasClaimableStatus(r: PredictionRun) { r.status.Waiting? || r.status.Failed? || r.status.FailedStale? }

  predicate Eligible(r: PredictionRun, now: Time) {
    && HasClaimableStatus(r)
    && r.attempt < RUN_ATTEMPTS
    && r.scheduledAt <= now < r.scheduledAt + SLOT_SECONDS
  }

  /** The first eligible run in order of slot and id, rows locked elsewhere being skipped. */
  function PickEligible(runs: seq<PredictionRun>, n: nat, now: Time, locked: set<Uuid>): (r: Option<nat>)
    requires n <= |runs|
    ensures r.Some? ==> r.value < n && r.value !in locked && Eligible(runs[r.value], now)
    ensures r.Some? ==> forall i :: 0 <= i < n && i !in locked && Eligible(runs[i], now) ==>
                          runs[r.value].scheduledAt < runs[i].scheduledAt
                          || (runs[r.value].scheduledAt == runs[i].scheduledAt && r.value <= i)
    ensures r.None? ==> forall i :: 0 <= i < n && i !in locked ==> !Eligible(runs[i], now)
  {
    if n == 0 then None
    else
      var best := PickEligible(runs, n - 1, now, locked);
      if n - 1 !in locked && Eligible(runs[n - 1], now)
         && (best.None? || runs[n - 1].scheduledAt < runs[best.value].scheduledAt)
      then Some(n - 1) else best
  }

  function ClaimRun(r: PredictionRun, owner: string, now: Time): PredictionRun {
    r.(status := Running, owner := Some(owner), expires := Some(now + RUN_LEASE), attempt := r.attempt + 1, error := None)
  }

  /** `mark_failed`; a failure that may not be retried uses up the attempts. */
  function FailRun(r: PredictionRun, code: string, retryable: bool): PredictionRun {
    r.(status := Failed, owner := None, expires := None, error := Some(code),
       attempt := if retryable then r.attempt else RUN_ATTEMPTS)
  }

  /** The claims still possible in `runs`. */
  function Slack(runs: seq<PredictionRun>): nat {
    if runs == [] then 0
    else
      var last := runs[|runs| - 1].attempt;
      Slack(runs[..|runs| - 1]) + (if last < RUN_ATTEMPTS then RUN_ATTEMPTS - last else 0)
  }

  lemma {:induction false} SlackUpdate(runs: seq<PredictionRun>, i: nat, r: PredictionRun)
    requires i < |runs| && runs[i].attempt <= r.attempt
    ensures Slack(runs[i := r]) <= Slack(runs)
    ensures runs[i].attempt < RUN_ATTEMPTS && runs[i].attempt < r.attempt ==> Slack(runs[i := r]) < Slack(runs)
  {
    var n := |runs| - 1;
    if i == n {
      assert runs[i := r][..n] == runs[..n];
    } else {
      SlackUpdate(runs[..n], i, r);
      assert runs[i := r][..n] == runs[..n][i := r];
    }
  }

  /** `_reset_risk_counters_for_run`; without a policy version no missing row is inserted. */
  function ResetLoop(t: Tenancy, run: nat, upsert: bool): Tenancy
    requires run < |t.runs|
  {
    var s := t.runs[run].series;
    SetLoop(t, s, Step(LoopOf(t, s), FailRound(run, upsert)))
  }

  /** A claimed run without an active binding is failed for good, all within the claiming transaction. */
  function FailInactive(t: Tenancy, run: nat, owner: string, now: Time): Tenancy
    requires run < |t.runs|
  {
    ResetLoop(SetRun(t, run, FailRun(ClaimRun(t.runs[run], owner, now), "PREDICTION_BINDING_INACTIVE", false)), run, false)
  }

  datatype Claimed = Claimed(after: Tenancy, run: Option<nat>)

  lemma InactiveUsesSlack(t: Tenancy, run: nat, owner: string, now: Time)
    requires run < |t.runs| && Eligible(t.runs[run], now)
    ensures Slack(FailInactive(t, run, owner, now).runs) < Slack(t.runs)
  {
    SlackUpdate(t.runs, run, FailRun(ClaimRun(t.runs[run], owner, now), "PREDICTION_BINDING_INACTIVE", false));
  }

  /** `claim_next`: claims until a run with an active binding comes up. */
  function ClaimNext(t: Tenancy, owner: string, now: Time, locked: set<Uuid>): Claimed
    decreases Slack(t.runs)
  {
    var pick := PickEligible(t.runs, |t.runs|, now, locked);
    if pick.None? then Claimed(t, None)
    else if t.runs[pick.value].series in t.bindings
    then Claimed(SetRun(t, pick.value, ClaimRun(t.runs[pick.value], owner, now)), pick)
    else
      InactiveUsesSlack(t, pick.value, owner, now);
      ClaimNext(FailInactive(t, pick.value, owner, now), owner, now, locked)
  }

  predicate HoldsRun(t: Tenancy, run: nat, owner: string) {
    run < |t.runs| && t.runs[run].status.Running? && t.runs[run].owner == Some(owner)
  }

  /** `heartbeat`. */
  function Heartbeat(t: Tenancy, run: nat, owner: string, now: Time): Tenancy {
    if HoldsRun(t, run, owner) && t.runs[run].expires.Some? && now < t.runs[run].expires.value
    then SetRun(t, run, t.runs[run].(expires := Some(now + RUN_LEASE)))
    else t
  }

  // ---------------------------------------------------------------- stale leases

  predicate IsStale(r: PredictionRun, now: Time) {
    r.status.Running? && r.expires.Some? && r.expires.value <= now
  }

  function StaleRun(r: PredictionRun, now: Time): PredictionRun {
    if IsStale(r, now)
    then r.(status := FailedStale, owner := None, expires := None, error := Some("LEASE_EXPIRED"))
    else r
  }

  function StaleRuns(runs: seq<PredictionRun>, now: Time): (r: seq<PredictionRun>)
    ensures |r| == |runs| && forall i :: 0 <= i < |r| ==> r[i] == StaleRun(runs[i], now)
  {
    seq(|runs|, i requires 0 <= i < |runs| => StaleRun(runs[i], now))
  }

  /** The stale runs among the first `n`, in ascending order. */
  function StaleIds(runs: seq<PredictionRun>, n: nat, now: Time): (ids: seq<nat>)
    requires n <= |runs|
    ensures forall k :: 0 <= k < |ids| ==> ids[k] < n && IsStale(runs[ids[k]], now)
    ensures forall i :: 0 <= i < n && IsStale(runs[i], now) ==> i in ids
    ensures forall k, l :: 0 <= k < l < |ids| ==> ids[k] < ids[l]
  {
    if n == 0 then []
    else if IsStale(runs[n - 1], now) then StaleIds(runs, n - 1, now) + [n - 1]
    else StaleIds(runs, n - 1, now)
  }

  function ResetAll(t: Tenancy, ids: seq<nat>): Tenancy
    requires forall k :: 0 <= k < |ids| ==> ids[k] < |t.runs|
    ensures ResetAll(t, ids).runs == t.runs && ResetAll(t, ids).bindings == t.bindings
    ensures ResetAll(t, ids).tenantId == t.tenantId
  {
    if ids == [] then t else ResetLoop(ResetAll(t, ids[..|ids| - 1]), ids[|ids| - 1], false)
  }

  /** `reconcile_stale`; a series without a risk row stays without one. */
  function Reconcile(t: Tenancy, now: Time): Tenancy {
    ResetAll(t.(runs := StaleRuns(t.runs, now)), StaleIds(t.runs, |t.runs|, now))
  }

  // ---------------------------------------------------------------- ending a claim

  datatype Ended = Lost | QualityInvalid | MappingMissing | Drifted | Done

  datatype Ending = Ending(after: Tenancy, how: Ended)

  predicate Bounded(q: Quality) { q.distinct <= QUALITY_LIMIT && q.missing <= QUALITY_LIMIT && q.raw <= QUALITY_LIMIT }

  function FailWith(t: Tenancy, run: nat, code: string, retryable: bool): Tenancy
    requires run < |t.runs|
  {
    ResetLoop(SetRun(t, run, FailRun(t.runs[run], code, retryable)), run, true)
  }

  /** `fail`. */
  function Fail(t: Tenancy, run: nat, owner: string, code: string, transient: bool): Ending {
    if !HoldsRun(t, run, owner) then Ending(t, Lost) else Ending(FailWith(t, run, code, transient), Done)
  }

  const DRIFT := "PREDICTION_REQUEST_DRIFT"

  /** `pin_request`: the first pin is kept, a different one ends the run for good. */
  function Pin(t: Tenancy, run: nat, owner: string, e: Evidence): Ending {
    if !Bounded(e.quality) then Ending(t, QualityInvalid)
    else if !HoldsRun(t, run, owner) then Ending(t, Lost)
    else if t.runs[run].evidence.None? then Ending(SetRun(t, run, t.runs[run].(evidence := Some(e))), Done)
    else if t.runs[run].evidence == Some(e) then Ending(t, Done)
    else Ending(FailWith(t, run, DRIFT, false), Drifted)
  }

  /** `skip`: a pinned run cannot fail its data quality any more, so that is drift. */
  function Skip(t: Tenancy, run: nat, owner: string, code: string, q: Quality): Ending {
    if !HoldsRun(t, run, owner) then Ending(t, Lost)
    else if t.runs[run].evidence.Some? then Ending(FailWith(t, run, DRIFT, false), Done)
    else
      var r := t.runs[run].(status := SkippedQuality, owner := None, expires := None, error := Some(code),
                            skippedWith := Some(q), attempt := RUN_ATTEMPTS);
      Ending(ResetLoop(SetRun(t, run, r), run, true), Done)
  }

  datatype Forecasted = Forecasted(forecast: Forecast, risky: bool)

  function InfoOf(run: nat, r: PredictionRun, profile: Profile, threshold: Threshold, f: Forecasted): RunInfo {
    RunInfo(run,
            Provenance(r.correlationId, profile.modelProfileId, profile.modelInfoId, profile.policyVersion, threshold),
            f.forecast, f.risky)
  }

  /** Whether the projection of an accepted success would be rolled back. */
  predicate RollsBack(a: Aggregate, info: RunInfo, mapping: Option<Mapping>, pilot: Option<Uuid>, now: Time)
    requires info.runId in a.slots
  {
    var row := EnsureRow(a).risk.value;
    && IsNewest(a.slots, row, info.runId)
    && Apply(a.(risk := Some(RecordRound(row, info.runId, info.risky))), info, row.counters.active, mapping, pilot, now).None?
  }

  /** `succeed` with the closed loop enabled; a missing mapping rolls the whole success back. */
  function Succeed(t: Tenancy, run: nat, owner: string, e: Evidence, threshold: Threshold, f: Forecasted,
                   mapping: Option<Mapping>, pilot: Option<Uuid>, now: Time): Ending
  {
    if !HoldsRun(t, run, owner) then Ending(t, Lost)
    else if !Bounded(e.quality) then Ending(t, QualityInvalid)
    else if t.runs[run].evidence != Some(e) then Ending(FailWith(t, run, DRIFT, false), Done)
    else
      var r := t.runs[run].(status := Succeeded, owner := None, expires := None, error := None, forecast := Some(f.forecast));
      var s, info := r.series, InfoOf(run, r, e.profile, threshold, f);
      var a := LoopOf(t, s);
      if run in a.slots && RollsBack(a, info, mapping, pilot, now) then Ending(t, MappingMissing)
      else Ending(SetLoop(SetRun(t, run, r), s, Step(a, SucceedRound(info, mapping, pilot, now))), Done)
  }

  // ---------------------------------------------------------------- histories

  datatype Op =
    | Schedule(s: Series, at: Time, correlationId: Uuid)
    | Rebind(bindings: map<Series, Binding>)
    | TakeNext(owner: string, now: Time, locked: set<Uuid>)
    | Beat(run: nat, owner: string, now: Time)
    | Sweep(now: Time)
    | EndFailed(run: nat, owner: string, code: string, transient: bool)
    | PinRequest(run: nat, owner: string, e: Evidence)
    | EndSkipped(run: nat, owner: string, code: string, q: Quality)
    | EndSucceeded(run: nat, owner: string, e: Evidence, threshold: Threshold, f: Forecasted,
                   mapping: Option<Mapping>, pilot: Option<Uuid>, at: Time)
    | InLoop(s: Series, t: Txn)

  function Apply1(t: Tenancy, op: Op): Tenancy {
    match op
    case Schedule(s, at, correlationId) => CreateSlot(t, s, at, correlationId)
    case Rebind(bindings) => t.(bindings := bindings)
    case TakeNext(owner, now, locked) => ClaimNext(t, owner, now, locked).after
    case Beat(run, owner, now) => Heartbeat(t, run, owner, now)
    case Sweep(now) => Reconcile(t, now)
    case EndFailed(run, owner, code, transient) => Fail(t, run, owner, code, transient).after
    case PinRequest(run, owner, e) => Pin(t, run, owner, e).after
    case EndSkipped(run, owner, code, q) => Skip(t, run, owner, code, q).after
    case EndSucceeded(run, owner, e, threshold, f, mapping, pilot, at) =>
      Succeed(t, run, owner, e, threshold, f, mapping, pilot, at).after
    case InLoop(s, x) =>
      if x.NewSlot? || x.SucceedRound? || x.FailRound? then t else SetLoop(t, s, Step(LoopOf(t, s), x))
  }

  function ApplyAll(t: Tenancy, ops: seq<Op>): Tenancy {
    if ops == [] then t else Apply1(ApplyAll(t, ops[..|ops| - 1]), ops[|ops| - 1])
  }
}
