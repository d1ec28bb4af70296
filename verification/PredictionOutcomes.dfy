/** When a run may be claimed, which one is, and how each end of a claim leaves its run. */
module PredictionOutcomes {
  import opened Basics
  import opened RiskStates
  import opened ClosedLoop
  import opened ClosedLoopInvariant
  import opened ClosedLoopTheorems
  import opened ClosedLoopHistory
  import opened ClosedLoopOutcomes
  import opened PredictionRuns
  import opened PredictionRunsTheorems

  // ---------------------------------------------------------------- eligibility

  /** The quarter of an hour that a run is for. */
  predicate InSlot(r: PredictionRun, now: Time) { r.scheduledAt <= now < r.scheduledAt + 900 }

  /** Nothing holds the run, it has neither succeeded nor been skipped, and an attempt and its slot are left. */
  predicate MayBeClaimed(r: PredictionRun, now: Time) {
    !r.status.Running? && !r.status.Succeeded? && !r.status.SkippedQuality? && r.attempt < 3 && InSlot(r, now)
  }

  lemma EligibleIsExact(r: PredictionRun, now: Time)
    ensures Eligible(r, now) <==> MayBeClaimed(r, now)
    ensures RunOk(r) ==> (Eligible(r, now) <==> !IsFinal(r) && !r.status.Running? && InSlot(r, now))
  {}

  /** In every history a run is eligible exactly when it is not final, not running, and inside its slot. */
  lemma EligibleRuns(tenantId: Uuid, ops: seq<Op>, run: nat, now: Time)
    requires run < |ApplyAll(NewTenancy(tenantId), ops).runs|
    ensures var r := ApplyAll(NewTenancy(tenantId), ops).runs[run];
            && (Eligible(r, now) <==> MayBeClaimed(r, now))
            && (Eligible(r, now) <==> !IsFinal(r) && !r.status.Running? && InSlot(r, now))
  {
    LeaseMachine(tenantId, ops);
    EligibleIsExact(ApplyAll(NewTenancy(tenantId), ops).runs[run], now);
  }

  /** The run after a sweep: stale, without its lease, but with its attempts. */
  predicate IsSwept(x: PredictionRun, y: PredictionRun) {
    y == x.(status := FailedStale, owner := None, expires := None, error := Some("LEASE_EXPIRED"))
  }

  /** A sweep takes every run whose lease is over, and no other, and such a run is eligible while attempt and slot last. */
  lemma SweptRunReturns(t: Tenancy, run: nat, now: Time, later: Time)
    requires RunsOk(t.runs) && run < |t.runs|
    ensures var x, y := t.runs[run], Reconcile(t, now).runs[run];
            && (x.status.Running? && x.expires.value <= now ==>
                  IsSwept(x, y) && (Eligible(y, later) <==> x.attempt < 3 && InSlot(x, later)))
            && (!x.status.Running? || now < x.expires.value ==> y == x)
            && (x.status.Running? && now < x.expires.value ==> !Eligible(y, later))
  {
    assert Reconcile(t, now).runs[run] == StaleRun(t.runs[run], now);
  }

  /**
    A claim whose worker dies is handed out again exactly after a sweep at least ten minutes later, while one of its three
    attempts is left and its slot lasts.
   */
  lemma AbandonedRunReturns(t: Tenancy, owner: string, now: Time, locked: set<Uuid>, swept: Time, later: Time)
    requires RunsOk(t.runs) && ClaimNext(t, owner, now, locked).run.Some?
    ensures ClaimNext(t, owner, now, locked).run.value < |ClaimNext(t, owner, now, locked).after.runs|
    ensures var c := ClaimNext(t, owner, now, locked);
            var r := c.after.runs[c.run.value];
            && r.status.Running? && r.attempt <= 3
            && (Eligible(Reconcile(c.after, swept).runs[c.run.value], later) <==>
                  swept >= now + 600 && r.attempt < 3 && InSlot(r, later))
  {
    ClaimNextGoesOn(t, owner, now, locked);
    ClaimedLease(t, owner, now, locked);
    var c := ClaimNext(t, owner, now, locked);
    OpKeepsRuns(t, Op.TakeNext(owner, now, locked));
    SweptRunReturns(c.after, c.run.value, swept, later);
  }

  // ---------------------------------------------------------------- which run is claimed

  /** Run `i` comes up before run `j`: an earlier slot, or the earlier row of the same slot. */
  predicate ComesBefore(runs: seq<PredictionRun>, i: nat, j: nat)
    requires i < |runs| && j < |runs|
  {
    runs[i].scheduledAt < runs[j].scheduledAt || (runs[i].scheduledAt == runs[j].scheduledAt && i < j)
  }

  /** Run `i` came up in the search that ended with `claim`, but its series has no active binding. */
  predicate PassedOver(t: Tenancy, claim: Option<nat>, i: nat, now: Time, locked: set<Uuid>)
    requires i < |t.runs| && (claim.Some? ==> claim.value < |t.runs|)
  {
    && MayBeClaimed(t.runs[i], now) && i !in locked && t.runs[i].series !in t.bindings
    && (claim.Some? ==> ComesBefore(t.runs, i, claim.value))
  }

  /** What a search does to one run. */
  function AfterSearch(t: Tenancy, claim: Option<nat>, i: nat, owner: string, now: Time, locked: set<Uuid>): PredictionRun
    requires i < |t.runs| && (claim.Some? ==> claim.value < |t.runs|)
  {
    if claim == Some(i) then
      t.runs[i].(status := Running, owner := Some(owner), expires := Some(now + 600), attempt := t.runs[i].attempt + 1,
                 error := None)
    else if PassedOver(t, claim, i, now, locked) then
      t.runs[i].(status := Failed, owner := None, expires := None, attempt := 3,
                 error := Some("PREDICTION_BINDING_INACTIVE"))
    else t.runs[i]
  }

  /** The claim is the first free run with an active binding, and the ones before it without a binding are failed. */
  ghost predicate SearchOutcome(t: Tenancy, u: Tenancy, claim: Option<nat>, owner: string, now: Time, locked: set<Uuid>) {
    && |u.runs| == |t.runs| && u.tenantId == t.tenantId && u.bindings == t.bindings
    && (claim.Some? ==>
          && claim.value < |t.runs| && claim.value !in locked
          && MayBeClaimed(t.runs[claim.value], now) && t.runs[claim.value].series in t.bindings)
    && (forall i :: 0 <= i < |t.runs| && i !in locked && MayBeClaimed(t.runs[i], now) && t.runs[i].series in t.bindings ==>
          claim.Some? && (i == claim.value || ComesBefore(t.runs, claim.value, i)))
    && (forall i :: 0 <= i < |t.runs| ==> u.runs[i] == AfterSearch(t, claim, i, owner, now, locked))
  }

  lemma FailedShape(t: Tenancy, p: nat, owner: string, now: Time)
    requires p < |t.runs|
    ensures var u := FailInactive(t, p, owner, now);
            && u.runs == t.runs[p := t.runs[p].(status := Failed, owner := None, expires := None, attempt := 3,
                                                error := Some("PREDICTION_BINDING_INACTIVE"))]
            && u.bindings == t.bindings && u.tenantId == t.tenantId
  {
    var r := FailRun(ClaimRun(t.runs[p], owner, now), "PREDICTION_BINDING_INACTIVE", false);
    assert SetRun(t, p, r).runs == t.runs[p := r];
  }

  lemma BoundIsClaimed(t: Tenancy, p: nat, owner: string, now: Time, locked: set<Uuid>)
    requires PickEligible(t.runs, |t.runs|, now, locked) == Some(p) && t.runs[p].series in t.bindings
    ensures SearchOutcome(t, SetRun(t, p, ClaimRun(t.runs[p], owner, now)), Some(p), owner, now, locked)
  {
    forall i | 0 <= i < |t.runs| ensures Eligible(t.runs[i], now) <==> MayBeClaimed(t.runs[i], now) {
      EligibleIsExact(t.runs[i], now);
    }
  }

  lemma PassedSettles(t: Tenancy, p: nat, u: Tenancy, v: Tenancy, claim: Option<nat>, owner: string, now: Time, locked: set<Uuid>)
    requires PickEligible(t.runs, |t.runs|, now, locked) == Some(p) && t.runs[p].series !in t.bindings
    requires u.runs == t.runs[p := t.runs[p].(status := Failed, owner := None, expires := None, attempt := 3,
                                              error := Some("PREDICTION_BINDING_INACTIVE"))]
    requires u.bindings == t.bindings && u.tenantId == t.tenantId && SearchOutcome(u, v, claim, owner, now, locked)
    ensures SearchOutcome(t, v, claim, owner, now, locked)
  {
    forall i | 0 <= i < |t.runs| ensures Eligible(t.runs[i], now) <==> MayBeClaimed(t.runs[i], now) {
      EligibleIsExact(t.runs[i], now);
    }
    assert !MayBeClaimed(u.runs[p], now) && claim != Some(p);
    forall i | 0 <= i < |t.runs| ensures v.runs[i] == AfterSearch(t, claim, i, owner, now, locked) {
      assert v.runs[i] == AfterSearch(u, claim, i, owner, now, locked);
      if i == p {
        assert PassedOver(t, claim, p, now, locked);
      } else if claim.Some? {
        assert ComesBefore(u.runs, i, claim.value) <==> ComesBefore(t.runs, i, claim.value);
      }
    }
    forall i | 0 <= i < |t.runs| && i !in locked && MayBeClaimed(t.runs[i], now) && t.runs[i].series in t.bindings
      ensures claim.Some? && (i == claim.value || ComesBefore(t.runs, claim.value, i))
    {
      assert u.runs[i] == t.runs[i];
    }
  }

  /** `claim_next` hands out the first free run with an active binding, and none exactly when there is none. */
  lemma {:induction false} ClaimIsExact(t: Tenancy, owner: string, now: Time, locked: set<Uuid>)
    ensures var c := ClaimNext(t, owner, now, locked); SearchOutcome(t, c.after, c.run, owner, now, locked)
    decreases Slack(t.runs)
  {
    var pick := PickEligible(t.runs, |t.runs|, now, locked);
    if pick.None? {
      forall i | 0 <= i < |t.runs| ensures Eligible(t.runs[i], now) <==> MayBeClaimed(t.runs[i], now) {
        EligibleIsExact(t.runs[i], now);
      }
    } else if t.runs[pick.value].series in t.bindings {
      BoundIsClaimed(t, pick.value, owner, now, locked);
    } else {
      var p, u := pick.value, FailInactive(t, pick.value, owner, now);
      InactiveUsesSlack(t, p, owner, now);
      FailedShape(t, p, owner, now);
      ClaimIsExact(u, owner, now, locked);
      PassedSettles(t, p, u, ClaimNext(u, owner, now, locked).after, ClaimNext(u, owner, now, locked).run, owner, now, locked);
    }
  }

  // ---------------------------------------------------------------- the ends of a claim

  /** Row `run` becomes `row`, its series' loop may move, and nothing else changes. */
  ghost predicate OnlyRun(t: Tenancy, u: Tenancy, run: nat, row: PredictionRun)
    requires run < |t.runs|
  {
    && u.runs == t.runs[run := row] && u.bindings == t.bindings && u.tenantId == t.tenantId
    && forall s :: s != t.runs[run].series ==> LoopOf(u, s) == LoopOf(t, s)
  }

  function FailedRow(r: PredictionRun, code: string, attempt: nat): PredictionRun {
    r.(status := Failed, owner := None, expires := None, error := Some(code), attempt := attempt)
  }

  /** The row of the run and the counters of its series after an unsuccessful end. */
  ghost predicate EndsUnsuccessful(t: Tenancy, u: Tenancy, run: nat, row: PredictionRun)
    requires run < |t.runs|
  {
    var a, b := LoopOf(t, t.runs[run].series), LoopOf(u, t.runs[run].series);
    && OnlyRun(t, u, run, row)
    && b == a.(risk := b.risk)
    && (run in a.slots ==> b.risk.Some?)
    && (run in a.slots && a.risk.None? ==> b.risk == Some(RiskRow(Counters(0, 0, false), Some(run), None, 0, 1)))
    && (run in a.slots && a.risk.Some? ==>
          b.risk == if Counts(a, run)
                    then Some(a.risk.value.(counters := Counters(0, 0, a.risk.value.counters.active), lastRun := Some(run),
                                            version := a.risk.value.version + 1))
                    else a.risk)
  }

  lemma FailWithIsExact(t: Tenancy, run: nat, code: string, retryable: bool)
    requires run < |t.runs|
    ensures EndsUnsuccessful(t, FailWith(t, run, code, retryable), run,
                             FailedRow(t.runs[run], code, if retryable then t.runs[run].attempt else 3))
  {}

  /** What `fail` answers and leaves. */
  ghost predicate FailOutcome(t: Tenancy, end: Ending, run: nat, owner: string, code: string, transient: bool) {
    if HoldsRun(t, run, owner) then
      end.how.Done? && EndsUnsuccessful(t, end.after, run, FailedRow(t.runs[run], code, if transient then t.runs[run].attempt else 3))
    else end == Ending(t, Lost)
  }

  lemma FailIsExact(t: Tenancy, run: nat, owner: string, code: string, transient: bool)
    ensures FailOutcome(t, Fail(t, run, owner, code, transient), run, owner, code, transient)
  {
    if HoldsRun(t, run, owner) {
      FailWithIsExact(t, run, code, transient);
    }
  }

  predicate WithinLimits(q: Quality) { q.distinct <= 10000 && q.missing <= 10000 && q.raw <= 10000 }

  /** What `pin_request` answers and leaves: the first pin, the same pin, or drift for good. */
  ghost predicate PinOutcome(t: Tenancy, end: Ending, run: nat, owner: string, e: Evidence) {
    && (end.how.QualityInvalid? <==> !WithinLimits(e.quality))
    && (end.how.Lost? <==> WithinLimits(e.quality) && !HoldsRun(t, run, owner))
    && (end.how.QualityInvalid? || end.how.Lost? ==> end.after == t)
    && (WithinLimits(e.quality) && HoldsRun(t, run, owner) ==>
          var r := t.runs[run];
          && (end.how.Done? <==> r.evidence.None? || r.evidence == Some(e))
          && (end.how.Drifted? <==> r.evidence.Some? && r.evidence != Some(e))
          && (end.how.Done? ==> end.after == t.(runs := t.runs[run := r.(evidence := Some(e))]))
          && (end.how.Drifted? ==>
                EndsUnsuccessful(t, end.after, run, FailedRow(r, "PREDICTION_REQUEST_DRIFT", 3))))
  }

  lemma PinIsExact(t: Tenancy, run: nat, owner: string, e: Evidence)
    ensures PinOutcome(t, Pin(t, run, owner, e), run, owner, e)
  {
    if HoldsRun(t, run, owner) {
      FailWithIsExact(t, run, DRIFT, false);
      if t.runs[run].evidence == Some(e) {
        assert t.runs[run := t.runs[run].(evidence := Some(e))] == t.runs;
      }
    }
  }

  /** What `skip` answers and leaves: the summary of an unpinned run, or drift of a pinned one. */
  ghost predicate SkipOutcome(t: Tenancy, end: Ending, run: nat, owner: string, code: string, q: Quality) {
    if !HoldsRun(t, run, owner) then end == Ending(t, Lost)
    else
      var r := t.runs[run];
      && end.how.Done?
      && EndsUnsuccessful(t, end.after, run,
                          if r.evidence.Some? then FailedRow(r, "PREDICTION_REQUEST_DRIFT", 3)
                          else FailedRow(r, code, 3).(status := SkippedQuality, skippedWith := Some(q)))
  }

  lemma SkipIsExact(t: Tenancy, run: nat, owner: string, code: string, q: Quality)
    ensures SkipOutcome(t, Skip(t, run, owner, code, q), run, owner, code, q)
  {
    if HoldsRun(t, run, owner) {
      FailWithIsExact(t, run, DRIFT, false);
    }
  }

  /** The round is accepted and has to be projected, but the equipment has no mapping. */
  ghost predicate LacksMapping(a: Aggregate, info: RunInfo, mapping: Option<Mapping>)
    requires info.runId in a.slots
  {
    var b := if a.risk.Some? then a else a.(risk := Some(RiskRow(Counters(0, 0, false), None, None, 0, 0)));
    mapping.None? && Counts(b, info.runId) && (RiskOn(b) || StaysOn(b.risk.value, info.risky))
  }

  lemma RollsBackIsExact(a: Aggregate, info: RunInfo, mapping: Option<Mapping>, pilot: Option<Uuid>, now: Time)
    requires Inv(a) && info.runId in a.slots
    ensures RollsBack(a, info, mapping, pilot, now) <==> LacksMapping(a, info, mapping)
  {
    if RiskOn(a) {
      CurrentAlert(a);
    }
  }

  /** What a success hands to the closed loop: the run's own identity with the pinned profile and the binding's threshold. */
  function HandedOver(run: nat, r: PredictionRun, e: Evidence, threshold: Threshold, f: Forecasted): RunInfo {
    RunInfo(run,
            Provenance(r.correlationId, e.profile.modelProfileId, e.profile.modelInfoId, e.profile.policyVersion, threshold),
            f.forecast, f.risky)
  }

  /** What `succeed` answers and leaves, for a series whose loop knows the run. */
  ghost predicate SuccessOutcome(t: Tenancy, end: Ending, run: nat, owner: string, e: Evidence, threshold: Threshold,
                                 f: Forecasted, mapping: Option<Mapping>, pilot: Option<Uuid>, now: Time)
  {
    && (!HoldsRun(t, run, owner) ==> end == Ending(t, Lost))
    && (HoldsRun(t, run, owner) ==>
          var r := t.runs[run];
          var a, info := LoopOf(t, r.series), HandedOver(run, r, e, threshold, f);
          && (!WithinLimits(e.quality) ==> end == Ending(t, QualityInvalid))
          && (WithinLimits(e.quality) && r.evidence != Some(e) ==>
                end.how.Done? && EndsUnsuccessful(t, end.after, run, FailedRow(r, "PREDICTION_REQUEST_DRIFT", 3)))
          && (WithinLimits(e.quality) && r.evidence == Some(e) && run in a.slots ==>
                if LacksMapping(a, info, mapping) then end == Ending(t, MappingMissing)
                else
                  && end.how.Done?
                  && OnlyRun(t, end.after, run, r.(status := Succeeded, owner := None, expires := None, error := None,
                                                   forecast := Some(f.forecast)))
                  && LoopOf(end.after, r.series) == RoundSucceeded(a, info, mapping, pilot, now)))
  }

  lemma SuccessIsExact(t: Tenancy, run: nat, owner: string, e: Evidence, threshold: Threshold, f: Forecasted,
                       mapping: Option<Mapping>, pilot: Option<Uuid>, now: Time)
    requires HoldsRun(t, run, owner) ==> Inv(LoopOf(t, t.runs[run].series))
    ensures SuccessOutcome(t, PredictionRuns.Succeed(t, run, owner, e, threshold, f, mapping, pilot, now), run, owner, e,
                           threshold, f, mapping, pilot, now)
  {
    if HoldsRun(t, run, owner) {
      FailWithIsExact(t, run, DRIFT, false);
      var r := t.runs[run];
      var info := HandedOver(run, r, e, threshold, f);
      if run in LoopOf(t, r.series).slots {
        RollsBackIsExact(LoopOf(t, r.series), info, mapping, pilot, now);
      }
    }
  }

  // ---------------------------------------------------------------- a sweep and the counters

  /** One of these runs of the series is newer than what the risk row has seen. */
  ghost predicate SomeCounts(t: Tenancy, ids: seq<nat>, s: Series)
    requires forall k :: 0 <= k < |ids| ==> ids[k] < |t.runs|
  {
    var a := LoopOf(t, s);
    exists k :: 0 <= k < |ids| && t.runs[ids[k]].series == s && ids[k] in a.slots && a.risk.Some? && Counts(a, ids[k])
  }

  /** The counters start over, and the risk stays as it was. */
  ghost predicate StartsOver(a: Aggregate, b: Aggregate) {
    && a.risk.Some? && b.risk.Some? && b == a.(risk := b.risk)
    && b.risk.value.counters == Counters(0, 0, a.risk.value.counters.active)
  }

  lemma ResetAgain(a: Aggregate, b: Aggregate, run: nat)
    requires StartsOver(a, b)
    ensures StartsOver(a, Step(b, FailRound(run, false)))
  {}

  lemma ResetOnce(a: Aggregate, run: nat)
    ensures var b := Step(a, FailRound(run, false));
            if run in a.slots && a.risk.Some? && Counts(a, run) then StartsOver(a, b) else b == a
  {}

  lemma {:induction false} ResetsStartOver(t: Tenancy, ids: seq<nat>, s: Series)
    requires forall k :: 0 <= k < |ids| ==> ids[k] < |t.runs|
    ensures var a, b := LoopOf(t, s), LoopOf(ResetAll(t, ids), s);
            if SomeCounts(t, ids, s) then StartsOver(a, b) else b == a
  {
    if ids != [] {
      var front, id := ids[..|ids| - 1], ids[|ids| - 1];
      var a, b := LoopOf(t, s), LoopOf(ResetAll(t, front), s);
      ResetsStartOver(t, front, s);
      if t.runs[id].series == s {
        ResetOnce(a, id);
        if SomeCounts(t, front, s) {
          ResetAgain(a, b, id);
        }
      }
      SomeCountsNext(t, ids, s);
    }
  }

  lemma SomeCountsNext(t: Tenancy, ids: seq<nat>, s: Series)
    requires ids != [] && forall k :: 0 <= k < |ids| ==> ids[k] < |t.runs|
    ensures var a, id := LoopOf(t, s), ids[|ids| - 1];
            SomeCounts(t, ids, s) <==>
              || SomeCounts(t, ids[..|ids| - 1], s)
              || (t.runs[id].series == s && id in a.slots && a.risk.Some? && Counts(a, id))
  {
    var a, front := LoopOf(t, s), ids[..|ids| - 1];
    if SomeCounts(t, front, s) {
      var k :| 0 <= k < |front| && t.runs[front[k]].series == s && front[k] in a.slots && a.risk.Some? && Counts(a, front[k]);
      assert ids[k] == front[k];
    }
    if SomeCounts(t, ids, s) {
      var k :| 0 <= k < |ids| && t.runs[ids[k]].series == s && ids[k] in a.slots && a.risk.Some? && Counts(a, ids[k]);
      if k < |front| {
        assert front[k] == ids[k];
      }
    }
  }

  /** A run whose lease is over by `now` and that is newer than what the risk row of its series has seen. */
  predicate IsLost(t: Tenancy, run: nat, now: Time) {
    run < |t.runs| && t.runs[run].status.Running? && t.runs[run].expires.Some? && t.runs[run].expires.value <= now &&
    var a := LoopOf(t, t.runs[run].series);
    run in a.slots && a.risk.Some? && Counts(a, run)
  }

  ghost predicate LosesNewest(t: Tenancy, s: Series, now: Time) {
    exists run: nat :: IsLost(t, run, now) && t.runs[run].series == s
  }

  lemma SweepStartsOver(t: Tenancy, now: Time, s: Series)
    ensures var a, b := LoopOf(t, s), LoopOf(Reconcile(t, now), s);
            if LosesNewest(t, s, now) then StartsOver(a, b) else b == a
  {
    var u, ids := t.(runs := StaleRuns(t.runs, now)), StaleIds(t.runs, |t.runs|, now);
    ResetsStartOver(u, ids, s);
    LostIsCounted(t, u, ids, now, s);
  }

  lemma CountedIsLost(t: Tenancy, u: Tenancy, ids: seq<nat>, now: Time, s: Series, k: nat)
    requires u == t.(runs := StaleRuns(t.runs, now)) && ids == StaleIds(t.runs, |t.runs|, now) && k < |ids|
    requires u.runs[ids[k]].series == s && ids[k] in LoopOf(t, s).slots
    requires LoopOf(t, s).risk.Some? && Counts(LoopOf(t, s), ids[k])
    ensures LosesNewest(t, s, now)
  {
    assert u.runs[ids[k]] == StaleRun(t.runs[ids[k]], now);
    assert IsLost(t, ids[k], now);
  }

  lemma LostIsListed(t: Tenancy, u: Tenancy, ids: seq<nat>, now: Time, s: Series, run: nat)
    requires u == t.(runs := StaleRuns(t.runs, now)) && ids == StaleIds(t.runs, |t.runs|, now)
    requires IsLost(t, run, now) && t.runs[run].series == s
    ensures SomeCounts(u, ids, s)
  {
    var k :| 0 <= k < |ids| && ids[k] == run;
    assert u.runs[ids[k]] == StaleRun(t.runs[run], now);
    assert u.runs[ids[k]].series == s;
  }

  lemma LostIsCounted(t: Tenancy, u: Tenancy, ids: seq<nat>, now: Time, s: Series)
    requires u == t.(runs := StaleRuns(t.runs, now)) && ids == StaleIds(t.runs, |t.runs|, now)
    ensures SomeCounts(u, ids, s) <==> LosesNewest(t, s, now)
  {
    var a := LoopOf(t, s);
    if SomeCounts(u, ids, s) {
      var k :| 0 <= k < |ids| && u.runs[ids[k]].series == s && ids[k] in a.slots && a.risk.Some? && Counts(a, ids[k]);
      CountedIsLost(t, u, ids, now, s, k);
    }
    if run: nat :| IsLost(t, run, now) && t.runs[run].series == s {
      LostIsListed(t, u, ids, now, s, run);
    }
  }

  /** A run whose lease is over by `now`. */
  predicate LeaseIsOver(r: PredictionRun, now: Time) {
    r.status.Running? && r.expires.Some? && r.expires.value <= now
  }

  /** Exactly the runs whose lease is over are stale now, and exactly the series that lost a newest run start over. */
  ghost predicate SweepOutcome(t: Tenancy, u: Tenancy, now: Time) {
    && |u.runs| == |t.runs| && u.bindings == t.bindings && u.tenantId == t.tenantId
    && (forall i :: 0 <= i < |t.runs| ==>
          if LeaseIsOver(t.runs[i], now) then IsSwept(t.runs[i], u.runs[i]) else u.runs[i] == t.runs[i])
    && forall s :: if LosesNewest(t, s, now) then StartsOver(LoopOf(t, s), LoopOf(u, s)) else LoopOf(u, s) == LoopOf(t, s)
  }

  lemma SweepIsExact(t: Tenancy, now: Time)
    ensures SweepOutcome(t, Reconcile(t, now), now)
  {
    var u := Reconcile(t, now);
    forall i | 0 <= i < |t.runs|
      ensures if LeaseIsOver(t.runs[i], now) then IsSwept(t.runs[i], u.runs[i]) else u.runs[i] == t.runs[i]
    {
      assert u.runs[i] == StaleRun(t.runs[i], now);
    }
    forall s ensures if LosesNewest(t, s, now) then StartsOver(LoopOf(t, s), LoopOf(u, s)) else LoopOf(u, s) == LoopOf(t, s) {
      SweepStartsOver(t, now, s);
    }
  }

  /** A run that was passed over, and failed with it, is newer than what the risk row of its series has seen. */
  ghost predicate PassesNewest(t: Tenancy, claim: Option<nat>, s: Series, now: Time, locked: set<Uuid>)
    requires claim.Some? ==> claim.value < |t.runs|
  {
    var a := LoopOf(t, s);
    exists i: nat :: i < |t.runs| && PassedOver(t, claim, i, now, locked) && t.runs[i].series == s
                     && i in a.slots && a.risk.Some? && Counts(a, i)
  }

  lemma PassedLoops(t: Tenancy, p: nat, owner: string, now: Time, s: Series)
    requires p < |t.runs|
    ensures var a, b := LoopOf(t, s), LoopOf(FailInactive(t, p, owner, now), s);
            if t.runs[p].series == s && p in a.slots && a.risk.Some? && Counts(a, p) then StartsOver(a, b) else b == a
  {
    ResetOnce(LoopOf(t, t.runs[p].series), p);
  }

  lemma PassedRest(t: Tenancy, p: nat, u: Tenancy, claim: Option<nat>, now: Time, locked: set<Uuid>, s: Series)
    requires PickEligible(t.runs, |t.runs|, now, locked) == Some(p) && t.runs[p].series !in t.bindings
    requires u.runs == t.runs[p := t.runs[p].(status := Failed, owner := None, expires := None, attempt := 3,
                                              error := Some("PREDICTION_BINDING_INACTIVE"))]
    requires u.bindings == t.bindings && (claim.Some? ==> claim.value < |t.runs|) && claim != Some(p)
    requires claim.Some? ==> claim.value !in locked && MayBeClaimed(u.runs[claim.value], now)
    ensures PassedOver(t, claim, p, now, locked) && !PassedOver(u, claim, p, now, locked)
    ensures forall i :: 0 <= i < |t.runs| && i != p ==> (PassedOver(u, claim, i, now, locked) <==> PassedOver(t, claim, i, now, locked))
  {
    EligibleIsExact(t.runs[p], now);
    if claim.Some? {
      EligibleIsExact(t.runs[claim.value], now);
    }
  }

  lemma PassesNewestNext(t: Tenancy, p: nat, u: Tenancy, claim: Option<nat>, now: Time, locked: set<Uuid>, s: Series)
    requires |u.runs| == |t.runs| && p < |t.runs| && (claim.Some? ==> claim.value < |t.runs|)
    requires forall i :: 0 <= i < |t.runs| ==> u.runs[i].series == t.runs[i].series
    requires PassedOver(t, claim, p, now, locked) && !PassedOver(u, claim, p, now, locked)
    requires forall i :: 0 <= i < |t.runs| && i != p ==> (PassedOver(u, claim, i, now, locked) <==> PassedOver(t, claim, i, now, locked))
    requires LoopOf(u, s) == LoopOf(t, s)
    ensures var a := LoopOf(t, s);
            PassesNewest(t, claim, s, now, locked) <==>
              PassesNewest(u, claim, s, now, locked)
              || (t.runs[p].series == s && p in a.slots && a.risk.Some? && Counts(a, p))
  {
    var a := LoopOf(t, s);
    if PassesNewest(t, claim, s, now, locked) {
      var i: nat :| i < |t.runs| && PassedOver(t, claim, i, now, locked) && t.runs[i].series == s
                    && i in a.slots && a.risk.Some? && Counts(a, i);
      assert i != p ==> PassedOver(u, claim, i, now, locked) && u.runs[i].series == s;
    }
    if PassesNewest(u, claim, s, now, locked) {
      var i: nat :| i < |u.runs| && PassedOver(u, claim, i, now, locked) && u.runs[i].series == s
                    && i in a.slots && a.risk.Some? && Counts(a, i);
      assert PassedOver(t, claim, i, now, locked) && t.runs[i].series == s;
    }
  }

  lemma StartsOverAgain(a: Aggregate, b: Aggregate, c: Aggregate)
    requires StartsOver(a, b) && (c == b || StartsOver(b, c))
    ensures StartsOver(a, c)
  {}

  /** A search starts the counters over exactly in the series of which it failed a newest run, and leaves the other loops alone. */
  lemma {:induction false} SearchStartsOver(t: Tenancy, owner: string, now: Time, locked: set<Uuid>, s: Series)
    ensures var c := ClaimNext(t, owner, now, locked);
            var a, b := LoopOf(t, s), LoopOf(c.after, s);
            && (c.run.Some? ==> c.run.value < |t.runs|)
            && if PassesNewest(t, c.run, s, now, locked) then StartsOver(a, b) else b == a
    decreases Slack(t.runs)
  {
    var pick := PickEligible(t.runs, |t.runs|, now, locked);
    var c := ClaimNext(t, owner, now, locked);
    ClaimIsExact(t, owner, now, locked);
    if pick.Some? && t.runs[pick.value].series !in t.bindings {
      var p, u := pick.value, FailInactive(t, pick.value, owner, now);
      InactiveUsesSlack(t, p, owner, now);
      FailedShape(t, p, owner, now);
      SearchStartsOver(u, owner, now, locked, s);
      PassedSearch(t, p, u, c.run, owner, now, locked, s);
    } else {
      NothingPassed(t, c.run, pick, now, locked, s);
    }
  }

  lemma NothingPassed(t: Tenancy, claim: Option<nat>, pick: Option<nat>, now: Time, locked: set<Uuid>, s: Series)
    requires pick == PickEligible(t.runs, |t.runs|, now, locked) && claim == pick
    ensures !PassesNewest(t, claim, s, now, locked)
  {
    forall i | 0 <= i < |t.runs| ensures !PassedOver(t, claim, i, now, locked) || t.runs[i].series in t.bindings {
      EligibleIsExact(t.runs[i], now);
    }
  }

  lemma PassedSearch(t: Tenancy, p: nat, u: Tenancy, claim: Option<nat>, owner: string, now: Time, locked: set<Uuid>, s: Series)
    requires PickEligible(t.runs, |t.runs|, now, locked) == Some(p) && t.runs[p].series !in t.bindings
    requires u == FailInactive(t, p, owner, now)
    requires ClaimNext(u, owner, now, locked).run == claim && (claim.Some? ==> claim.value < |t.runs|)
    requires |u.runs| == |t.runs|
    requires var b, c := LoopOf(u, s), LoopOf(ClaimNext(u, owner, now, locked).after, s);
             if PassesNewest(u, claim, s, now, locked) then StartsOver(b, c) else c == b
    ensures var a, c := LoopOf(t, s), LoopOf(ClaimNext(u, owner, now, locked).after, s);
            if PassesNewest(t, claim, s, now, locked) then StartsOver(a, c) else c == a
  {
    FailedShape(t, p, owner, now);
    ClaimIsExact(u, owner, now, locked);
    EligibleIsExact(u.runs[p], now);
    PassedRest(t, p, u, claim, now, locked, s);
    PassedLoops(t, p, owner, now, s);
    var a := LoopOf(t, s);
    if t.runs[p].series == s && p in a.slots && a.risk.Some? && Counts(a, p) {
      StartsOverAgain(a, LoopOf(u, s), LoopOf(ClaimNext(u, owner, now, locked).after, s));
      assert PassesNewest(t, claim, s, now, locked);
    } else {
      PassesNewestNext(t, p, u, claim, now, locked, s);
    }
  }
}
