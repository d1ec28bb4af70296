/** Leases, frozen evidence, bounded claims, and every series' loop as a run of the closed loop. */
module PredictionRunsTheorems {
  import opened Basics
  import opened ClosedLoop
  import opened PredictionRuns

  // ---------------------------------------------------------------- one run

  /** A run is leased exactly while it is running, and each status implies its own evidence. */
  ghost predicate RunOk(r: PredictionRun) {
    && (r.status.Running? <==> r.owner.Some?)
    && (r.status.Running? <==> r.expires.Some?)
    && (r.status.Waiting? <==> r.attempt == 0)
    && r.attempt <= RUN_ATTEMPTS
    && (r.status.Waiting? ==> r.evidence.None?)
    && (r.status.Succeeded? ==> r.evidence.Some? && r.forecast.Some?)
    && (r.status.SkippedQuality? ==> r.evidence.None? && r.skippedWith.Some? && r.attempt == RUN_ATTEMPTS)
  }

  /** Nothing can be done with the run any more. */
  predicate IsFinal(r: PredictionRun) {
    || r.status.Succeeded?
    || r.status.SkippedQuality?
    || ((r.status.Failed? || r.status.FailedStale?) && r.attempt >= RUN_ATTEMPTS)
  }

  /** How a run may go on: its identity and pinned evidence stay, attempts grow, a final run stays as it is. */
  ghost predicate RunGoesOn(x: PredictionRun, y: PredictionRun) {
    && y.series == x.series && y.scheduledAt == x.scheduledAt && y.correlationId == x.correlationId
    && (x.evidence.Some? ==> y.evidence == x.evidence)
    && (IsFinal(x) ==> y == x)
    && (RunOk(x) ==> RunOk(y) && x.attempt <= y.attempt)
  }

  ghost predicate RunsGoOn(x: seq<PredictionRun>, y: seq<PredictionRun>) {
    |x| <= |y| && forall i :: 0 <= i < |x| ==> RunGoesOn(x[i], y[i])
  }

  lemma RunsGoOnTransitive(x: seq<PredictionRun>, y: seq<PredictionRun>, z: seq<PredictionRun>)
    requires RunsGoOn(x, y) && RunsGoOn(y, z)
    ensures RunsGoOn(x, z)
  {}

  lemma InactiveGoesOn(t: Tenancy, run: nat, owner: string, now: Time)
    requires run < |t.runs| && Eligible(t.runs[run], now)
    ensures RunsGoOn(t.runs, FailInactive(t, run, owner, now).runs)
    ensures |FailInactive(t, run, owner, now).runs| == |t.runs|
  {}

  lemma {:induction false} ClaimNextGoesOn(t: Tenancy, owner: string, now: Time, locked: set<Uuid>)
    ensures var c := ClaimNext(t, owner, now, locked);
            && RunsGoOn(t.runs, c.after.runs) && |c.after.runs| == |t.runs|
            && (c.run.None? ==> Slack(c.after.runs) <= Slack(t.runs))
            && (c.run.Some? ==>
                  && Slack(c.after.runs) < Slack(t.runs)
                  && HoldsRun(c.after, c.run.value, owner)
                  && t.runs[c.run.value].attempt < c.after.runs[c.run.value].attempt
                  && c.after.runs[c.run.value].series in c.after.bindings)
            && (c.run.None? ==>
                  forall i :: 0 <= i < |c.after.runs| && i !in locked ==> !Eligible(c.after.runs[i], now))
    decreases Slack(t.runs)
  {
    var pick := PickEligible(t.runs, |t.runs|, now, locked);
    if pick.Some? {
      var i := pick.value;
      if t.runs[i].series in t.bindings {
        SlackUpdate(t.runs, i, ClaimRun(t.runs[i], owner, now));
      } else {
        var u := FailInactive(t, i, owner, now);
        InactiveUsesSlack(t, i, owner, now);
        InactiveGoesOn(t, i, owner, now);
        ClaimNextGoesOn(u, owner, now, locked);
        RunsGoOnTransitive(t.runs, u.runs, ClaimNext(t, owner, now, locked).after.runs);
      }
    }
  }

  lemma FailureGoesOn(t: Tenancy, run: nat, owner: string, code: string, retryable: bool)
    requires HoldsRun(t, run, owner)
    ensures RunsGoOn(t.runs, FailWith(t, run, code, retryable).runs)
    ensures |FailWith(t, run, code, retryable).runs| == |t.runs|
  {}

  lemma SuccessGoesOn(t: Tenancy, run: nat, owner: string, e: Evidence, threshold: Threshold, f: Forecasted,
                      mapping: Option<Mapping>, pilot: Option<Uuid>, now: Time)
    ensures var u := Succeed(t, run, owner, e, threshold, f, mapping, pilot, now).after;
            RunsGoOn(t.runs, u.runs) && |u.runs| == |t.runs|
  {
    if HoldsRun(t, run, owner) && t.runs[run].evidence != Some(e) {
      FailureGoesOn(t, run, owner, DRIFT, false);
    }
  }

  lemma PinOrSkipGoesOn(t: Tenancy, op: Op)
    requires op.PinRequest? || op.EndSkipped? || op.EndFailed?
    ensures RunsGoOn(t.runs, Apply1(t, op).runs) && |Apply1(t, op).runs| == |t.runs|
  {
    if HoldsRun(t, op.run, op.owner) {
      FailureGoesOn(t, op.run, op.owner, DRIFT, false);
      if op.EndFailed? {
        FailureGoesOn(t, op.run, op.owner, op.code, op.transient);
      }
    }
  }

  lemma RestGoesOn(t: Tenancy, op: Op)
    requires op.Schedule? || op.Rebind? || op.Beat? || op.Sweep? || op.InLoop?
    ensures RunsGoOn(t.runs, Apply1(t, op).runs)
    ensures op.Schedule? || |Apply1(t, op).runs| == |t.runs|
  {}

  lemma OpGoesOn(t: Tenancy, op: Op)
    ensures RunsGoOn(t.runs, Apply1(t, op).runs)
    ensures op.Schedule? || |Apply1(t, op).runs| == |t.runs|
  {
    match op
    case TakeNext(owner, now, locked) => ClaimNextGoesOn(t, owner, now, locked);
    case EndSucceeded(run, owner, e, threshold, f, mapping, pilot, at) =>
      SuccessGoesOn(t, run, owner, e, threshold, f, mapping, pilot, at);
    case EndFailed(_, _, _, _) => PinOrSkipGoesOn(t, op);
    case PinRequest(_, _, _) => PinOrSkipGoesOn(t, op);
    case EndSkipped(_, _, _, _) => PinOrSkipGoesOn(t, op);
    case _ => RestGoesOn(t, op);
  }

  // ---------------------------------------------------------------- all runs, always

  ghost predicate RunsOk(runs: seq<PredictionRun>) {
    && (forall i :: 0 <= i < |runs| ==> RunOk(runs[i]))
    && forall i, j :: 0 <= i < j < |runs| && runs[i].series == runs[j].series ==> runs[i].scheduledAt != runs[j].scheduledAt
  }

  lemma OpKeepsRuns(t: Tenancy, op: Op)
    requires RunsOk(t.runs)
    ensures RunsOk(Apply1(t, op).runs)
  {
    OpGoesOn(t, op);
    var u := Apply1(t, op);
    forall i | 0 <= i < |u.runs| ensures RunOk(u.runs[i]) {
      if i < |t.runs| {
        assert RunGoesOn(t.runs[i], u.runs[i]);
      }
    }
    forall i, j | 0 <= i < j < |u.runs| && u.runs[i].series == u.runs[j].series
      ensures u.runs[i].scheduledAt != u.runs[j].scheduledAt
    {
      assert RunGoesOn(t.runs[i], u.runs[i]);
      if j < |t.runs| {
        assert RunGoesOn(t.runs[j], u.runs[j]);
      }
    }
  }

  lemma {:induction false} AllKeepRuns(t: Tenancy, ops: seq<Op>)
    requires RunsOk(t.runs)
    ensures RunsOk(ApplyAll(t, ops).runs)
  {
    if ops != [] {
      AllKeepRuns(t, ops[..|ops| - 1]);
      OpKeepsRuns(ApplyAll(t, ops[..|ops| - 1]), ops[|ops| - 1]);
    }
  }

  lemma {:induction false} AllGoOn(t: Tenancy, ops: seq<Op>)
    ensures RunsGoOn(t.runs, ApplyAll(t, ops).runs)
  {
    if ops != [] {
      var u := ApplyAll(t, ops[..|ops| - 1]);
      AllGoOn(t, ops[..|ops| - 1]);
      OpGoesOn(u, ops[|ops| - 1]);
      RunsGoOnTransitive(t.runs, u.runs, ApplyAll(t, ops).runs);
    }
  }

  lemma {:induction false} ApplySplits(t: Tenancy, before: seq<Op>, after: seq<Op>)
    ensures ApplyAll(t, before + after) == ApplyAll(ApplyAll(t, before), after)
  {
    if after == [] {
      assert before + after == before;
    } else {
      var n := |after| - 1;
      ApplySplits(t, before, after[..n]);
      assert (before + after)[..|before + after| - 1] == before + after[..n];
    }
  }

  /**
    In every history: a run is leased exactly while running, is attempted at most three times, has one row per slot,
    and has succeeded only with pinned evidence.
   */
  lemma LeaseMachine(tenantId: Uuid, ops: seq<Op>)
    ensures RunsOk(ApplyAll(NewTenancy(tenantId), ops).runs)
  {
    AllKeepRuns(NewTenancy(tenantId), ops);
  }

  /** Pinned evidence is never replaced, and a final run never changes, whatever happens afterwards. */
  lemma EvidenceIsFrozen(tenantId: Uuid, before: seq<Op>, after: seq<Op>, run: nat)
    requires run < |ApplyAll(NewTenancy(tenantId), before).runs|
    ensures var x := ApplyAll(NewTenancy(tenantId), before).runs[run];
            var later := ApplyAll(NewTenancy(tenantId), before + after);
            && run < |later.runs|
            && (x.evidence.Some? ==> later.runs[run].evidence == x.evidence)
            && (IsFinal(x) ==> later.runs[run] == x)
  {
    var t := ApplyAll(NewTenancy(tenantId), before);
    ApplySplits(NewTenancy(tenantId), before, after);
    AllGoOn(t, after);
    assert RunGoesOn(t.runs[run], ApplyAll(t, after).runs[run]);
  }

  /** Exactly the pinned evidence succeeds; a pinned run that is skipped or repinned otherwise is drift, for good. */
  lemma EndsAsPinned(t: Tenancy, run: nat, owner: string, e: Evidence, threshold: Threshold, f: Forecasted,
                     mapping: Option<Mapping>, pilot: Option<Uuid>, now: Time, code: string, q: Quality)
    requires HoldsRun(t, run, owner)
    ensures var r := Succeed(t, run, owner, e, threshold, f, mapping, pilot, now).after.runs[run];
            r.status.Succeeded? ==> t.runs[run].evidence == Some(e) == r.evidence
    ensures t.runs[run].evidence.Some? ==>
              var r := Skip(t, run, owner, code, q).after.runs[run];
              && r.status.Failed? && r.error == Some(DRIFT) && IsFinal(r)
              && r.evidence == t.runs[run].evidence && r.skippedWith == t.runs[run].skippedWith
    ensures t.runs[run].evidence.Some? && Bounded(e.quality) ==>
              var r := Pin(t, run, owner, e).after.runs[run];
              if t.runs[run].evidence == Some(e) then r == t.runs[run]
              else r.status.Failed? && r.error == Some(DRIFT) && IsFinal(r) && r.evidence == t.runs[run].evidence
  {}

  /** A claim counts as stale from ten minutes after it was made or last refreshed, and not before. */
  lemma LeaseLasts(t: Tenancy, owner: string, now: Time, locked: set<Uuid>, beat: Time, later: Time)
    requires ClaimNext(t, owner, now, locked).run.Some? && now <= beat < now + 600
    ensures var c := ClaimNext(t, owner, now, locked);
            var run := c.run.value;
            && run < |c.after.runs|
            && (IsStale(c.after.runs[run], later) <==> later >= now + 600)
            && (IsStale(Heartbeat(c.after, run, owner, beat).runs[run], later) <==> later >= beat + 600)
  {
    ClaimedLease(t, owner, now, locked);
  }

  lemma {:induction false} ClaimedLease(t: Tenancy, owner: string, now: Time, locked: set<Uuid>)
    requires ClaimNext(t, owner, now, locked).run.Some?
    ensures var c := ClaimNext(t, owner, now, locked);
            HoldsRun(c.after, c.run.value, owner) && c.after.runs[c.run.value].expires == Some(now + RUN_LEASE)
    decreases Slack(t.runs)
  {
    var pick := PickEligible(t.runs, |t.runs|, now, locked);
    if t.runs[pick.value].series !in t.bindings {
      InactiveUsesSlack(t, pick.value, owner, now);
      ClaimedLease(FailInactive(t, pick.value, owner, now), owner, now, locked);
    }
  }

  // ---------------------------------------------------------------- bounded claims

  function ClaimedBy(t: Tenancy, op: Op): Option<nat> {
    match op
    case TakeNext(owner, now, locked) => ClaimNext(t, owner, now, locked).run
    case _ => None
  }

  function ClaimsOfRun(t: Tenancy, ops: seq<Op>, run: nat): nat {
    if ops == [] then 0
    else
      var front := ops[..|ops| - 1];
      ClaimsOfRun(t, front, run) + (if ClaimedBy(ApplyAll(t, front), ops[|ops| - 1]) == Some(run) then 1 else 0)
  }

  function AttemptsOf(t: Tenancy, run: nat): nat { if run < |t.runs| then t.runs[run].attempt else 0 }

  lemma ClaimRaisesAttempt(t: Tenancy, op: Op, run: nat)
    requires RunsOk(t.runs)
    ensures AttemptsOf(t, run) + (if ClaimedBy(t, op) == Some(run) then 1 else 0) <= AttemptsOf(Apply1(t, op), run)
  {
    OpGoesOn(t, op);
    if run < |t.runs| {
      assert RunGoesOn(t.runs[run], Apply1(t, op).runs[run]);
    }
    match op
    case TakeNext(owner, now, locked) => ClaimNextGoesOn(t, owner, now, locked);
    case _ =>
  }

  /** No run is handed out more than three times. */
  lemma {:induction false} AtMostThreeClaims(tenantId: Uuid, ops: seq<Op>, run: nat)
    ensures ClaimsOfRun(NewTenancy(tenantId), ops, run) <= AttemptsOf(ApplyAll(NewTenancy(tenantId), ops), run) <= RUN_ATTEMPTS
  {
    LeaseMachine(tenantId, ops);
    if ops != [] {
      AtMostThreeClaims(tenantId, ops[..|ops| - 1], run);
      LeaseMachine(tenantId, ops[..|ops| - 1]);
      ClaimRaisesAttempt(ApplyAll(NewTenancy(tenantId), ops[..|ops| - 1]), ops[|ops| - 1], run);
    }
  }

  function TotalClaims(t: Tenancy, ops: seq<Op>): nat {
    if ops == [] then 0
    else
      var front := ops[..|ops| - 1];
      TotalClaims(t, front) + (if ClaimedBy(ApplyAll(t, front), ops[|ops| - 1]).Some? then 1 else 0)
  }

  function NewSlots(t: Tenancy, ops: seq<Op>): nat {
    if ops == [] then 0
    else
      var front := ops[..|ops| - 1];
      var u := ApplyAll(t, front);
      var op := ops[|ops| - 1];
      NewSlots(t, front) + (if op.Schedule? && !SlotTaken(u.runs, op.s, op.at) then 1 else 0)
  }

  lemma {:induction false} SlackShrinks(x: seq<PredictionRun>, y: seq<PredictionRun>)
    requires |x| == |y| && forall i :: 0 <= i < |x| ==> x[i].attempt <= y[i].attempt
    ensures Slack(y) <= Slack(x)
  {
    if x != [] {
      SlackShrinks(x[..|x| - 1], y[..|y| - 1]);
    }
  }

  lemma OpUsesSlack(t: Tenancy, op: Op)
    requires RunsOk(t.runs)
    ensures Slack(Apply1(t, op).runs) + (if ClaimedBy(t, op).Some? then 1 else 0) <=
              Slack(t.runs) + (if op.Schedule? && !SlotTaken(t.runs, op.s, op.at) then RUN_ATTEMPTS else 0)
  {
    OpGoesOn(t, op);
    var u := Apply1(t, op);
    match op
    case TakeNext(owner, now, locked) => ClaimNextGoesOn(t, owner, now, locked);
    case Schedule(s, at, correlationId) =>
      if !SlotTaken(t.runs, s, at) {
        assert u.runs[..|t.runs|] == t.runs;
      }
    case _ =>
      forall i | 0 <= i < |t.runs| ensures t.runs[i].attempt <= u.runs[i].attempt {
        assert RunGoesOn(t.runs[i], u.runs[i]);
      }
      SlackShrinks(t.runs, u.runs);
  }

  /** Draining claims at most the sum of the attempts left: three more for every slot created meanwhile. */
  lemma {:induction false} DrainIsBounded(t: Tenancy, ops: seq<Op>)
    requires RunsOk(t.runs)
    ensures TotalClaims(t, ops) + Slack(ApplyAll(t, ops).runs) <= Slack(t.runs) + RUN_ATTEMPTS * NewSlots(t, ops)
  {
    if ops != [] {
      DrainIsBounded(t, ops[..|ops| - 1]);
      AllKeepRuns(t, ops[..|ops| - 1]);
      OpUsesSlack(ApplyAll(t, ops[..|ops| - 1]), ops[|ops| - 1]);
    }
  }
}
