/** The run table as an object, and the worker that drains it. */
module PredictionWorker {
  import opened Basics
  import opened ClosedLoop
  import opened ClosedLoopInvariant
  import opened PredictionRuns
  import opened PredictionRunsTheorems
  import opened PredictionOutcomes

  class ShadowStore {
    const tenantId: Uuid
    var runs: seq<PredictionRun>
    var loops: map<Series, Aggregate>
    var bindings: map<Series, Binding>

    ghost function View(): Tenancy
      reads this
    {
      Tenancy(tenantId, runs, loops, bindings)
    }

    constructor (tenantId: Uuid)
      ensures View() == NewTenancy(tenantId)
    {
      this.tenantId := tenantId;
      runs, loops, bindings := [], map[], map[];
    }

    /** Commits a transaction of the series' closed loop. */
    method Commit(s: Series, x: Txn)
      modifies this`loops
      ensures View() == SetLoop(old(View()), s, Step(LoopOf(old(View()), s), x))
    {
      var loop := if s in loops then loops[s] else Empty(KeyOf(tenantId, s));
      loops := loops[s := Step(loop, x)];
    }

    /** Inserts the slot's run, or finds the one already there. */
    method Schedule(s: Series, at: Time, correlationId: Uuid) returns (run: nat)
      modifies this`runs, this`loops
      ensures View() == CreateSlot(old(View()), s, at, correlationId)
      ensures run < |runs| && runs[run].series == s && runs[run].scheduledAt == at
      ensures runs == old(runs)
              || (run == old(|runs|) && (forall r :: r in old(runs) ==> r.series != s || r.scheduledAt != at)
                  && runs == old(runs) + [PredictionRun(s, at, correlationId, Waiting, None, None, 0, None, None, None, None)])
    {
      run := 0;
      while run < |runs|
        invariant run <= |runs|
        invariant forall i :: 0 <= i < run ==> runs[i].series != s || runs[i].scheduledAt != at
      {
        if runs[run].series == s && runs[run].scheduledAt == at {
          return;
        }
        run := run + 1;
      }
      Commit(s, NewSlot(run, at));
      runs := runs + [NewRun(s, at, correlationId)];
    }

    method MarkFailed(run: nat, owner: string, code: string, retryable: bool) returns (changed: bool)
      modifies this`runs
      ensures changed == HoldsRun(old(View()), run, owner)
      ensures View() == if changed then SetRun(old(View()), run, FailRun(old(runs)[run], code, retryable)) else old(View())
    {
      if run >= |runs| || !runs[run].status.Running? || runs[run].owner != Some(owner) {
        return false;
      }
      var row := runs[run];
      row := row.(status := Failed, owner := None, expires := None);
      row := row.(error := Some(code));
      if !retryable {
        row := row.(attempt := RUN_ATTEMPTS);
      }
      runs := runs[run := row];
      return true;
    }

    /** Fails the claimed run for good, and the round with it where a risk row exists. */
    method GiveUpInactive(run: nat, owner: string)
      requires HoldsRun(View(), run, owner)
      modifies this`runs, this`loops
      ensures View() == ResetLoop(SetRun(old(View()), run, FailRun(old(runs)[run], "PREDICTION_BINDING_INACTIVE", false)), run, false)
    {
      var _ := MarkFailed(run, owner, "PREDICTION_BINDING_INACTIVE", false);
      Commit(runs[run].series, FailRound(run, false));
    }

    /** Claims runs until one has an active binding; the others are failed on the way. */
    method TakeNext(owner: string, now: Time, locked: set<Uuid>) returns (claim: Option<nat>)
      modifies this`runs, this`loops
      ensures Claimed(View(), claim) == ClaimNext(old(View()), owner, now, locked)
      ensures SearchOutcome(old(View()), View(), claim, owner, now, locked)
    {
      ghost var was := View();
      claim := SearchAndClaim(owner, now, locked);
      ClaimIsExact(was, owner, now, locked);
    }

    method SearchAndClaim(owner: string, now: Time, locked: set<Uuid>) returns (claim: Option<nat>)
      modifies this`runs, this`loops
      ensures Claimed(View(), claim) == ClaimNext(old(View()), owner, now, locked)
    {
      while true
        invariant ClaimNext(View(), owner, now, locked) == ClaimNext(old(View()), owner, now, locked)
        decreases Slack(runs)
      {
        claim := PickEligible(runs, |runs|, now, locked);
        if claim.None? {
          return;
        }
        ghost var before := View();
        var run := claim.value;
        var row := runs[run];
        row := row.(status := Running);
        row := row.(owner := Some(owner), expires := Some(now + RUN_LEASE));
        row := row.(attempt := row.attempt + 1, error := None);
        runs := runs[run := row];
        if row.series in bindings {
          return;
        }
        InactiveUsesSlack(before, run, owner, now);
        GiveUpInactive(run, owner);
        assert runs == before.runs[run := FailRun(row, "PREDICTION_BINDING_INACTIVE", false)];
      }
    }

    method Beat(run: nat, owner: string, now: Time) returns (refreshed: bool)
      modifies this`runs
      ensures View() == Heartbeat(old(View()), run, owner, now)
      ensures refreshed == BeatHolds(old(View()), run, owner, now)
      ensures refreshed ==> runs == old(runs)[run := old(runs)[run].(expires := Some(now + 600))]
    {
      refreshed := run < |runs| && runs[run].status.Running? && runs[run].owner == Some(owner)
                   && runs[run].expires.Some? && now < runs[run].expires.value;
      if refreshed {
        runs := runs[run := runs[run].(expires := Some(now + RUN_LEASE))];
      }
    }

    /** Expires stale leases, then resets the counters of their series in ascending order of run. */
    method Sweep(now: Time) returns (ids: seq<nat>)
      modifies this`runs, this`loops
      ensures View() == Reconcile(old(View()), now)
      ensures ids == StaleIds(old(runs), old(|runs|), now)
      ensures SweepOutcome(old(View()), View(), now)
    {
      ghost var was := View();
      ids := ExpireAndReset(now);
      SweepIsExact(was, now);
    }

    method ExpireAndReset(now: Time) returns (ids: seq<nat>)
      modifies this`runs, this`loops
      ensures View() == Reconcile(old(View()), now)
      ensures ids == StaleIds(old(runs), old(|runs|), now)
    {
      ids := StaleIds(runs, |runs|, now);
      runs := StaleRuns(runs, now);
      ghost var swept := View();
      var k := 0;
      while k < |ids|
        invariant 0 <= k <= |ids|
        invariant View() == ResetAll(swept, ids[..k])
      {
        assert ids[..k + 1][..k] == ids[..k];
        Commit(runs[ids[k]].series, FailRound(ids[k], false));
        k := k + 1;
      }
      assert ids[..k] == ids;
    }

    method EndFailed(run: nat, owner: string, code: string, transient: bool) returns (how: Ended)
      modifies this`runs, this`loops
      ensures Ending(View(), how) == Fail(old(View()), run, owner, code, transient)
      ensures FailOutcome(old(View()), Ending(View(), how), run, owner, code, transient)
    {
      FailIsExact(View(), run, owner, code, transient);
      var changed := MarkFailed(run, owner, code, transient);
      if !changed {
        return Lost;
      }
      Commit(runs[run].series, FailRound(run, true));
      return Done;
    }

    method PinRequest(run: nat, owner: string, e: Evidence) returns (how: Ended)
      modifies this`runs, this`loops
      ensures Ending(View(), how) == Pin(old(View()), run, owner, e)
      ensures PinOutcome(old(View()), Ending(View(), how), run, owner, e)
    {
      PinIsExact(View(), run, owner, e);
      if !Bounded(e.quality) { return QualityInvalid; }
      if run >= |runs| || !runs[run].status.Running? || runs[run].owner != Some(owner) { return Lost; }
      if runs[run].evidence.None? {
        runs := runs[run := runs[run].(evidence := Some(e))];
        return Done;
      }
      if runs[run].evidence == Some(e) { return Done; }
      var _ := EndFailed(run, owner, DRIFT, false);
      return Drifted;
    }

    method EndSkipped(run: nat, owner: string, code: string, q: Quality) returns (how: Ended)
      modifies this`runs, this`loops
      ensures Ending(View(), how) == Skip(old(View()), run, owner, code, q)
      ensures SkipOutcome(old(View()), Ending(View(), how), run, owner, code, q)
    {
      SkipIsExact(View(), run, owner, code, q);
      if run >= |runs| || !runs[run].status.Running? || runs[run].owner != Some(owner) { return Lost; }
      if runs[run].evidence.None? {
        var row := runs[run];
        row := row.(status := SkippedQuality);
        row := row.(owner := None, expires := None);
        row := row.(error := Some(code), skippedWith := Some(q));
        row := row.(attempt := RUN_ATTEMPTS);
        runs := runs[run := row];
        Commit(row.series, FailRound(run, true));
      } else {
        var _ := EndFailed(run, owner, DRIFT, false);
      }
      return Done;
    }

    method EndSucceeded(run: nat, owner: string, e: Evidence, threshold: Threshold, f: Forecasted,
                        mapping: Option<Mapping>, pilot: Option<Uuid>, now: Time) returns (how: Ended)
      modifies this`runs, this`loops
      ensures Ending(View(), how) == PredictionRuns.Succeed(old(View()), run, owner, e, threshold, f, mapping, pilot, now)
      ensures (HoldsRun(old(View()), run, owner) ==> Inv(LoopOf(old(View()), old(runs)[run].series))) ==>
                SuccessOutcome(old(View()), Ending(View(), how), run, owner, e, threshold, f, mapping, pilot, now)
    {
      ghost var was := View();
      how := StoreSuccess(run, owner, e, threshold, f, mapping, pilot, now);
      if HoldsRun(was, run, owner) ==> Inv(LoopOf(was, was.runs[run].series)) {
        SuccessIsExact(was, run, owner, e, threshold, f, mapping, pilot, now);
      }
    }

    method StoreSuccess(run: nat, owner: string, e: Evidence, threshold: Threshold, f: Forecasted,
                        mapping: Option<Mapping>, pilot: Option<Uuid>, now: Time) returns (how: Ended)
      modifies this`runs, this`loops
      ensures Ending(View(), how) == PredictionRuns.Succeed(old(View()), run, owner, e, threshold, f, mapping, pilot, now)
    {
      if run >= |runs| || !runs[run].status.Running? || runs[run].owner != Some(owner) { return Lost; }
      if !Bounded(e.quality) { return QualityInvalid; }
      if runs[run].evidence != Some(e) {
        var _ := EndFailed(run, owner, DRIFT, false);
        return Done;
      }
      var row := runs[run];
      row := row.(forecast := Some(f.forecast));
      row := row.(status := Succeeded, error := None);
      row := row.(owner := None, expires := None);
      var info := InfoOf(run, row, e.profile, threshold, f);
      var loop := if row.series in loops then loops[row.series] else Empty(KeyOf(tenantId, row.series));
      if run in loop.slots && RollsBack(loop, info, mapping, pilot, now) { return MappingMissing; }
      runs := runs[run := row];
      Commit(row.series, SucceedRound(info, mapping, pilot, now));
      return Done;
    }

    method HasEligible(now: Time) returns (found: bool)
      ensures found <==> exists i :: 0 <= i < |runs| && Eligible(runs[i], now)
      ensures found <==> exists i :: 0 <= i < |runs| && MayBeClaimed(runs[i], now)
    {
      forall i | 0 <= i < |runs| ensures Eligible(runs[i], now) <==> MayBeClaimed(runs[i], now) {
        EligibleIsExact(runs[i], now);
      }
      var pick := PickEligible(runs, |runs|, now, {});
      found := pick.Some?;
    }
  }

  // ---------------------------------------------------------------- processing one claim

  const CLAIM_LIMIT: nat := 1000

  /** What the providers and the evaluation answer for one claim. */
  datatype Outcome =
    | CredentialMismatch
    | TelemetryFailed(code: string)
    | QualityFailed(code: string, q: Quality)
    | PredictFailed(e: Evidence, code: string)
    | BadForecast(e: Evidence)
    | GoodForecast(e: Evidence, threshold: Threshold, f: Forecasted, mapping: Option<Mapping>, pilot: Option<Uuid>)

  /** The rule of `process`: an outage is retried while attempts and the slot last. */
  predicate IsTransient(code: string, outage: string, r: PredictionRun, now: Time) {
    code == outage && r.attempt < RUN_ATTEMPTS && now < r.scheduledAt + SLOT_SECONDS
  }

  const TB_OUTAGE := "THINGSBOARD_UNAVAILABLE"
  const PDM_OUTAGE := "PDM_UNAVAILABLE"

  /** The pinning of a forecast request, if the outcome got that far. */
  function PinOf(o: Outcome): Option<Evidence> {
    match o
    case PredictFailed(e, _) => Some(e)
    case BadForecast(e) => Some(e)
    case GoodForecast(e, _, _, _, _) => Some(e)
    case _ => None
  }

  /** How the claim ends once nothing is left to pin; `r` is the run as it was claimed. */
  function EndedWith(t: Tenancy, run: nat, r: PredictionRun, owner: string, o: Outcome, now: Time): Ending {
    match o
    case CredentialMismatch => Fail(t, run, owner, "PREDICTION_CREDENTIAL_REF_MISMATCH", false)
    case TelemetryFailed(code) => Fail(t, run, owner, code, IsTransient(code, TB_OUTAGE, r, now))
    case QualityFailed(code, q) => Skip(t, run, owner, code, q)
    case PredictFailed(_, code) => Fail(t, run, owner, code, IsTransient(code, PDM_OUTAGE, r, now))
    case BadForecast(_) => Fail(t, run, owner, "PDM_INVALID_FORECAST", false)
    case GoodForecast(e, threshold, f, mapping, pilot) =>
      PredictionRuns.Succeed(t, run, owner, e, threshold, f, mapping, pilot, now)
  }

  /** The pinning of the request, if there is one to pin. */
  function PinPhase(t: Tenancy, run: nat, owner: string, o: Outcome): Ending {
    match PinOf(o)
    case None => Ending(t, Done)
    case Some(e) => Pin(t, run, owner, e)
  }

  // ---------------------------------------------------------------- the heartbeat beside it

  /** When the heartbeat task wakes before the request is pinned, before the claim is ended, and after that. */
  datatype Pulse = Pulse(before: seq<Time>, between: seq<Time>, after: seq<Time>)

  datatype Beaten = Beaten(after: Tenancy, lost: bool)

  predicate BeatHolds(t: Tenancy, run: nat, owner: string, now: Time) {
    HoldsRun(t, run, owner) && t.runs[run].expires.Some? && now < t.runs[run].expires.value
  }

  /** `_heartbeat`: it stops at the first refresh that finds the lease lost. */
  function Beats(t: Tenancy, run: nat, owner: string, times: seq<Time>): Beaten
    decreases |times|
  {
    if times == [] then Beaten(t, false)
    else if !BeatHolds(t, run, owner, times[0]) then Beaten(t, true)
    else Beats(Heartbeat(t, run, owner, times[0]), run, owner, times[1..])
  }

  /** A heartbeat task that failed before beats no more. */
  function GoOnBeating(t: Tenancy, run: nat, owner: string, times: seq<Time>, lost: bool): Beaten {
    if lost then Beaten(t, true) else Beats(t, run, owner, times)
  }

  /** Each beat comes less than ten minutes after the one before it, the first after `last`. */
  predicate Steady(last: Time, times: seq<Time>)
    decreases |times|
  {
    times == [] || (last <= times[0] < last + RUN_LEASE && Steady(times[0], times[1..]))
  }

  function LastBeat(last: Time, times: seq<Time>): Time { if times == [] then last else times[|times| - 1] }

  /** A steady heartbeat keeps the lease for as long as it beats, and only the lease changes. */
  lemma {:induction false} SteadyBeatsHold(t: Tenancy, run: nat, owner: string, last: Time, times: seq<Time>)
    requires HoldsRun(t, run, owner) && t.runs[run].expires == Some(last + RUN_LEASE) && Steady(last, times)
    ensures var b := Beats(t, run, owner, times);
            && !b.lost && HoldsRun(b.after, run, owner)
            && b.after == SetRun(t, run, t.runs[run].(expires := Some(LastBeat(last, times) + RUN_LEASE)))
    decreases |times|
  {
    if times == [] {
      assert t.runs[run := t.runs[run]] == t.runs;
    } else {
      var u := Heartbeat(t, run, owner, times[0]);
      SteadyBeatsHold(u, run, owner, times[0], times[1..]);
      assert u.runs == t.runs[run := t.runs[run].(expires := Some(times[0] + RUN_LEASE))];
    }
  }

  /** What becomes of one claim: how its processing ends, and whether the heartbeat found the lease lost. */
  datatype Attended = Attended(ending: Ending, lost: bool)

  /**
    `PredictionProcessor.process` of a claimed run beside its heartbeat; `how` other than Done and Drifted is the
    raised error. A lost heartbeat does not stop the processing: it is raised when the processing has ended.
   */
  function Attend(t: Tenancy, run: nat, owner: string, o: Outcome, now: Time, pulse: Pulse): Attended
    requires run < |t.runs|
  {
    var first := Beats(t, run, owner, pulse.before);
    var pinned := PinPhase(first.after, run, owner, o);
    var second := GoOnBeating(pinned.after, run, owner, if pinned.how.Done? then pulse.between else [], first.lost);
    var ended :=
      if pinned.how.Done? then EndedWith(second.after, run, t.runs[run], owner, o, now)
      else Ending(second.after, pinned.how);
    var third := GoOnBeating(ended.after, run, owner, pulse.after, second.lost);
    Attended(Ending(third.after, ended.how), third.lost)
  }

  /** Only the lease time differs, which neither pinning nor ending a held claim looks at. */
  predicate SameButLease(t: Tenancy, u: Tenancy, run: nat) {
    && run < |t.runs| == |u.runs|
    && u == SetRun(t, run, t.runs[run].(expires := u.runs[run].expires))
  }

  lemma PinIgnoresLease(t: Tenancy, u: Tenancy, run: nat, owner: string, o: Outcome)
    requires SameButLease(t, u, run)
    ensures var p, q := PinPhase(t, run, owner, o), PinPhase(u, run, owner, o);
            p.how == q.how && (p.how.Done? ==> SameButLease(p.after, q.after, run))
  {
    assert u.runs == t.runs[run := u.runs[run]];
  }

  lemma EndIgnoresLease(t: Tenancy, u: Tenancy, run: nat, r: PredictionRun, owner: string, o: Outcome, now: Time)
    requires SameButLease(t, u, run)
    ensures EndedWith(t, run, r, owner, o, now).how == EndedWith(u, run, r, owner, o, now).how
  {}

  lemma PinReleases(t: Tenancy, run: nat, owner: string, o: Outcome)
    requires PinPhase(t, run, owner, o).how.Drifted?
    ensures !HoldsRun(PinPhase(t, run, owner, o).after, run, owner)
  {}

  lemma EndReleases(t: Tenancy, run: nat, r: PredictionRun, owner: string, o: Outcome, now: Time)
    requires EndedWith(t, run, r, owner, o, now).how.Done?
    ensures !HoldsRun(EndedWith(t, run, r, owner, o, now).after, run, owner)
  {}

  /** The heartbeat beats in time from the claim at `last` until the claim is ended. */
  predicate SteadyUntilEnd(last: Time, pulse: Pulse) {
    Steady(last, pulse.before) && Steady(LastBeat(last, pulse.before), pulse.between)
  }

  /** With a steady heartbeat a claim ends as it would without one, and the heartbeat is well until then. */
  lemma SteadyUntilEnded(t: Tenancy, run: nat, owner: string, o: Outcome, now: Time, pulse: Pulse, last: Time)
    requires HoldsRun(t, run, owner) && t.runs[run].expires == Some(last + RUN_LEASE) && SteadyUntilEnd(last, pulse)
    ensures var quiet, front := Attend(t, run, owner, o, now, Pulse([], [], [])), Attend(t, run, owner, o, now, pulse.(after := []));
            && front.ending.how == quiet.ending.how && !front.lost
            && (front.ending.how.Done? || front.ending.how.Drifted? ==> !HoldsRun(front.ending.after, run, owner))
  {
    var first := Beats(t, run, owner, pulse.before).after;
    SteadyBeatsHold(t, run, owner, last, pulse.before);
    PinIgnoresLease(t, first, run, owner, o);
    var quiet, pinned := PinPhase(t, run, owner, o), PinPhase(first, run, owner, o);
    if pinned.how.Done? {
      assert HoldsRun(pinned.after, run, owner) && pinned.after.runs[run].expires == first.runs[run].expires;
      SteadyBeatsHold(pinned.after, run, owner, LastBeat(last, pulse.before), pulse.between);
      var second := Beats(pinned.after, run, owner, pulse.between).after;
      EndIgnoresLease(quiet.after, second, run, t.runs[run], owner, o, now);
      if EndedWith(second, run, t.runs[run], owner, o, now).how.Done? {
        EndReleases(second, run, t.runs[run], owner, o, now);
      }
    } else if pinned.how.Drifted? {
      PinReleases(first, run, owner, o);
    }
  }

  /** What comes after the end of the claim is up to the late beats alone. */
  lemma LateBeats(t: Tenancy, run: nat, owner: string, o: Outcome, now: Time, pulse: Pulse)
    requires run < |t.runs|
    ensures var front, a := Attend(t, run, owner, o, now, pulse.(after := [])), Attend(t, run, owner, o, now, pulse);
            && a.ending.how == front.ending.how
            && Beaten(a.ending.after, a.lost) == GoOnBeating(front.ending.after, run, owner, pulse.after, front.lost)
  {}

  /**
    A heartbeat that is steady until the claim is ended changes nothing about how the claim ends, and it is not lost
    unless it goes on beating after that.
   */
  lemma SteadyClaimIsKept(t: Tenancy, run: nat, owner: string, o: Outcome, now: Time, pulse: Pulse, last: Time)
    requires HoldsRun(t, run, owner) && t.runs[run].expires == Some(last + RUN_LEASE) && SteadyUntilEnd(last, pulse)
    ensures Attend(t, run, owner, o, now, pulse).ending.how == Attend(t, run, owner, o, now, Pulse([], [], [])).ending.how
    ensures pulse.after == [] ==> !Attend(t, run, owner, o, now, pulse).lost
  {
    SteadyUntilEnded(t, run, owner, o, now, pulse, last);
    LateBeats(t, run, owner, o, now, pulse);
  }

  /**
    When a claim with a steady heartbeat ended without an error, the worker nevertheless raises a lost lease exactly
    when the heartbeat task woke once more before it was told; what the claim committed stays as it is.
   */
  lemma LateBeatIsLost(t: Tenancy, run: nat, owner: string, o: Outcome, now: Time, pulse: Pulse, last: Time)
    requires HoldsRun(t, run, owner) && t.runs[run].expires == Some(last + RUN_LEASE) && SteadyUntilEnd(last, pulse)
    requires var how := Attend(t, run, owner, o, now, pulse).ending.how; how.Done? || how.Drifted?
    ensures Attend(t, run, owner, o, now, pulse).lost <==> pulse.after != []
    ensures Attend(t, run, owner, o, now, pulse).ending == Attend(t, run, owner, o, now, pulse.(after := [])).ending
  {
    SteadyUntilEnded(t, run, owner, o, now, pulse, last);
    LateBeats(t, run, owner, o, now, pulse);
  }

  /** A failure leaves the run eligible at that very moment exactly when the rule calls it transient. */
  lemma TransientMeansEligible(t: Tenancy, run: nat, owner: string, code: string, outage: string, now: Time)
    requires HoldsRun(t, run, owner) && t.runs[run].scheduledAt <= now && code == outage
    ensures var transient := IsTransient(code, outage, t.runs[run], now);
            Eligible(Fail(t, run, owner, code, transient).after.runs[run], now) <==> transient
  {}

  // ---------------------------------------------------------------- what each answer leads to

  /** The run that ended as the answer says; `pinned` is its row with the request on record. */
  ghost predicate AnsweredRow(r: PredictionRun, row: PredictionRun, o: Outcome, now: Time) {
    var lasts := r.attempt < 3 && now < r.scheduledAt + 900;
    match o
    case CredentialMismatch => row == FailedRow(r, "PREDICTION_CREDENTIAL_REF_MISMATCH", 3)
    case TelemetryFailed(code) =>
      row == FailedRow(r, code, if code == "THINGSBOARD_UNAVAILABLE" && lasts then r.attempt else 3)
    case QualityFailed(code, q) =>
      row == (if r.evidence.Some? then FailedRow(r, "PREDICTION_REQUEST_DRIFT", 3)
              else FailedRow(r, code, 3).(status := SkippedQuality, skippedWith := Some(q)))
    case PredictFailed(e, code) =>
      row == FailedRow(r.(evidence := Some(e)), code, if code == "PDM_UNAVAILABLE" && lasts then r.attempt else 3)
    case BadForecast(e) => row == FailedRow(r.(evidence := Some(e)), "PDM_INVALID_FORECAST", 3)
    case GoodForecast(e, _, f, _, _) =>
      row == r.(evidence := Some(e), status := Succeeded, owner := None, expires := None, error := None,
                forecast := Some(f.forecast))
  }

  /** The equipment has no mapping for a success that has to be projected. */
  ghost predicate IsUnmapped(t: Tenancy, run: nat, o: Outcome)
    requires run < |t.runs|
  {
    var a := LoopOf(t, t.runs[run].series);
    && o.GoodForecast? && run in a.slots
    && LacksMapping(a, HandedOver(run, t.runs[run], o.e, o.threshold, o.f), o.mapping)
  }

  /** How a held claim ends: as answered, as drift, or with an error that is raised. */
  ghost predicate ClaimOutcome(t: Tenancy, end: Ending, run: nat, o: Outcome, now: Time)
    requires run < |t.runs|
  {
    var r := t.runs[run];
    && |end.after.runs| == |t.runs|
    && (forall i :: 0 <= i < |t.runs| && i != run ==> end.after.runs[i] == t.runs[i])
    && if PinOf(o).Some? && !WithinLimits(PinOf(o).value.quality) then end == Ending(t, QualityInvalid)
       else if PinOf(o).Some? && r.evidence.Some? && r.evidence != PinOf(o) then
         end.how.Drifted? && end.after.runs[run] == FailedRow(r, "PREDICTION_REQUEST_DRIFT", 3)
       else if IsUnmapped(t, run, o) then
         end.how.MappingMissing? && end.after == t.(runs := t.runs[run := r.(evidence := PinOf(o))])
       else end.how.Done? && AnsweredRow(r, end.after.runs[run], o, now)
  }

  lemma UnpinnedEnds(t: Tenancy, run: nat, owner: string, o: Outcome, now: Time)
    requires HoldsRun(t, run, owner) && PinOf(o).None?
    ensures ClaimOutcome(t, EndedWith(t, run, t.runs[run], owner, o, now), run, o, now)
  {}

  lemma PinnedFails(t: Tenancy, u: Tenancy, run: nat, owner: string, o: Outcome, now: Time)
    requires HoldsRun(t, run, owner) && PinOf(o).Some? && !o.GoodForecast? && WithinLimits(PinOf(o).value.quality)
    requires t.runs[run].evidence.None? || t.runs[run].evidence == PinOf(o)
    requires u == t.(runs := t.runs[run := t.runs[run].(evidence := PinOf(o))])
    ensures ClaimOutcome(t, EndedWith(u, run, t.runs[run], owner, o, now), run, o, now)
  {}

  lemma PinnedSucceeds(t: Tenancy, u: Tenancy, run: nat, owner: string, o: Outcome, now: Time)
    requires HoldsRun(t, run, owner) && o.GoodForecast? && WithinLimits(o.e.quality)
    requires t.runs[run].evidence.None? || t.runs[run].evidence == Some(o.e)
    requires u == t.(runs := t.runs[run := t.runs[run].(evidence := Some(o.e))])
    requires Inv(LoopOf(t, t.runs[run].series)) && run in LoopOf(t, t.runs[run].series).slots
    ensures ClaimOutcome(t, EndedWith(u, run, t.runs[run], owner, o, now), run, o, now)
  {
    SuccessIsExact(u, run, owner, o.e, o.threshold, o.f, o.mapping, o.pilot, now);
    assert LoopOf(u, u.runs[run].series) == LoopOf(t, t.runs[run].series);
    assert HandedOver(run, u.runs[run], o.e, o.threshold, o.f) == HandedOver(run, t.runs[run], o.e, o.threshold, o.f);
  }

  lemma QuietAttend(t: Tenancy, run: nat, owner: string, o: Outcome, now: Time)
    requires run < |t.runs|
    ensures var a, pinned := Attend(t, run, owner, o, now, Pulse([], [], [])), PinPhase(t, run, owner, o);
            !a.lost && a.ending == if pinned.how.Done? then EndedWith(pinned.after, run, t.runs[run], owner, o, now) else pinned
  {}

  /**
    A held claim whose heartbeat stays quiet ends as its providers answer: each answer has its status, its code and its
    attempts, only an outage with an attempt and the slot left is kept for a retry, a request that differs from the pinned
    one is drift, and a success without the mapping it needs is rolled back.
   */
  lemma ClaimEndsAsAnswered(t: Tenancy, run: nat, owner: string, o: Outcome, now: Time)
    requires HoldsRun(t, run, owner)
    requires Inv(LoopOf(t, t.runs[run].series)) && run in LoopOf(t, t.runs[run].series).slots
    ensures ClaimOutcome(t, Attend(t, run, owner, o, now, Pulse([], [], [])).ending, run, o, now)
  {
    QuietAttend(t, run, owner, o, now);
    if PinOf(o).None? {
      UnpinnedEnds(t, run, owner, o, now);
    } else {
      var e := PinOf(o).value;
      var pinned := PinPhase(t, run, owner, o);
      PinIsExact(t, run, owner, e);
      if pinned.how.Done? {
        if o.GoodForecast? {
          PinnedSucceeds(t, pinned.after, run, owner, o, now);
        } else {
          PinnedFails(t, pinned.after, run, owner, o, now);
        }
      }
    }
  }

  // ---------------------------------------------------------------- the steps in place

  method PinFor(store: ShadowStore, run: nat, owner: string, o: Outcome) returns (how: Ended)
    modifies store
    ensures Ending(store.View(), how) == PinPhase(old(store.View()), run, owner, o)
  {
    match o
    case PredictFailed(e, _) => how := store.PinRequest(run, owner, e);
    case BadForecast(e) => how := store.PinRequest(run, owner, e);
    case GoodForecast(e, _, _, _, _) => how := store.PinRequest(run, owner, e);
    case _ => how := Done;
  }

  method EndFor(store: ShadowStore, run: nat, row: PredictionRun, owner: string, o: Outcome, now: Time) returns (how: Ended)
    modifies store
    ensures Ending(store.View(), how) == EndedWith(old(store.View()), run, row, owner, o, now)
  {
    match o
    case CredentialMismatch =>
      how := store.EndFailed(run, owner, "PREDICTION_CREDENTIAL_REF_MISMATCH", false);
    case TelemetryFailed(code) =>
      how := store.EndFailed(run, owner, code, IsTransient(code, TB_OUTAGE, row, now));
    case QualityFailed(code, q) =>
      how := store.EndSkipped(run, owner, code, q);
    case PredictFailed(_, code) =>
      how := store.EndFailed(run, owner, code, IsTransient(code, PDM_OUTAGE, row, now));
    case BadForecast(_) =>
      how := store.EndFailed(run, owner, "PDM_INVALID_FORECAST", false);
    case GoodForecast(e, threshold, f, mapping, pilot) =>
      how := store.EndSucceeded(run, owner, e, threshold, f, mapping, pilot, now);
  }

  /** `_heartbeat`, waking at the given times. */
  method KeepBeating(store: ShadowStore, run: nat, owner: string, times: seq<Time>) returns (lost: bool)
    modifies store
    ensures Beaten(store.View(), lost) == Beats(old(store.View()), run, owner, times)
  {
    var k := 0;
    lost := false;
    while k < |times| && !lost
      invariant k <= |times|
      invariant Beats(old(store.View()), run, owner, times) ==
                  if lost then Beaten(store.View(), true) else Beats(store.View(), run, owner, times[k..])
    {
      assert times[k..][0] == times[k] && times[k..][1..] == times[k + 1..];
      var refreshed := store.Beat(run, owner, times[k]);
      lost := !refreshed;
      k := k + 1;
    }
  }

  method Process(store: ShadowStore, run: nat, owner: string, o: Outcome, now: Time, pulse: Pulse)
    returns (how: Ended, lost: bool)
    requires run < |store.runs|
    modifies store
    ensures Attended(Ending(store.View(), how), lost) == Attend(old(store.View()), run, owner, o, now, pulse)
  {
    var row := store.runs[run];
    lost := KeepBeating(store, run, owner, pulse.before);
    how := PinFor(store, run, owner, o);
    if how.Done? {
      if !lost {
        lost := KeepBeating(store, run, owner, pulse.between);
      }
      how := EndFor(store, run, row, owner, o, now);
    }
    if !lost {
      lost := KeepBeating(store, run, owner, pulse.after);
    }
  }

  function EndOf(run: nat, r: PredictionRun, owner: string, o: Outcome, now: Time): Op {
    match o
    case CredentialMismatch => Op.EndFailed(run, owner, "PREDICTION_CREDENTIAL_REF_MISMATCH", false)
    case TelemetryFailed(code) => Op.EndFailed(run, owner, code, IsTransient(code, TB_OUTAGE, r, now))
    case QualityFailed(code, q) => Op.EndSkipped(run, owner, code, q)
    case PredictFailed(_, code) => Op.EndFailed(run, owner, code, IsTransient(code, PDM_OUTAGE, r, now))
    case BadForecast(_) => Op.EndFailed(run, owner, "PDM_INVALID_FORECAST", false)
    case GoodForecast(e, threshold, f, mapping, pilot) =>
      Op.EndSucceeded(run, owner, e, threshold, f, mapping, pilot, now)
  }

  lemma EndIsOp(t: Tenancy, run: nat, r: PredictionRun, owner: string, o: Outcome, now: Time)
    ensures EndedWith(t, run, r, owner, o, now).after == Apply1(t, EndOf(run, r, owner, o, now))
  {}

  lemma ApplyOne(t: Tenancy, x: Op)
    ensures ApplyAll(t, [x]) == Apply1(t, x)
  {
    assert [x][..0] == [];
  }

  /** An operation on the claim of this run by this owner. */
  predicate OfClaim(x: Op, run: nat, owner: string) {
    match x
    case Beat(r, w, _) => r == run && w == owner
    case PinRequest(r, w, _) => r == run && w == owner
    case EndFailed(r, w, _, _) => r == run && w == owner
    case EndSkipped(r, w, _, _) => r == run && w == owner
    case EndSucceeded(r, w, _, _, _, _, _, _) => r == run && w == owner
    case _ => false
  }

  ghost predicate AllOfClaim(ops: seq<Op>, run: nat, owner: string) {
    forall k :: 0 <= k < |ops| ==> OfClaim(ops[k], run, owner)
  }

  lemma {:induction false} BeatsAreOps(t: Tenancy, run: nat, owner: string, times: seq<Time>) returns (ops: seq<Op>)
    ensures Beats(t, run, owner, times).after == ApplyAll(t, ops) && AllOfClaim(ops, run, owner)
    decreases |times|
  {
    ops := [];
    if times != [] && BeatHolds(t, run, owner, times[0]) {
      var x := Op.Beat(run, owner, times[0]);
      var rest := BeatsAreOps(Heartbeat(t, run, owner, times[0]), run, owner, times[1..]);
      ApplyOne(t, x);
      ApplySplits(t, [x], rest);
      ops := [x] + rest;
    }
  }

  lemma PinIsOps(t: Tenancy, run: nat, owner: string, o: Outcome) returns (ops: seq<Op>)
    ensures PinPhase(t, run, owner, o).after == ApplyAll(t, ops) && AllOfClaim(ops, run, owner)
  {
    ops := [];
    if PinOf(o).Some? {
      ops := [Op.PinRequest(run, owner, PinOf(o).value)];
      ApplyOne(t, ops[0]);
    }
  }

  lemma EndIsOps(t: Tenancy, run: nat, r: PredictionRun, owner: string, o: Outcome, now: Time) returns (ops: seq<Op>)
    ensures EndedWith(t, run, r, owner, o, now).after == ApplyAll(t, ops) && AllOfClaim(ops, run, owner)
  {
    ops := [EndOf(run, r, owner, o, now)];
    ApplyOne(t, ops[0]);
    EndIsOp(t, run, r, owner, o, now);
  }

  lemma ThenOps(t: Tenancy, before: seq<Op>, u: Tenancy, after: seq<Op>, v: Tenancy, run: nat, owner: string)
    requires u == ApplyAll(t, before) && v == ApplyAll(u, after)
    requires AllOfClaim(before, run, owner) && AllOfClaim(after, run, owner)
    ensures v == ApplyAll(t, before + after) && AllOfClaim(before + after, run, owner)
  {
    ApplySplits(t, before, after);
  }

  /** Processing a claim beside its heartbeat is a sequence of the store's operations on that claim. */
  lemma ProcessedIsOps(t: Tenancy, run: nat, owner: string, o: Outcome, now: Time, pulse: Pulse) returns (ops: seq<Op>)
    requires run < |t.runs|
    ensures Attend(t, run, owner, o, now, pulse).ending.after == ApplyAll(t, ops) && AllOfClaim(ops, run, owner)
  {
    var first := Beats(t, run, owner, pulse.before);
    ops := BeatsAreOps(t, run, owner, pulse.before);
    var pinned := PinPhase(first.after, run, owner, o);
    var more := PinIsOps(first.after, run, owner, o);
    ThenOps(t, ops, first.after, more, pinned.after, run, owner);
    ops := ops + more;
    var times := if pinned.how.Done? then pulse.between else [];
    var second := GoOnBeating(pinned.after, run, owner, times, first.lost);
    more := BeatsAreOps(pinned.after, run, owner, if first.lost then [] else times);
    ThenOps(t, ops, pinned.after, more, second.after, run, owner);
    ops := ops + more;
    var ended := second.after;
    if pinned.how.Done? {
      ended := EndedWith(second.after, run, t.runs[run], owner, o, now).after;
      more := EndIsOps(second.after, run, t.runs[run], owner, o, now);
      ThenOps(t, ops, second.after, more, ended, run, owner);
      ops := ops + more;
    }
    more := BeatsAreOps(ended, run, owner, if second.lost then [] else pulse.after);
    ThenOps(t, ops, ended, more, Attend(t, run, owner, o, now, pulse).ending.after, run, owner);
    ops := ops + more;
  }

  lemma TotalsSnoc(t: Tenancy, ops: seq<Op>, x: Op)
    ensures TotalClaims(t, ops + [x]) == TotalClaims(t, ops) + TotalClaims(ApplyAll(t, ops), [x])
    ensures NewSlots(t, ops + [x]) == NewSlots(t, ops) + NewSlots(ApplyAll(t, ops), [x])
  {
    assert (ops + [x])[..|ops|] == ops;
    assert [x][..0] == [];
    assert ApplyAll(ApplyAll(t, ops), []) == ApplyAll(t, ops);
  }

  lemma {:induction false} TotalsSplit(t: Tenancy, before: seq<Op>, after: seq<Op>)
    ensures TotalClaims(t, before + after) == TotalClaims(t, before) + TotalClaims(ApplyAll(t, before), after)
    ensures NewSlots(t, before + after) == NewSlots(t, before) + NewSlots(ApplyAll(t, before), after)
  {
    if after == [] {
      assert before + after == before;
    } else {
      var n := |after| - 1;
      TotalsSplit(t, before, after[..n]);
      ApplySplits(t, before, after[..n]);
      TotalsSnoc(t, before + after[..n], after[n]);
      TotalsSnoc(ApplyAll(t, before), after[..n], after[n]);
      assert after == after[..n] + [after[n]];
      assert before + after == (before + after[..n]) + [after[n]];
    }
  }

  /** Processing hands out no claims and makes no slots. */
  lemma {:induction false} NoTotals(t: Tenancy, ops: seq<Op>)
    requires forall k :: 0 <= k < |ops| ==> !ops[k].TakeNext? && !ops[k].Schedule?
    ensures TotalClaims(t, ops) == 0 && NewSlots(t, ops) == 0
  {
    if ops != [] {
      NoTotals(t, ops[..|ops| - 1]);
    }
  }

  // ---------------------------------------------------------------- draining

  datatype Drained = Stopped | NothingLeft | Raised(how: Ended) | LimitExceeded | LimitReached

  /** The operations and readings of the clock so far; `claims` of them handed out a run. */
  ghost predicate Drains(t: Tenancy, u: Tenancy, ops: seq<Op>, claims: nat) {
    u == ApplyAll(t, ops) && TotalClaims(t, ops) == claims && NewSlots(t, ops) == 0
  }

  lemma DrainsOn(t: Tenancy, u: Tenancy, ops: seq<Op>, claims: nat, more: seq<Op>)
    requires Drains(t, u, ops, claims) && NewSlots(u, more) == 0
    ensures Drains(t, ApplyAll(u, more), ops + more, claims + TotalClaims(u, more))
  {
    ApplySplits(t, ops, more);
    TotalsSplit(t, ops, more);
  }

  lemma TakeTotals(t: Tenancy, owner: string, now: Time, locked: set<Uuid>)
    ensures var ops := [Op.TakeNext(owner, now, locked)];
            && ApplyAll(t, ops) == ClaimNext(t, owner, now, locked).after
            && TotalClaims(t, ops) == (if ClaimNext(t, owner, now, locked).run.Some? then 1 else 0)
            && NewSlots(t, ops) == 0
  {
    var x := Op.TakeNext(owner, now, locked);
    ApplyOne(t, x);
    assert [x][..0] == [];
  }

  lemma DrainsWithin(t: Tenancy, u: Tenancy, ops: seq<Op>, claims: nat)
    requires RunsOk(t.runs) && Drains(t, u, ops, claims)
    ensures claims <= Slack(t.runs)
  {
    DrainIsBounded(t, ops);
  }

  lemma SweepDrains(t: Tenancy, now: Time)
    ensures Drains(t, Reconcile(t, now), [Op.Sweep(now)], 0)
  {
    ApplyOne(t, Op.Sweep(now));
    NoTotals(t, [Op.Sweep(now)]);
  }

  lemma ClaimDrains(t: Tenancy, u: Tenancy, ops: seq<Op>, claims: nat, owner: string, now: Time)
    requires Drains(t, u, ops, claims)
    ensures var c := ClaimNext(u, owner, now, {});
            && Drains(t, c.after, ops + [Op.TakeNext(owner, now, {})], claims + (if c.run.Some? then 1 else 0))
            && (c.run.Some? ==> c.run.value < |c.after.runs|)
            && (c.run.None? ==> forall i :: 0 <= i < |c.after.runs| ==> !MayBeClaimed(c.after.runs[i], now))
  {
    forall i | 0 <= i < |ClaimNext(u, owner, now, {}).after.runs|
      ensures Eligible(ClaimNext(u, owner, now, {}).after.runs[i], now) <==>
                MayBeClaimed(ClaimNext(u, owner, now, {}).after.runs[i], now)
    {
      EligibleIsExact(ClaimNext(u, owner, now, {}).after.runs[i], now);
    }
    TakeTotals(u, owner, now, {});
    DrainsOn(t, u, ops, claims, [Op.TakeNext(owner, now, {})]);
    ClaimNextGoesOn(u, owner, now, {});
  }

  lemma ProcessDrains(t: Tenancy, u: Tenancy, ops: seq<Op>, claims: nat, run: nat, owner: string, o: Outcome, now: Time,
                      pulse: Pulse) returns (more: seq<Op>)
    requires Drains(t, u, ops, claims) && run < |u.runs|
    ensures Drains(t, Attend(u, run, owner, o, now, pulse).ending.after, ops + more, claims)
  {
    more := ProcessedIsOps(u, run, owner, o, now, pulse);
    forall k | 0 <= k < |more| ensures !more[k].TakeNext? && !more[k].Schedule? {
      assert OfClaim(more[k], run, owner);
    }
    NoTotals(u, more);
    DrainsOn(t, u, ops, claims, more);
  }

  datatype DrainEnd = DrainEnd(after: Tenancy, claimed: nat, how: Drained)

  /** The processing of run `run`, handed out after `n` claims; the clock is read once before the loop and twice a claim. */
  ghost function Attending(owner: string, clock: nat -> Time, outcomes: nat -> Outcome, pulses: nat -> Pulse):
    (Tenancy, nat, nat) -> Attended
  {
    (t: Tenancy, run: nat, n: nat) =>
      if run < |t.runs| then Attend(t, run, owner, outcomes(2 * n + 1), clock(2 * n + 2), pulses(2 * n + 1))
      else Attended(Ending(t, Lost), true)
  }

  /** One claim of the loop and its processing: the drain ends with it, or goes on. */
  datatype Round = Quit(after: Tenancy, claims: nat, how: Drained) | GoOn(after: Tenancy)

  ghost function RoundAt(attend: (Tenancy, nat, nat) -> Attended, owner: string, now: Time, t: Tenancy, n: nat): Round {
    var c := ClaimNext(t, owner, now, {});
    if c.run.None? then Quit(c.after, 0, NothingLeft)
    else
      var a := attend(c.after, c.run.value, n);
      if a.lost || (!a.ending.how.Done? && !a.ending.how.Drifted?)
      then Quit(a.ending.after, 1, Raised(if a.lost then Lost else a.ending.how))
      else GoOn(a.ending.after)
  }

  ghost predicate SomethingLeft(t: Tenancy, now: Time) {
    exists i :: 0 <= i < |t.runs| && MayBeClaimed(t.runs[i], now)
  }

  /** The worker's loop after `n` claims. */
  ghost function DrainFrom(round: (Tenancy, nat) -> Round, clock: nat -> Time, stopAt: nat, t: Tenancy, n: nat): DrainEnd
    decreases if n < CLAIM_LIMIT then CLAIM_LIMIT - n else 0
  {
    if n >= CLAIM_LIMIT then DrainEnd(t, n, if SomethingLeft(t, clock(2 * n + 1)) then LimitExceeded else LimitReached)
    else if stopAt <= 2 * n + 1 then DrainEnd(t, n, Stopped)
    else
      match round(t, n)
      case Quit(u, claims, how) => DrainEnd(u, n + claims, how)
      case GoOn(u) => DrainFrom(round, clock, stopAt, u, n + 1)
  }

  /** Holds of everything; where it is mentioned, the processing of that run is looked up. */
  predicate IsProcessed(t: Tenancy, run: nat, n: nat) { run < |t.runs| || n >= 0 }

  /** `attend` is the processing with these answers. */
  ghost predicate Follows(attend: (Tenancy, nat, nat) -> Attended, owner: string, clock: nat -> Time, outcomes: nat -> Outcome,
                          pulses: nat -> Pulse)
  {
    forall t: Tenancy, run: nat, n: nat {:trigger IsProcessed(t, run, n)} ::
      IsProcessed(t, run, n) ==> attend(t, run, n) == Attending(owner, clock, outcomes, pulses)(t, run, n)
  }

  /** Likewise for the claims of the loop. */
  predicate IsReached(t: Tenancy, n: nat) { n >= |t.runs| || n >= 0 }

  /** `round` is a claim of the loop with this processing. */
  ghost predicate IsRoundOf(round: (Tenancy, nat) -> Round, attend: (Tenancy, nat, nat) -> Attended, owner: string,
                            clock: nat -> Time)
  {
    forall t: Tenancy, n: nat {:trigger IsReached(t, n)} ::
      IsReached(t, n) ==> round(t, n) == RoundAt(attend, owner, clock(2 * n + 1), t, n)
  }

  /** `d` is where `run_once` ends with these answers; a stop is requested before clock reading `stopAt`. */
  ghost predicate IsDrainOf(d: DrainEnd, t: Tenancy, owner: string, clock: nat -> Time, outcomes: nat -> Outcome,
                            pulses: nat -> Pulse, stopAt: nat)
  {
    if stopAt == 0 then d == DrainEnd(t, 0, Stopped)
    else
      exists attend, round ::
        && Follows(attend, owner, clock, outcomes, pulses) && IsRoundOf(round, attend, owner, clock)
        && d == DrainFrom(round, clock, stopAt, Reconcile(t, clock(0)), 0)
  }

  // ---------------------------------------------------------------- no claim is left behind

  predicate HoldsNothing(t: Tenancy, owner: string) {
    forall i :: 0 <= i < |t.runs| ==> !HoldsRun(t, i, owner)
  }

  /** Only this run differs. */
  predicate OnlyRowMoves(t: Tenancy, u: Tenancy, run: nat) {
    |u.runs| == |t.runs| && forall i :: 0 <= i < |t.runs| && i != run ==> u.runs[i] == t.runs[i]
  }

  lemma {:induction false} BeatsMoveOneRow(t: Tenancy, run: nat, owner: string, times: seq<Time>)
    ensures OnlyRowMoves(t, Beats(t, run, owner, times).after, run)
    decreases |times|
  {
    if times != [] && BeatHolds(t, run, owner, times[0]) {
      BeatsMoveOneRow(Heartbeat(t, run, owner, times[0]), run, owner, times[1..]);
    }
  }

  lemma PinMovesOneRow(t: Tenancy, run: nat, owner: string, o: Outcome)
    ensures OnlyRowMoves(t, PinPhase(t, run, owner, o).after, run)
  {}

  lemma EndMovesOneRow(t: Tenancy, run: nat, r: PredictionRun, owner: string, o: Outcome, now: Time)
    ensures OnlyRowMoves(t, EndedWith(t, run, r, owner, o, now).after, run)
  {}

  /** A claim that ends without an error is let go of, and no other run is touched. */
  lemma AttendedIsReleased(t: Tenancy, run: nat, owner: string, o: Outcome, now: Time, pulse: Pulse)
    requires run < |t.runs|
    ensures var a := Attend(t, run, owner, o, now, pulse);
            && OnlyRowMoves(t, a.ending.after, run)
            && (!a.lost && (a.ending.how.Done? || a.ending.how.Drifted?) ==> !HoldsRun(a.ending.after, run, owner))
  {
    var first := Beats(t, run, owner, pulse.before);
    BeatsMoveOneRow(t, run, owner, pulse.before);
    var pinned := PinPhase(first.after, run, owner, o);
    PinMovesOneRow(first.after, run, owner, o);
    var times := if pinned.how.Done? then pulse.between else [];
    var second := GoOnBeating(pinned.after, run, owner, times, first.lost);
    BeatsMoveOneRow(pinned.after, run, owner, times);
    EndMovesOneRow(second.after, run, t.runs[run], owner, o, now);
    var ended := if pinned.how.Done? then EndedWith(second.after, run, t.runs[run], owner, o, now)
                 else Ending(second.after, pinned.how);
    BeatsMoveOneRow(ended.after, run, owner, pulse.after);
    if pinned.how.Drifted? {
      PinReleases(first.after, run, owner, o);
    } else if ended.how.Done? {
      EndReleases(second.after, run, t.runs[run], owner, o, now);
    }
  }

  lemma SearchHoldsOne(t: Tenancy, owner: string, now: Time)
    requires HoldsNothing(t, owner)
    ensures var c := ClaimNext(t, owner, now, {});
            && (c.run.None? ==> HoldsNothing(c.after, owner))
            && forall i :: 0 <= i < |c.after.runs| && HoldsRun(c.after, i, owner) ==> c.run == Some(i)
  {
    ClaimIsExact(t, owner, now, {});
    var c := ClaimNext(t, owner, now, {});
    forall i | 0 <= i < |c.after.runs| && HoldsRun(c.after, i, owner) ensures c.run == Some(i) {
      assert c.after.runs[i] == AfterSearch(t, c.run, i, owner, now, {});
      assert !HoldsRun(t, i, owner);
    }
  }

  /** What the loop needs of the processing of a claim: one run moves, it is let go of, and all of it is history. */
  ghost predicate AttendOk(a: Attended, t: Tenancy, run: nat, owner: string) {
    && OnlyRowMoves(t, a.ending.after, run)
    && (!a.lost && (a.ending.how.Done? || a.ending.how.Drifted?) ==> !HoldsRun(a.ending.after, run, owner))
    && exists ops :: Drains(t, a.ending.after, ops, 0)
  }

  ghost predicate AttendsOk(attend: (Tenancy, nat, nat) -> Attended, owner: string) {
    forall t: Tenancy, run: nat, n: nat :: run < |t.runs| ==> AttendOk(attend(t, run, n), t, run, owner)
  }

  lemma AttendIsOk(t: Tenancy, run: nat, owner: string, o: Outcome, now: Time, pulse: Pulse, a: Attended)
    requires run < |t.runs| && a == Attend(t, run, owner, o, now, pulse)
    ensures AttendOk(a, t, run, owner)
  {
    AttendedIsReleased(t, run, owner, o, now, pulse);
    assert Drains(t, t, [], 0);
    var ops := ProcessDrains(t, t, [], 0, run, owner, o, now, pulse);
    assert Drains(t, a.ending.after, [] + ops, 0);
  }

  lemma FollowingIsOk(attend: (Tenancy, nat, nat) -> Attended, owner: string, clock: nat -> Time, outcomes: nat -> Outcome,
                      pulses: nat -> Pulse)
    requires Follows(attend, owner, clock, outcomes, pulses)
    ensures AttendsOk(attend, owner)
  {
    forall t: Tenancy, run: nat, n: nat | run < |t.runs| ensures AttendOk(attend(t, run, n), t, run, owner) {
      assert IsProcessed(t, run, n);
      AttendIsOk(t, run, owner, outcomes(2 * n + 1), clock(2 * n + 2), pulses(2 * n + 1), attend(t, run, n));
    }
  }

  lemma ReleasedRound(t: Tenancy, c: Claimed, a: Attended, owner: string)
    requires c.run.Some? && c.run.value < |c.after.runs| && AttendOk(a, c.after, c.run.value, owner)
    requires forall i :: 0 <= i < |c.after.runs| && HoldsRun(c.after, i, owner) ==> c.run == Some(i)
    requires !a.lost && (a.ending.how.Done? || a.ending.how.Drifted?)
    ensures HoldsNothing(a.ending.after, owner)
  {
    forall i | 0 <= i < |a.ending.after.runs| ensures !HoldsRun(a.ending.after, i, owner) {
      assert i != c.run.value ==> a.ending.after.runs[i] == c.after.runs[i] && !HoldsRun(c.after, i, owner);
    }
  }

  /** How a drain may end: it claims a thousand times at most, and every way of ending has its cause. */
  ghost predicate EndsWell(d: DrainEnd, clock: nat -> Time, stopAt: nat) {
    var next := 2 * d.claimed + 1;
    && d.claimed <= 1000
    && (d.how.Stopped? ==> stopAt <= next)
    && (d.how.NothingLeft? || d.how.LimitReached? ==> !SomethingLeft(d.after, clock(next)))
    && (d.how.NothingLeft? ==> next < stopAt)
    && (d.how.LimitExceeded? || d.how.LimitReached? ==> d.claimed == 1000)
    && (d.how.LimitExceeded? ==> SomethingLeft(d.after, clock(next)))
    && (d.how.Raised? ==> d.claimed > 0 && !d.how.how.Done? && !d.how.how.Drifted?)
  }

  /** How one claim of the loop may go. */
  ghost predicate RoundOk(r: Round, t: Tenancy, n: nat, owner: string, clock: nat -> Time) {
    match r
    case Quit(u, k, how) =>
      && (how.NothingLeft? || how.Raised?)
      && (how.NothingLeft? ==>
            k == 0 && !SomethingLeft(u, clock(2 * n + 1)) && (HoldsNothing(t, owner) ==> HoldsNothing(u, owner)))
      && (how.Raised? ==> k == 1 && !how.how.Done? && !how.how.Drifted?)
    case GoOn(u) => HoldsNothing(t, owner) ==> HoldsNothing(u, owner)
  }

  lemma NothingIsLeft(t: Tenancy, owner: string, now: Time)
    requires ClaimNext(t, owner, now, {}).run.None?
    ensures !SomethingLeft(ClaimNext(t, owner, now, {}).after, now)
  {
    ClaimNextGoesOn(t, owner, now, {});
    var u := ClaimNext(t, owner, now, {}).after;
    forall i | 0 <= i < |u.runs| ensures !MayBeClaimed(u.runs[i], now) {
      EligibleIsExact(u.runs[i], now);
    }
  }

  lemma RoundIsOk(attend: (Tenancy, nat, nat) -> Attended, owner: string, clock: nat -> Time, t: Tenancy, n: nat)
    requires AttendsOk(attend, owner)
    ensures RoundOk(RoundAt(attend, owner, clock(2 * n + 1), t, n), t, n, owner, clock)
  {
    var now := clock(2 * n + 1);
    var c := ClaimNext(t, owner, now, {});
    ClaimNextGoesOn(t, owner, now, {});
    if HoldsNothing(t, owner) {
      SearchHoldsOne(t, owner, now);
    }
    if c.run.None? {
      NothingIsLeft(t, owner, now);
    } else {
      var a := attend(c.after, c.run.value, n);
      assert AttendOk(a, c.after, c.run.value, owner);
      if HoldsNothing(t, owner) && !a.lost && (a.ending.how.Done? || a.ending.how.Drifted?) {
        ReleasedRound(t, c, a, owner);
      }
    }
  }

  /** A drain ends well, and unless it raises an error it holds nothing then. */
  lemma {:induction false} DrainLetsGo(round: (Tenancy, nat) -> Round, clock: nat -> Time, stopAt: nat, t: Tenancy, n: nat,
                                       owner: string)
    requires n <= CLAIM_LIMIT && forall u: Tenancy, m: nat :: RoundOk(round(u, m), u, m, owner, clock)
    ensures var d := DrainFrom(round, clock, stopAt, t, n);
            EndsWell(d, clock, stopAt) && (!d.how.Raised? && HoldsNothing(t, owner) ==> HoldsNothing(d.after, owner))
    decreases CLAIM_LIMIT - n
  {
    if n < CLAIM_LIMIT && 2 * n + 1 < stopAt {
      assert RoundOk(round(t, n), t, n, owner, clock);
      match round(t, n)
      case Quit(_, _, _) =>
      case GoOn(u) => DrainLetsGo(round, clock, stopAt, u, n + 1, owner);
    }
  }

  lemma SweepHoldsNothing(t: Tenancy, owner: string, now: Time)
    requires HoldsNothing(t, owner)
    ensures HoldsNothing(Reconcile(t, now), owner)
  {
    SweepIsExact(t, now);
    var u := Reconcile(t, now);
    forall i | 0 <= i < |u.runs| ensures !HoldsRun(u, i, owner) {
      assert !HoldsRun(t, i, owner);
    }
  }

  lemma DrainsThen(t0: Tenancy, t: Tenancy, before: seq<Op>, claims: nat, u: Tenancy, more: seq<Op>, n: nat)
    requires Drains(t0, t, before, claims) && Drains(t, u, more, n)
    ensures Drains(t0, u, before + more, claims + n)
  {
    DrainsOn(t0, t, before, claims, more);
  }

  /** `u` can be reached from `t` by the store's operations, with that many claims. */
  ghost predicate IsHistory(t: Tenancy, u: Tenancy, claims: nat) { exists ops :: Drains(t, u, ops, claims) }

  lemma HistoryThen(t0: Tenancy, t: Tenancy, n: nat, u: Tenancy, claims: nat)
    requires IsHistory(t0, t, n) && IsHistory(t, u, claims)
    ensures IsHistory(t0, u, n + claims)
  {
    var before :| Drains(t0, t, before, n);
    var more :| Drains(t, u, more, claims);
    DrainsThen(t0, t, before, n, u, more, claims);
  }

  function ClaimsIn(r: Round): nat { if r.Quit? then r.claims else 1 }

  lemma RoundHasHistory(attend: (Tenancy, nat, nat) -> Attended, owner: string, now: Time, t: Tenancy, n: nat)
    requires AttendsOk(attend, owner)
    ensures var r := RoundAt(attend, owner, now, t, n); IsHistory(t, r.after, ClaimsIn(r))
  {
    var c := ClaimNext(t, owner, now, {});
    assert Drains(t, t, [], 0);
    ClaimDrains(t, t, [], 0, owner, now);
    if c.run.Some? {
      var a := attend(c.after, c.run.value, n);
      assert AttendOk(a, c.after, c.run.value, owner);
      assert IsHistory(t, c.after, 1);
      HistoryThen(t, c.after, 1, a.ending.after, 0);
    }
  }

  /** What every claim of the loop keeps holds at its end. */
  lemma {:induction false} DrainKeeps(round: (Tenancy, nat) -> Round, clock: nat -> Time, stopAt: nat, t: Tenancy, n: nat,
                                      kept: (Tenancy, nat) -> bool)
    requires n <= CLAIM_LIMIT && kept(t, n)
    requires forall u: Tenancy, m: nat :: kept(u, m) ==> kept(round(u, m).after, m + ClaimsIn(round(u, m)))
    ensures var d := DrainFrom(round, clock, stopAt, t, n); kept(d.after, d.claimed)
    decreases CLAIM_LIMIT - n
  {
    if n < CLAIM_LIMIT && 2 * n + 1 < stopAt {
      assert kept(round(t, n).after, n + ClaimsIn(round(t, n)));
      match round(t, n)
      case Quit(_, _, _) =>
      case GoOn(u) => DrainKeeps(round, clock, stopAt, u, n + 1, kept);
    }
  }

  lemma RoundsAreHistory(attend: (Tenancy, nat, nat) -> Attended, owner: string, clock: nat -> Time,
                         round: (Tenancy, nat) -> Round)
    requires AttendsOk(attend, owner) && IsRoundOf(round, attend, owner, clock)
    ensures forall u: Tenancy, m: nat :: IsHistory(u, round(u, m).after, ClaimsIn(round(u, m)))
  {
    forall u: Tenancy, m: nat ensures IsHistory(u, round(u, m).after, ClaimsIn(round(u, m))) {
      assert IsReached(u, m);
      RoundHasHistory(attend, owner, clock(2 * m + 1), u, m);
    }
  }

  lemma DrainIsHistory(round: (Tenancy, nat) -> Round, clock: nat -> Time, stopAt: nat, t0: Tenancy, t: Tenancy)
    requires IsHistory(t0, t, 0)
    requires forall u: Tenancy, m: nat :: IsHistory(u, round(u, m).after, ClaimsIn(round(u, m)))
    ensures var d := DrainFrom(round, clock, stopAt, t, 0); IsHistory(t0, d.after, d.claimed)
  {
    var kept := (u: Tenancy, m: nat) => IsHistory(t0, u, m);
    forall u: Tenancy, m: nat | kept(u, m) ensures kept(round(u, m).after, m + ClaimsIn(round(u, m))) {
      HistoryThen(t0, u, m, round(u, m).after, ClaimsIn(round(u, m)));
    }
    DrainKeeps(round, clock, stopAt, t, 0, kept);
  }

  lemma RoundsAreOk(attend: (Tenancy, nat, nat) -> Attended, owner: string, clock: nat -> Time, round: (Tenancy, nat) -> Round)
    requires AttendsOk(attend, owner) && IsRoundOf(round, attend, owner, clock)
    ensures forall u: Tenancy, m: nat :: RoundOk(round(u, m), u, m, owner, clock)
  {
    forall u: Tenancy, m: nat ensures RoundOk(round(u, m), u, m, owner, clock) {
      assert IsReached(u, m);
      RoundIsOk(attend, owner, clock, u, m);
    }
  }

  /** A bounded history of the store's operations that ends well and leaves no claim behind. */
  ghost predicate IsSound(d: DrainEnd, t: Tenancy, owner: string, clock: nat -> Time, stopAt: nat) {
    && EndsWell(d, clock, stopAt) && IsHistory(t, d.after, d.claimed)
    && (!d.how.Raised? && HoldsNothing(t, owner) ==> HoldsNothing(d.after, owner))
  }

  lemma LoopIsSound(t: Tenancy, u: Tenancy, owner: string, clock: nat -> Time, stopAt: nat,
                    attend: (Tenancy, nat, nat) -> Attended, round: (Tenancy, nat) -> Round)
    requires AttendsOk(attend, owner) && IsRoundOf(round, attend, owner, clock)
    requires IsHistory(t, u, 0) && (HoldsNothing(t, owner) ==> HoldsNothing(u, owner))
    ensures IsSound(DrainFrom(round, clock, stopAt, u, 0), t, owner, clock, stopAt)
  {
    RoundsAreOk(attend, owner, clock, round);
    DrainLetsGo(round, clock, stopAt, u, 0, owner);
    RoundsAreHistory(attend, owner, clock, round);
    DrainIsHistory(round, clock, stopAt, t, u);
  }

  lemma HistoryIsBounded(t: Tenancy, d: DrainEnd)
    requires RunsOk(t.runs) && IsHistory(t, d.after, d.claimed)
    ensures d.claimed <= Slack(t.runs)
  {
    var ops :| Drains(t, d.after, ops, d.claimed);
    DrainsWithin(t, d.after, ops, d.claimed);
  }

  lemma SweptHistory(t: Tenancy, now: Time)
    ensures IsHistory(t, Reconcile(t, now), 0)
  {
    SweepDrains(t, now);
  }

  lemma RestIsSound(t: Tenancy, owner: string, clock: nat -> Time)
    ensures IsSound(DrainEnd(t, 0, Stopped), t, owner, clock, 0)
  {
    assert Drains(t, t, [], 0);
  }

  /**
    Over a whole drain: it ends with its cause, claims at most as often as the runs had attempts left and at most a
    thousand times, is a history of the store's operations, and unless it raises an error leaves no claim behind.
   */
  lemma DrainIsSound(d: DrainEnd, t: Tenancy, owner: string, clock: nat -> Time, outcomes: nat -> Outcome,
                     pulses: nat -> Pulse, stopAt: nat)
    requires RunsOk(t.runs) && IsDrainOf(d, t, owner, clock, outcomes, pulses, stopAt)
    ensures IsSound(d, t, owner, clock, stopAt) && d.claimed <= Slack(t.runs)
  {
    if stopAt == 0 {
      RestIsSound(t, owner, clock);
    } else {
      var attend, round :|
        && Follows(attend, owner, clock, outcomes, pulses) && IsRoundOf(round, attend, owner, clock)
        && d == DrainFrom(round, clock, stopAt, Reconcile(t, clock(0)), 0);
      FollowingIsOk(attend, owner, clock, outcomes, pulses);
      SweptHistory(t, clock(0));
      if HoldsNothing(t, owner) {
        SweepHoldsNothing(t, owner, clock(0));
      }
      LoopIsSound(t, Reconcile(t, clock(0)), owner, clock, stopAt, attend, round);
    }
    HistoryIsBounded(t, d);
  }

  lemma LoopFunctions(owner: string, clock: nat -> Time, outcomes: nat -> Outcome, pulses: nat -> Pulse)
    returns (attend: (Tenancy, nat, nat) -> Attended, round: (Tenancy, nat) -> Round)
    ensures Follows(attend, owner, clock, outcomes, pulses) && IsRoundOf(round, attend, owner, clock)
  {
    attend := Attending(owner, clock, outcomes, pulses);
    round := (t: Tenancy, n: nat) => RoundAt(attend, owner, clock(2 * n + 1), t, n);
  }

  // ---------------------------------------------------------------- the loop in place

  /**
    `run_once`: sweep, then claim and process until nothing is left, a stop is requested, an error is raised (by the
    processing or by its heartbeat) or the claim limit is met.
   */
  method RunOnce(store: ShadowStore, owner: string, clock: nat -> Time, outcomes: nat -> Outcome, pulses: nat -> Pulse,
                 stopAt: nat)
    returns (claimed: nat, how: Drained)
    requires RunsOk(store.runs)
    modifies store
    ensures IsDrainOf(DrainEnd(store.View(), claimed, how), old(store.View()), owner, clock, outcomes, pulses, stopAt)
    ensures IsSound(DrainEnd(store.View(), claimed, how), old(store.View()), owner, clock, stopAt)
    ensures claimed <= Slack(old(store.runs))
  {
    ghost var start := store.View();
    if stopAt == 0 {
      claimed, how := 0, Stopped;
    } else {
      ghost var attend, round := LoopFunctions(owner, clock, outcomes, pulses);
      var _ := store.Sweep(clock(0));
      claimed, how := DrainLoop(store, owner, clock, outcomes, pulses, stopAt, attend, round);
    }
    DrainIsSound(DrainEnd(store.View(), claimed, how), start, owner, clock, outcomes, pulses, stopAt);
  }

  method DrainLoop(store: ShadowStore, owner: string, clock: nat -> Time, outcomes: nat -> Outcome, pulses: nat -> Pulse,
                   stopAt: nat, ghost attend: (Tenancy, nat, nat) -> Attended, ghost round: (Tenancy, nat) -> Round)
    returns (claimed: nat, how: Drained)
    requires Follows(attend, owner, clock, outcomes, pulses) && IsRoundOf(round, attend, owner, clock)
    modifies store
    ensures DrainEnd(store.View(), claimed, how) == DrainFrom(round, clock, stopAt, old(store.View()), 0)
  {
    ghost var start := store.View();
    claimed := 0;
    while claimed < CLAIM_LIMIT
      invariant claimed <= CLAIM_LIMIT
      invariant DrainFrom(round, clock, stopAt, store.View(), claimed) == DrainFrom(round, clock, stopAt, start, 0)
    {
      if stopAt <= 2 * claimed + 1 {
        return claimed, Stopped;
      }
      var claims, ended := ClaimAndProcess(store, owner, clock, outcomes, pulses, claimed, attend, round);
      claimed := claimed + claims;
      if ended.Some? {
        return claimed, ended.value;
      }
    }
    var left := store.HasEligible(clock(2 * claimed + 1));
    how := if left then LimitExceeded else LimitReached;
  }

  /** One claim of the loop and its processing; `how` is None while the loop goes on. */
  method ClaimAndProcess(store: ShadowStore, owner: string, clock: nat -> Time, outcomes: nat -> Outcome, pulses: nat -> Pulse,
                         n: nat, ghost attend: (Tenancy, nat, nat) -> Attended, ghost round: (Tenancy, nat) -> Round)
    returns (claims: nat, how: Option<Drained>)
    requires Follows(attend, owner, clock, outcomes, pulses) && IsRoundOf(round, attend, owner, clock)
    modifies store
    ensures how.None? ==> claims == 1
    ensures round(old(store.View()), n) ==
              if how.Some? then Quit(store.View(), claims, how.value) else GoOn(store.View())
  {
    assert IsReached(store.View(), n);
    ClaimNextGoesOn(store.View(), owner, clock(2 * n + 1), {});
    var claim := store.TakeNext(owner, clock(2 * n + 1), {});
    if claim.None? {
      return 0, Some(NothingLeft);
    }
    var ended, lost := ProcessAt(store, claim.value, owner, clock, outcomes, pulses, n, attend);
    claims := 1;
    how := if lost then Some(Raised(Lost)) else if !ended.Done? && !ended.Drifted? then Some(Raised(ended)) else None;
  }

  method ProcessAt(store: ShadowStore, run: nat, owner: string, clock: nat -> Time, outcomes: nat -> Outcome,
                   pulses: nat -> Pulse, n: nat, ghost attend: (Tenancy, nat, nat) -> Attended)
    returns (how: Ended, lost: bool)
    requires run < |store.runs| && Follows(attend, owner, clock, outcomes, pulses)
    modifies store
    ensures Attended(Ending(store.View(), how), lost) == attend(old(store.View()), run, n)
  {
    assert IsProcessed(store.View(), run, n);
    how, lost := Process(store, run, owner, outcomes(2 * n + 1), clock(2 * n + 2), pulses(2 * n + 1));
  }
}
