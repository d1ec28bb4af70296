/** Concrete histories: a success that is reported as a lost lease, and a run that is taken again after its worker died. */
module PredictionExamples {
  import opened Basics
  import opened ClosedLoop
  import opened PredictionRuns
  import opened PredictionRunsTheorems
  import opened PredictionOutcomes
  import opened PredictionWorker

  const PRESS := Series(2, "vibration_rms")
  const THRESHOLD := Threshold(Above, 5.0, "mm/s")
  const PINNED := Evidence("digest", Profile("profile", "model", "preprocessing", "policy"), DataQuality.Quality(66, 0, 66))
  const CALM := GoodForecast(PINNED, THRESHOLD, Forecasted(Forecast(1.0, 3.0, 2.0, 0), false), None, None)
  const BINDINGS: map<Series, Binding> := map[PRESS := Binding(PINNED.profile, THRESHOLD)]

  /** A bound series, its slot, and the claim of its run. */
  const CLAIMED: seq<Op> := [Rebind(BINDINGS)] + [Op.Schedule(PRESS, 900, 7)] + [Op.TakeNext("worker", 1000, {})]

  const SCHEDULED: Tenancy :=
    Tenancy(1, [NewRun(PRESS, 900, 7)], map[PRESS := Empty(KeyOf(1, PRESS)).(slots := map[0 := 900])], BINDINGS)

  const HELD: Tenancy := SCHEDULED.(runs := [ClaimRun(NewRun(PRESS, 900, 7), "worker", 1000)])

  lemma SlotIsScheduled()
    ensures ApplyAll(NewTenancy(1), [Rebind(BINDINGS)] + [Op.Schedule(PRESS, 900, 7)]) == SCHEDULED
  {
    ApplyOne(NewTenancy(1), Rebind(BINDINGS));
    ApplyOne(NewTenancy(1).(bindings := BINDINGS), Op.Schedule(PRESS, 900, 7));
    ApplySplits(NewTenancy(1), [Rebind(BINDINGS)], [Op.Schedule(PRESS, 900, 7)]);
  }

  lemma RunIsClaimed()
    ensures ApplyAll(NewTenancy(1), CLAIMED) == HELD
  {
    SlotIsScheduled();
    ApplyOne(SCHEDULED, Op.TakeNext("worker", 1000, {}));
    ApplySplits(NewTenancy(1), [Rebind(BINDINGS)] + [Op.Schedule(PRESS, 900, 7)], [Op.TakeNext("worker", 1000, {})]);
    assert PickEligible(SCHEDULED.runs, 1, 1000, {}) == Some(0);
    assert SCHEDULED.runs[0 := HELD.runs[0]] == HELD.runs;
  }

  lemma CalmRunSucceeds(t: Tenancy)
    requires |t.runs| == 1 && HoldsRun(t, 0, "worker") && t.runs[0].evidence == Some(PINNED)
    requires t.runs[0].series == PRESS && LoopOf(t, PRESS) == LoopOf(SCHEDULED, PRESS)
    ensures var e := EndedWith(t, 0, HELD.runs[0], "worker", CALM, 1070);
            e.how.Done? && |e.after.runs| == 1 && e.after.runs[0].status.Succeeded?
  {}

  predicate LostThoughSucceeded(a: Attended) {
    a.lost && a.ending.how.Done? && |a.ending.after.runs| == 1 && a.ending.after.runs[0].status.Succeeded?
  }

  /** A calm run succeeds beside beats every thirty seconds; the third beat finds no lease, and that is what is raised. */
  lemma SuccessReportedAsLost()
    ensures var t := ApplyAll(NewTenancy(1), CLAIMED);
            |t.runs| == 1 && LostThoughSucceeded(Attend(t, 0, "worker", CALM, 1070, Pulse([1030], [1060], [1090])))
  {
    var pulse := Pulse([1030], [1060], [1090]);
    RunIsClaimed();
    var first := Beats(HELD, 0, "worker", [1030]);
    SteadyBeatsHold(HELD, 0, "worker", 1000, [1030]);
    var pinned := PinPhase(first.after, 0, "worker", CALM);
    var second := Beats(pinned.after, 0, "worker", [1060]);
    SteadyBeatsHold(pinned.after, 0, "worker", 1030, [1060]);
    CalmRunSucceeds(second.after);
    assert SteadyUntilEnd(1000, pulse);
    LateBeatIsLost(HELD, 0, "worker", CALM, 1070, pulse, 1000);
  }

  /** The worker dies with its claim of 1000; a sweep at 1600 frees the run, and at 1650, inside the slot, it is taken again. */
  lemma LostRunIsTakenAgain()
    ensures var c := ClaimNext(Reconcile(ApplyAll(NewTenancy(1), CLAIMED), 1600), "second", 1650, {});
            && c.run == Some(0) && |c.after.runs| == 1
            && c.after.runs[0].owner == Some("second") && c.after.runs[0].attempt == 2
  {
    RunIsClaimed();
    var u := Reconcile(HELD, 1600);
    SweepIsExact(HELD, 1600);
    assert LeaseIsOver(HELD.runs[0], 1600) && MayBeClaimed(u.runs[0], 1650);
    ClaimIsExact(u, "second", 1650, {});
    var c := ClaimNext(u, "second", 1650, {});
    assert c.after.runs[0] == AfterSearch(u, c.run, 0, "second", 1650, {});
  }
}
