/** Every series of a tenancy is a run of the closed loop, so everything proved of those runs holds of the tenancy. */
module PredictionLoops {
  import opened Basics
  import opened RiskStates
  import opened ClosedLoop
  import opened ClosedLoopTheorems
  import opened RiskHistory
  import opened PredictionRuns
  import opened PredictionRunsTheorems

  // ---------------------------------------------------------------- the transactions of one series

  function IfOf(t: Tenancy, run: nat, s: Series, x: Txn): seq<Txn> {
    if run < |t.runs| && t.runs[run].series == s then [x] else []
  }

  function ClaimTxns(t: Tenancy, owner: string, now: Time, locked: set<Uuid>, s: Series): seq<Txn>
    decreases Slack(t.runs)
  {
    var pick := PickEligible(t.runs, |t.runs|, now, locked);
    if pick.None? || t.runs[pick.value].series in t.bindings then []
    else
      InactiveUsesSlack(t, pick.value, owner, now);
      IfOf(t, pick.value, s, FailRound(pick.value, false)) + ClaimTxns(FailInactive(t, pick.value, owner, now), owner, now, locked, s)
  }

  function ResetTxns(t: Tenancy, ids: seq<nat>, s: Series): seq<Txn> {
    if ids == [] then []
    else ResetTxns(t, ids[..|ids| - 1], s) + IfOf(t, ids[|ids| - 1], s, FailRound(ids[|ids| - 1], false))
  }

  /** What an operation commits to the loop of series `s`. */
  function TxnsFor(t: Tenancy, op: Op, s: Series): seq<Txn> {
    match op
    case Schedule(s', at, _) => if s' == s && !SlotTaken(t.runs, s, at) then [NewSlot(|t.runs|, at)] else []
    case Rebind(_) => []
    case TakeNext(owner, now, locked) => ClaimTxns(t, owner, now, locked, s)
    case Beat(_, _, _) => []
    case Sweep(now) => ResetTxns(t, StaleIds(t.runs, |t.runs|, now), s)
    case EndFailed(run, owner, _, _) => if HoldsRun(t, run, owner) then IfOf(t, run, s, FailRound(run, true)) else []
    case PinRequest(run, owner, e) =>
      if Bounded(e.quality) && HoldsRun(t, run, owner) && t.runs[run].evidence.Some? && t.runs[run].evidence != Some(e)
      then IfOf(t, run, s, FailRound(run, true)) else []
    case EndSkipped(run, owner, _, _) => if HoldsRun(t, run, owner) then IfOf(t, run, s, FailRound(run, true)) else []
    case EndSucceeded(run, owner, e, threshold, f, mapping, pilot, at) =>
      var how := Succeed(t, run, owner, e, threshold, f, mapping, pilot, at).how;
      if !how.Done? then []
      else if t.runs[run].evidence != Some(e) then IfOf(t, run, s, FailRound(run, true))
      else IfOf(t, run, s, SucceedRound(InfoOf(run, t.runs[run], e.profile, threshold, f), mapping, pilot, at))
    case InLoop(s', x) => if s' == s && !x.NewSlot? && !x.SucceedRound? && !x.FailRound? then [x] else []
  }

  function TraceOf(t: Tenancy, ops: seq<Op>, s: Series): seq<Txn> {
    if ops == [] then []
    else TraceOf(t, ops[..|ops| - 1], s) + TxnsFor(ApplyAll(t, ops[..|ops| - 1]), ops[|ops| - 1], s)
  }

  // ---------------------------------------------------------------- one operation

  lemma ResetOne(t: Tenancy, run: nat, upsert: bool, s: Series)
    requires run < |t.runs|
    ensures LoopOf(ResetLoop(t, run, upsert), s) == Run(LoopOf(t, s), IfOf(t, run, s, FailRound(run, upsert)))
  {
    RunOne(LoopOf(t, s), FailRound(run, upsert));
  }

  lemma {:induction false} ResetMany(t: Tenancy, ids: seq<nat>, s: Series)
    requires forall k :: 0 <= k < |ids| ==> ids[k] < |t.runs|
    ensures LoopOf(ResetAll(t, ids), s) == Run(LoopOf(t, s), ResetTxns(t, ids, s))
  {
    if ids != [] {
      var front, id := ids[..|ids| - 1], ids[|ids| - 1];
      ResetMany(t, front, s);
      ResetOne(ResetAll(t, front), id, false, s);
      RunSplits(LoopOf(t, s), ResetTxns(t, front, s), IfOf(t, id, s, FailRound(id, false)));
    }
  }

  lemma {:induction false} ResetTxnsFrame(t: Tenancy, u: Tenancy, ids: seq<nat>, s: Series)
    requires |t.runs| == |u.runs| && forall i :: 0 <= i < |t.runs| ==> t.runs[i].series == u.runs[i].series
    ensures ResetTxns(t, ids, s) == ResetTxns(u, ids, s)
  {
    if ids != [] {
      ResetTxnsFrame(t, u, ids[..|ids| - 1], s);
    }
  }

  lemma SweepLoop(t: Tenancy, now: Time, s: Series)
    ensures LoopOf(Reconcile(t, now), s) == Run(LoopOf(t, s), ResetTxns(t, StaleIds(t.runs, |t.runs|, now), s))
  {
    var u, ids := t.(runs := StaleRuns(t.runs, now)), StaleIds(t.runs, |t.runs|, now);
    ResetMany(u, ids, s);
    ResetTxnsFrame(t, u, ids, s);
  }

  lemma InactiveLoop(t: Tenancy, run: nat, owner: string, now: Time, s: Series)
    requires run < |t.runs|
    ensures LoopOf(FailInactive(t, run, owner, now), s) == Run(LoopOf(t, s), IfOf(t, run, s, FailRound(run, false)))
  {
    var u := SetRun(t, run, FailRun(ClaimRun(t.runs[run], owner, now), "PREDICTION_BINDING_INACTIVE", false));
    ResetOne(u, run, false, s);
  }

  lemma {:induction false} ClaimLoop(t: Tenancy, owner: string, now: Time, locked: set<Uuid>, s: Series)
    ensures LoopOf(ClaimNext(t, owner, now, locked).after, s) == Run(LoopOf(t, s), ClaimTxns(t, owner, now, locked, s))
    decreases Slack(t.runs)
  {
    var pick := PickEligible(t.runs, |t.runs|, now, locked);
    if pick.Some? && t.runs[pick.value].series !in t.bindings {
      var u := FailInactive(t, pick.value, owner, now);
      InactiveUsesSlack(t, pick.value, owner, now);
      InactiveLoop(t, pick.value, owner, now, s);
      ClaimLoop(u, owner, now, locked, s);
      RunSplits(LoopOf(t, s), IfOf(t, pick.value, s, FailRound(pick.value, false)), ClaimTxns(u, owner, now, locked, s));
    }
  }

  lemma FailLoop(t: Tenancy, run: nat, code: string, retryable: bool, s: Series)
    requires run < |t.runs|
    ensures LoopOf(FailWith(t, run, code, retryable), s) == Run(LoopOf(t, s), IfOf(t, run, s, FailRound(run, true)))
  {
    ResetOne(SetRun(t, run, FailRun(t.runs[run], code, retryable)), run, true, s);
  }

  lemma SkipLoop(t: Tenancy, run: nat, owner: string, code: string, q: Quality, s: Series)
    requires HoldsRun(t, run, owner)
    ensures LoopOf(Skip(t, run, owner, code, q).after, s) == Run(LoopOf(t, s), IfOf(t, run, s, FailRound(run, true)))
  {
    if t.runs[run].evidence.Some? {
      FailLoop(t, run, DRIFT, false, s);
    } else {
      var r := t.runs[run].(status := SkippedQuality, owner := None, expires := None, error := Some(code),
                            skippedWith := Some(q), attempt := RUN_ATTEMPTS);
      ResetOne(SetRun(t, run, r), run, true, s);
    }
  }

  lemma SucceedLoop(t: Tenancy, op: Op, s: Series)
    requires op.EndSucceeded?
    ensures LoopOf(Apply1(t, op), s) == Run(LoopOf(t, s), TxnsFor(t, op, s))
  {
    if HoldsRun(t, op.run, op.owner) && Bounded(op.e.quality) {
      if t.runs[op.run].evidence != Some(op.e) {
        FailLoop(t, op.run, DRIFT, false, s);
      } else {
        RunOne(LoopOf(t, s), SucceedRound(InfoOf(op.run, t.runs[op.run], op.e.profile, op.threshold, op.f),
                                          op.mapping, op.pilot, op.at));
      }
    }
  }

  lemma OpIsTxns(t: Tenancy, op: Op, s: Series)
    ensures LoopOf(Apply1(t, op), s) == Run(LoopOf(t, s), TxnsFor(t, op, s))
  {
    match op
    case Schedule(_, at, _) => RunOne(LoopOf(t, s), NewSlot(|t.runs|, at));
    case TakeNext(owner, now, locked) => ClaimLoop(t, owner, now, locked, s);
    case Sweep(now) => SweepLoop(t, now, s);
    case EndFailed(run, owner, code, transient) => if HoldsRun(t, run, owner) { FailLoop(t, run, code, transient, s); }
    case PinRequest(run, owner, e) => if HoldsRun(t, run, owner) { FailLoop(t, run, DRIFT, false, s); }
    case EndSkipped(run, owner, code, q) => if HoldsRun(t, run, owner) { SkipLoop(t, run, owner, code, q, s); }
    case EndSucceeded(_, _, _, _, _, _, _, _) => SucceedLoop(t, op, s);
    case InLoop(_, x) => RunOne(LoopOf(t, s), x);
    case _ =>
  }

  // ---------------------------------------------------------------- every history

  lemma {:induction false} TenantIsKept(t: Tenancy, ops: seq<Op>)
    ensures ApplyAll(t, ops).tenantId == t.tenantId
  {
    if ops != [] {
      TenantIsKept(t, ops[..|ops| - 1]);
      TenantStays(ApplyAll(t, ops[..|ops| - 1]), ops[|ops| - 1]);
    }
  }

  lemma {:induction false} ClaimKeepsTenant(t: Tenancy, owner: string, now: Time, locked: set<Uuid>)
    ensures ClaimNext(t, owner, now, locked).after.tenantId == t.tenantId
    decreases Slack(t.runs)
  {
    var pick := PickEligible(t.runs, |t.runs|, now, locked);
    if pick.Some? && t.runs[pick.value].series !in t.bindings {
      InactiveUsesSlack(t, pick.value, owner, now);
      ClaimKeepsTenant(FailInactive(t, pick.value, owner, now), owner, now, locked);
    }
  }

  lemma TenantStays(t: Tenancy, op: Op)
    ensures Apply1(t, op).tenantId == t.tenantId
  {
    if op.TakeNext? {
      ClaimKeepsTenant(t, op.owner, op.now, op.locked);
    }
  }

  /** The loop of every series is a run of the closed loop, whatever the runs, workers and operators do. */
  lemma {:induction false} LoopsAreRuns(tenantId: Uuid, ops: seq<Op>, s: Series)
    ensures LoopOf(ApplyAll(NewTenancy(tenantId), ops), s) ==
              Run(Empty(KeyOf(tenantId, s)), TraceOf(NewTenancy(tenantId), ops, s))
  {
    if ops != [] {
      var front, op := ops[..|ops| - 1], ops[|ops| - 1];
      var t := ApplyAll(NewTenancy(tenantId), front);
      LoopsAreRuns(tenantId, front, s);
      OpIsTxns(t, op, s);
      RunSplits(Empty(KeyOf(tenantId, s)), TraceOf(NewTenancy(tenantId), front, s), TxnsFor(t, op, s));
    }
  }

  predicate Knows(t: Tenancy, s: Series, run: Uuid) { run in LoopOf(t, s).slots }

  /** The loop of a series knows exactly the runs of the series, each with its slot. */
  ghost predicate SlotsOk(t: Tenancy) {
    && (forall run :: 0 <= run < |t.runs| ==>
          var slots := LoopOf(t, t.runs[run].series).slots;
          run in slots && slots[run] == t.runs[run].scheduledAt)
    && forall s, run: Uuid :: Knows(t, s, run) ==> run < |t.runs| && t.runs[run].series == s
  }

  /** Only scheduling adds a slot. */
  predicate NoSlot(x: Txn) { !x.NewSlot? }

  lemma StepKeepsSlots(a: Aggregate, x: Txn)
    requires NoSlot(x)
    ensures Step(a, x).slots == a.slots
  {
    StepMovesRow(a, x);
  }

  lemma {:induction false} RunKeepsSlots(a: Aggregate, xs: seq<Txn>)
    requires forall k :: 0 <= k < |xs| ==> NoSlot(xs[k])
    ensures Run(a, xs).slots == a.slots
  {
    if xs != [] {
      RunKeepsSlots(a, xs[..|xs| - 1]);
      StepKeepsSlots(Run(a, xs[..|xs| - 1]), xs[|xs| - 1]);
    }
  }

  lemma {:induction false} ClaimTxnsAddNoSlot(t: Tenancy, owner: string, now: Time, locked: set<Uuid>, s: Series)
    ensures forall k :: 0 <= k < |ClaimTxns(t, owner, now, locked, s)| ==> NoSlot(ClaimTxns(t, owner, now, locked, s)[k])
    decreases Slack(t.runs)
  {
    var pick := PickEligible(t.runs, |t.runs|, now, locked);
    if pick.Some? && t.runs[pick.value].series !in t.bindings {
      InactiveUsesSlack(t, pick.value, owner, now);
      ClaimTxnsAddNoSlot(FailInactive(t, pick.value, owner, now), owner, now, locked, s);
    }
  }

  lemma {:induction false} ResetTxnsAddNoSlot(t: Tenancy, ids: seq<nat>, s: Series)
    ensures forall k :: 0 <= k < |ResetTxns(t, ids, s)| ==> NoSlot(ResetTxns(t, ids, s)[k])
  {
    if ids != [] {
      ResetTxnsAddNoSlot(t, ids[..|ids| - 1], s);
    }
  }

  lemma OpKeepsLoopSlots(t: Tenancy, op: Op, s: Series)
    requires !op.Schedule?
    ensures LoopOf(Apply1(t, op), s).slots == LoopOf(t, s).slots
  {
    OpIsTxns(t, op, s);
    if op.TakeNext? {
      ClaimTxnsAddNoSlot(t, op.owner, op.now, op.locked, s);
    } else if op.Sweep? {
      ResetTxnsAddNoSlot(t, StaleIds(t.runs, |t.runs|, op.now), s);
    }
    RunKeepsSlots(LoopOf(t, s), TxnsFor(t, op, s));
  }

  lemma ScheduleKeepsSlots(t: Tenancy, series: Series, at: Time, correlationId: Uuid)
    requires SlotsOk(t)
    ensures SlotsOk(CreateSlot(t, series, at, correlationId))
  {
    var u := CreateSlot(t, series, at, correlationId);
    if !SlotTaken(t.runs, series, at) {
      assert !Knows(t, series, |t.runs|);
      forall run | 0 <= run < |u.runs|
        ensures run in LoopOf(u, u.runs[run].series).slots
                && LoopOf(u, u.runs[run].series).slots[run] == u.runs[run].scheduledAt
      {
        if run < |t.runs| {
          assert Knows(t, t.runs[run].series, run);
        }
      }
      forall s, run: Uuid | Knows(u, s, run) ensures run < |u.runs| && u.runs[run].series == s {
        assert Knows(t, s, run) || (s == series && run == |t.runs|);
      }
    }
  }

  lemma OtherOpKeepsSlots(t: Tenancy, op: Op)
    requires SlotsOk(t) && !op.Schedule?
    ensures SlotsOk(Apply1(t, op))
  {
    var u := Apply1(t, op);
    OpGoesOn(t, op);
    forall s ensures LoopOf(u, s).slots == LoopOf(t, s).slots {
      OpKeepsLoopSlots(t, op, s);
    }
    forall run | 0 <= run < |u.runs|
      ensures run in LoopOf(u, u.runs[run].series).slots
              && LoopOf(u, u.runs[run].series).slots[run] == u.runs[run].scheduledAt
    {
      assert RunGoesOn(t.runs[run], u.runs[run]);
    }
    forall s, run: Uuid | Knows(u, s, run) ensures run < |u.runs| && u.runs[run].series == s {
      assert Knows(t, s, run);
      assert RunGoesOn(t.runs[run], u.runs[run]);
    }
  }

  lemma OpKeepsSlots(t: Tenancy, op: Op)
    requires SlotsOk(t)
    ensures SlotsOk(Apply1(t, op))
  {
    if op.Schedule? {
      ScheduleKeepsSlots(t, op.s, op.at, op.correlationId);
    } else {
      OtherOpKeepsSlots(t, op);
    }
  }

  /**
    Every history keeps the loops and the run table together: a series' loop knows exactly its own runs, and the last
    run its risk row counted is one of them.
   */
  lemma {:induction false} SlotsAlwaysOk(tenantId: Uuid, ops: seq<Op>)
    ensures SlotsOk(ApplyAll(NewTenancy(tenantId), ops))
  {
    if ops != [] {
      SlotsAlwaysOk(tenantId, ops[..|ops| - 1]);
      OpKeepsSlots(ApplyAll(NewTenancy(tenantId), ops[..|ops| - 1]), ops[|ops| - 1]);
    }
  }

  ghost predicate SoundLoop(key: Key, xs: seq<Txn>, a: Aggregate) {
    && Coherent(a) && NothingLost(a) && OneOpenOrder(a) && PollsCreatedOrders(a)
    && CountersOf(a) == Fold(RoundsOf(Empty(key), xs))
    && (LastRunOf(a).Some? ==> SlotOf(a).Some?)
  }

  lemma RunsAreSound(key: Key, xs: seq<Txn>)
    ensures SoundLoop(key, xs, Run(Empty(key), xs))
  {
    EveryReachableState(key, xs);
    CountersAreFold(key, xs);
    SlotNeverGoesBack(Empty(key), xs);
  }

  /**
    In every history of a tenancy, every series is coherent and loses no alarm intent, has at most one open work order,
    its counters are the fold of the completions accepted by the newest-run rule, and its last counted run is one of
    the series' own runs.
   */
  lemma EverySeriesIsSound(tenantId: Uuid, ops: seq<Op>, s: Series)
    ensures var t := ApplyAll(NewTenancy(tenantId), ops);
            var a := LoopOf(t, s);
            && SoundLoop(KeyOf(tenantId, s), TraceOf(NewTenancy(tenantId), ops, s), a)
            && (LastRunOf(a).Some? ==>
                  LastRunOf(a).value < |t.runs| && t.runs[LastRunOf(a).value].series == s
                  && SlotOf(a) == Some(t.runs[LastRunOf(a).value].scheduledAt))
  {
    LoopsAreRuns(tenantId, ops, s);
    SlotsAlwaysOk(tenantId, ops);
    RunsAreSound(KeyOf(tenantId, s), TraceOf(NewTenancy(tenantId), ops, s));
    var t := ApplyAll(NewTenancy(tenantId), ops);
    LastRunBelongs(t, s);
  }

  lemma LastRunBelongs(t: Tenancy, s: Series)
    requires SlotsOk(t) && (LastRunOf(LoopOf(t, s)).Some? ==> SlotOf(LoopOf(t, s)).Some?)
    ensures var a := LoopOf(t, s);
            LastRunOf(a).Some? ==>
              LastRunOf(a).value < |t.runs| && t.runs[LastRunOf(a).value].series == s
              && SlotOf(a) == Some(t.runs[LastRunOf(a).value].scheduledAt)
  {
    var a := LoopOf(t, s);
    if LastRunOf(a).Some? {
      assert Knows(t, s, LastRunOf(a).value);
    }
  }
}
