/** Newest round wins: the risk row is a clean fold of exactly the completions it accepted, in any completion order. */
module RiskHistory {
  import opened Basics
  import opened RiskStates
  import opened ClosedLoop

  /** Every failure path treats the round as one without a successful forecast. */
  lemma ResetIsUnsuccessfulRound(row: RiskRow, run: Uuid, risky: bool)
    ensures ResetCounters(row, run) ==
              row.(counters := Advance(row.counters, risky, false), lastRun := Some(run), version := row.version + 1)
  {}

  /** The completion a transaction contributes to the row, if the row accepts it and the transaction commits. */
  function RoundOf(a: Aggregate, t: Txn): Option<Round> {
    match t
    case SucceedRound(info, mapping, pilot, now) =>
      if info.runId !in a.slots then None
      else
        var row := EnsureRow(a).risk.value;
        if !IsNewest(a.slots, row, info.runId) then None
        else if Apply(a.(risk := Some(RecordRound(row, info.runId, info.risky))), info, row.counters.active,
                      mapping, pilot, now).None?
        then None
        else Some(if info.risky then Risky else Healthy)
    case FailRound(run, upsert) =>
      if run !in a.slots || (a.risk.None? && !upsert) || !IsNewest(a.slots, EnsureRow(a).risk.value, run)
      then None else Some(Unobserved)
    case Close(call) =>
      var r := CloseRisk(a, call).reply;
      if r.Ok? && !r.value.replayed then Some(Closed) else None
    case _ => None
  }

  function RoundsOf(a: Aggregate, ts: seq<Txn>): seq<Round> {
    if ts == [] then []
    else
      var front := ts[..|ts| - 1];
      var r := RoundOf(Run(a, front), ts[|ts| - 1]);
      if r.Some? then RoundsOf(a, front) + [r.value] else RoundsOf(a, front)
  }

  function CountersOf(a: Aggregate): Counters { if a.risk.Some? then a.risk.value.counters else QUIET }

  function RowVersion(a: Aggregate): nat { if a.risk.Some? then a.risk.value.version else 0 }

  function LastRunOf(a: Aggregate): Option<Uuid> { if a.risk.Some? then a.risk.value.lastRun else None }

  /** The run a transaction makes the last accepted one. */
  function RunOf(a: Aggregate, t: Txn): Option<Uuid> {
    if RoundOf(a, t).None? then LastRunOf(a)
    else if t.SucceedRound? then Some(t.info.runId)
    else if t.FailRound? then Some(t.run)
    else LastRunOf(a)
  }

  // ---------------------------------------------------------------- one transaction

  lemma SucceededRow(a: Aggregate, t: Txn)
    requires t.SucceedRound?
    ensures RowMoved(a, t, Step(a, t))
  {
    if Enabled(a, t) {
      var b := EnsureRow(a);
      var row := b.risk.value;
      if IsNewest(b.slots, row, t.info.runId) {
        AppliedRow(b.(risk := Some(RecordRound(row, t.info.runId, t.info.risky))), t.info, row.counters.active,
                   t.mapping, t.pilot, t.now);
      }
    }
  }

  lemma AppliedRow(a: Aggregate, run: RunInfo, wasActive: bool, mapping: Option<Mapping>, pilot: Option<Uuid>, now: Time)
    requires a.risk.Some?
    ensures var r := Apply(a, run, wasActive, mapping, pilot, now);
            r.Some? ==>
              && r.value.risk.Some? && r.value.risk.value.counters == a.risk.value.counters
              && r.value.risk.value.lastRun == a.risk.value.lastRun && r.value.slots == a.slots
              && r.value.risk.value.version == a.risk.value.version
  {}

  predicate RowMoved(a: Aggregate, t: Txn, b: Aggregate) {
    && CountersOf(b) == (if RoundOf(a, t).Some? then After(CountersOf(a), RoundOf(a, t).value) else CountersOf(a))
    && LastRunOf(b) == RunOf(a, t)
    && RowVersion(b) == RowVersion(a) + (if RoundOf(a, t).Some? then 1 else 0)
    && (if t.NewSlot? then forall run :: run in a.slots ==> run in b.slots && b.slots[run] == a.slots[run]
        else b.slots == a.slots)
  }

  lemma FailedRow(a: Aggregate, t: Txn)
    requires t.FailRound? || t.NewSlot?
    ensures RowMoved(a, t, Step(a, t))
  {}

  lemma ClosedRow(a: Aggregate, t: Txn)
    requires t.Close?
    ensures RowMoved(a, t, Step(a, t))
  {}

  lemma CreatedRow(a: Aggregate, t: Txn)
    requires t.Create?
    ensures RowMoved(a, t, Step(a, t))
  {}

  lemma FollowedRow(a: Aggregate, t: Txn)
    requires t.SaveOrder? || t.FinishPoll?
    ensures RowMoved(a, t, Step(a, t))
  {}

  lemma QueueRow(a: Aggregate, t: Txn)
    requires t.Claim? || t.Discard? || t.MarkCleared? || t.Retry? || t.GiveUp? || t.SaveAlarm? || t.StartPoll? || t.AbandonPoll?
    ensures RowMoved(a, t, Step(a, t))
  {}

  lemma StepMovesRow(a: Aggregate, t: Txn)
    ensures RowMoved(a, t, Step(a, t))
  {
    match t
    case SucceedRound(_, _, _, _) => SucceededRow(a, t);
    case FailRound(_, _) => FailedRow(a, t);
    case NewSlot(_, _) => FailedRow(a, t);
    case Close(_) => ClosedRow(a, t);
    case Create(_) => CreatedRow(a, t);
    case SaveOrder(_, _, _, _) => FollowedRow(a, t);
    case FinishPoll(_, _, _, _) => FollowedRow(a, t);
    case _ => QueueRow(a, t);
  }

  // ---------------------------------------------------------------- every run

  /** For every completion order: the counters are the fold of exactly the accepted completions, and the row counts them. */
  lemma {:induction false} CountersAreFold(key: Key, ts: seq<Txn>)
    ensures CountersOf(Run(Empty(key), ts)) == Fold(RoundsOf(Empty(key), ts))
    ensures RowVersion(Run(Empty(key), ts)) == |RoundsOf(Empty(key), ts)|
  {
    if ts != [] {
      var front, t := ts[..|ts| - 1], ts[|ts| - 1];
      CountersAreFold(key, front);
      StepMovesRow(Run(Empty(key), front), t);
      var r := RoundOf(Run(Empty(key), front), t);
      if r.Some? {
        FoldAppend(RoundsOf(Empty(key), front), r.value);
      }
    }
  }

  lemma HealthyPairSettles(rounds: seq<Round>)
    requires rounds != [] && PairOf(rounds, |rounds| - 1, Healthy)
    ensures !LastDecisionIsRisky(rounds)
  {
    forall i: nat | PairOf(rounds, i, Risky) ensures i < |rounds| - 1 && Decides(rounds, |rounds| - 1) {}
  }

  /** Hence the risk is on exactly when the latest decisive pair of accepted rounds was risky. */
  lemma RiskMeansRiskyPair(key: Key, ts: seq<Txn>)
    ensures CountersOf(Run(Empty(key), ts)).active <==> LastDecisionIsRisky(RoundsOf(Empty(key), ts))
    ensures CountersOf(Run(Empty(key), ts)).active ==> CountersOf(Run(Empty(key), ts)).healthyCount < 2
  {
    var rounds := RoundsOf(Empty(key), ts);
    CountersAreFold(key, ts);
    HysteresisMeaning(rounds);
    CountersMeanSuffix(rounds);
    if Fold(rounds).healthyCount >= 2 {
      HealthyPairSettles(rounds);
    }
  }

  /** The slot of the last accepted run; the run row is never deleted. */
  function SlotOf(a: Aggregate): Option<Time> {
    match LastRunOf(a)
    case Some(run) => if run in a.slots then Some(a.slots[run]) else None
    case None => None
  }

  predicate SlotKnown(a: Aggregate) { LastRunOf(a).Some? ==> SlotOf(a).Some? }

  predicate SlotAtMost(x: Option<Time>, y: Option<Time>) { x.Some? ==> y.Some? && x.value <= y.value }

  /** A later accepted run belongs to a strictly later slot; a retry of the same run keeps the slot. */
  lemma StepKeepsSlotOrder(a: Aggregate, t: Txn)
    requires SlotKnown(a)
    ensures SlotKnown(Step(a, t)) && SlotAtMost(SlotOf(a), SlotOf(Step(a, t)))
    ensures LastRunOf(a).Some? && LastRunOf(Step(a, t)) != LastRunOf(a) ==> SlotOf(a).value < SlotOf(Step(a, t)).value
  {
    StepMovesRow(a, t);
  }

  /** The recorded slot never goes back. */
  lemma {:induction false} SlotNeverGoesBack(a: Aggregate, ts: seq<Txn>)
    requires SlotKnown(a)
    ensures SlotKnown(Run(a, ts)) && SlotAtMost(SlotOf(a), SlotOf(Run(a, ts)))
  {
    if ts != [] {
      SlotNeverGoesBack(a, ts[..|ts| - 1]);
      StepKeepsSlotOrder(Run(a, ts[..|ts| - 1]), ts[|ts| - 1]);
    }
  }

  /** The accepted success whose projection raised, for want of a mapping. */
  predicate RollsBack(a: Aggregate, t: Txn) {
    t.SucceedRound? && t.info.runId in a.slots &&
    var row := EnsureRow(a).risk.value;
    && IsNewest(a.slots, row, t.info.runId)
    && Apply(a.(risk := Some(RecordRound(row, t.info.runId, t.info.risky))), t.info, row.counters.active,
             t.mapping, t.pilot, t.now).None?
  }

  /** A committed success, or a failure of a run whose row exists or is inserted for it. */
  predicate Completes(a: Aggregate, t: Txn, run: Uuid) {
    run in a.slots
    && ((t.FailRound? && t.run == run && (t.upsert || a.risk.Some?))
        || (t.SucceedRound? && t.info.runId == run && !RollsBack(a, t)))
  }

  /** Transaction `i` of the run completes `run`. */
  predicate CompletedAt(key: Key, ts: seq<Txn>, i: nat, run: Uuid) {
    i < |ts| && Completes(Run(Empty(key), ts[..i]), ts[i], run)
  }

  lemma CompletionIsCounted(a: Aggregate, t: Txn, run: Uuid)
    requires Completes(a, t, run) && SlotKnown(a)
    ensures run in Step(a, t).slots && SlotAtMost(Some(Step(a, t).slots[run]), SlotOf(Step(a, t)))
  {
    StepMovesRow(a, t);
  }

  lemma {:induction false} CompletionsAreCounted(key: Key, ts: seq<Txn>, i: nat, run: Uuid)
    requires CompletedAt(key, ts, i, run)
    ensures var a := Run(Empty(key), ts); run in a.slots && SlotAtMost(Some(a.slots[run]), SlotOf(a))
  {
    var front := ts[..|ts| - 1];
    var a, t := Run(Empty(key), front), ts[|ts| - 1];
    SlotNeverGoesBack(Empty(key), front);
    if i == |front| {
      CompletionIsCounted(a, t, run);
    } else {
      assert front[..i] == ts[..i];
      CompletionsAreCounted(key, front, i, run);
      StepMovesRow(a, t);
      StepKeepsSlotOrder(a, t);
    }
  }

  lemma AcceptedCompletes(a: Aggregate, t: Txn)
    requires LastRunOf(Step(a, t)) != LastRunOf(a)
    ensures LastRunOf(Step(a, t)).Some? && Completes(a, t, LastRunOf(Step(a, t)).value)
  {
    StepMovesRow(a, t);
  }

  lemma {:induction false} LastRunCompleted(key: Key, ts: seq<Txn>) returns (i: nat)
    requires LastRunOf(Run(Empty(key), ts)).Some?
    ensures CompletedAt(key, ts, i, LastRunOf(Run(Empty(key), ts)).value)
  {
    var front := ts[..|ts| - 1];
    var a, t := Run(Empty(key), front), ts[|ts| - 1];
    if LastRunOf(Step(a, t)) == LastRunOf(a) {
      i := LastRunCompleted(key, front);
      assert front[..i] == ts[..i];
    } else {
      AcceptedCompletes(a, t);
      i := |front|;
    }
  }

  /**
    Whatever the order of completions, the row ends at the newest slot among them: its last run is one of those that
    completed, and no completed run has a later slot.
   */
  lemma NewestRoundWins(key: Key, ts: seq<Txn>)
    ensures var a := Run(Empty(key), ts);
            && (forall i: nat, run :: CompletedAt(key, ts, i, run) ==>
                  run in a.slots && SlotOf(a).Some? && a.slots[run] <= SlotOf(a).value)
            && (SlotOf(a).Some? ==> exists i: nat :: CompletedAt(key, ts, i, LastRunOf(a).value))
  {
    var a := Run(Empty(key), ts);
    forall i: nat, run | CompletedAt(key, ts, i, run)
      ensures run in a.slots && SlotOf(a).Some? && a.slots[run] <= SlotOf(a).value
    {
      CompletionsAreCounted(key, ts, i, run);
    }
    if SlotOf(a).Some? {
      var i := LastRunCompleted(key, ts);
    }
  }
}
