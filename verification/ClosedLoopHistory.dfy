/** Theorems of the closed loop that count or compare points of one run. */
module ClosedLoopHistory {
  import opened Basics
  import opened RiskStates
  import opened ClosedLoop
  import opened ClosedLoopInvariant
  import opened ClosedLoopEvolution
  import opened ClosedLoopTheorems

  // ---------------------------------------------------------------- episodes

  predicate IsRising(a: Aggregate, t: Txn) { !RiskOn(a) && RiskOn(Step(a, t)) }

  predicate RiskOn(a: Aggregate) { a.risk.Some? && a.risk.value.counters.active }

  /** How often the run switched the internal risk on. */
  function RisingEdges(a: Aggregate, ts: seq<Txn>): nat {
    if ts == [] then 0
    else
      var front := ts[..|ts| - 1];
      RisingEdges(a, front) + (if IsRising(Run(a, front), ts[|ts| - 1]) then 1 else 0)
  }

  /** Only a succeeded round can open an episode; nothing else adds an alert or switches the risk on. */
  lemma QuietStep(a: Aggregate, t: Txn)
    requires !t.SucceedRound?
    ensures |Step(a, t).alerts| == |a.alerts| && (RiskOn(Step(a, t)) ==> RiskOn(a))
  {
    if t.Create? || t.Close? {
      QuietAction(a, t);
    } else if t.SaveOrder? || t.FinishPoll? {
      QuietFollow(a, t);
    }
  }

  lemma QuietAction(a: Aggregate, t: Txn)
    requires t.Create? || t.Close?
    ensures |Step(a, t).alerts| == |a.alerts| && (RiskOn(Step(a, t)) ==> RiskOn(a))
  {}

  lemma QuietFollow(a: Aggregate, t: Txn)
    requires t.SaveOrder? || t.FinishPoll?
    ensures |Step(a, t).alerts| == |a.alerts| && (RiskOn(Step(a, t)) ==> RiskOn(a))
  {}

  lemma ApplyEdges(a: Aggregate, row: RiskRow, run: RunInfo, mapping: Option<Mapping>, pilot: Option<Uuid>, now: Time)
    requires a.risk.Some? && row.alertId == a.risk.value.alertId
    requires RiskOn(a) ==> a.alerts != [] && a.risk.value.alertId == Some(|a.alerts| - 1)
    ensures var r := Apply(a.(risk := Some(row)), run, RiskOn(a), mapping, pilot, now);
            r.Some? ==>
              && RiskOn(r.value) == row.counters.active
              && |r.value.alerts| == |a.alerts| + (if !RiskOn(a) && RiskOn(r.value) then 1 else 0)
  {}

  lemma RoundEdges(a: Aggregate, run: RunInfo, mapping: Option<Mapping>, pilot: Option<Uuid>, now: Time)
    requires run.runId in a.slots && (RiskOn(a) ==> a.alerts != [] && a.risk.value.alertId == Some(|a.alerts| - 1))
    ensures var b := RoundSucceeded(a, run, mapping, pilot, now);
            |b.alerts| == |a.alerts| + (if !RiskOn(a) && RiskOn(b) then 1 else 0)
  {
    var b := EnsureRow(a);
    var row := b.risk.value;
    if IsNewest(b.slots, row, run.runId) {
      ApplyEdges(b, RecordRound(row, run.runId, run.risky), run, mapping, pilot, now);
    }
  }

  lemma StepEdges(a: Aggregate, t: Txn)
    requires Inv(a)
    ensures |Step(a, t).alerts| == |a.alerts| + (if IsRising(a, t) then 1 else 0)
  {
    if t.SucceedRound? && Enabled(a, t) {
      RoundEdges(a, t.info, t.mapping, t.pilot, t.now);
    } else if !t.SucceedRound? {
      QuietStep(a, t);
    }
  }

  lemma {:induction false} EdgesOpenAlerts(a: Aggregate, ts: seq<Txn>)
    requires Inv(a)
    ensures |Run(a, ts).alerts| == |a.alerts| + RisingEdges(a, ts)
  {
    if ts != [] {
      EdgesOpenAlerts(a, ts[..|ts| - 1]);
      RunKeepsInv(a, ts[..|ts| - 1]);
      StepEdges(Run(a, ts[..|ts| - 1]), ts[|ts| - 1]);
    }
  }

  /** Alerts are numbered from 1 without gaps; the one active alert is the row's own, while the risk is on. */
  ghost predicate EpisodesMatch(a: Aggregate) {
    forall i :: 0 <= i < |a.alerts| ==>
      && a.alerts[i].episode == i + 1
      && (a.alerts[i].phase.RiskActive? <==> RiskOn(a) && a.risk.value.alertId == Some(i))
  }

  lemma InvEpisodesMatch(a: Aggregate)
    requires Inv(a)
    ensures EpisodesMatch(a)
  {}

  /** One episode per rising edge of the internal risk, numbered 1 to k; only the row's own alert can be active. */
  lemma OneEpisodePerRise(key: Key, ts: seq<Txn>)
    ensures |Run(Empty(key), ts).alerts| == RisingEdges(Empty(key), ts)
    ensures EpisodesMatch(Run(Empty(key), ts))
  {
    EmptyInv(key);
    RunKeepsInv(Empty(key), ts);
    EdgesOpenAlerts(Empty(key), ts);
    InvEpisodesMatch(Run(Empty(key), ts));
  }

  /** A closed alert stays as it was closed. */
  lemma ClosedStaysClosed(key: Key, before: seq<Txn>, after: seq<Txn>, i: nat)
    requires var a := Run(Empty(key), before); i < |a.alerts| && !a.alerts[i].phase.RiskActive?
    ensures var a, b := Run(Empty(key), before), Run(Empty(key), before + after);
            i < |b.alerts| && b.alerts[i].phase == a.alerts[i].phase
  {
    EmptyInv(key);
    RunKeepsInv(Empty(key), before);
    RunGrows(Run(Empty(key), before), after);
    RunSplits(Empty(key), before, after);
  }

  ghost predicate IsFreshAlert(a: Aggregate, alert: Alert, run: RunInfo, pilot: Option<Uuid>, alarm: AlarmView, asset: Mapping) {
    && alert.episode == |a.alerts| + 1 && alert.version == 1 && alert.phase.RiskActive?
    && alert.runId == run.runId && alert.provenance == run.provenance && alert.forecast == run.forecast
    && (ActionableError(alert, alarm, asset).None? <==> pilot == Some(a.key.equipmentId) && !HasOpenOrder(a))
    && (alert.maintenance.SuppressedActiveWorkOrder? <==> HasOpenOrder(a))
  }

  lemma NewAlertIsFresh(a: Aggregate, risk: Option<RiskRow>, run: RunInfo, pilot: Option<Uuid>, alarm: AlarmView, asset: Mapping)
    requires EpisodesOk(a.alerts) && alarm.statusActive && asset.assetId.Some?
    ensures IsFreshAlert(a, NewAlert(a.(risk := risk), run, pilot), run, pilot, alarm, asset)
  {
    MaxEpisodeIsCount(a.alerts);
    assert HasOpenOrder(a.(risk := risk)) <==> HasOpenOrder(a);
  }

  lemma RiseAppends(a: Aggregate, run: RunInfo, mapping: Option<Mapping>, pilot: Option<Uuid>, now: Time)
    requires run.runId in a.slots && !RiskOn(a) && RiskOn(RoundSucceeded(a, run, mapping, pilot, now))
    ensures var row := RecordRound(EnsureRow(a).risk.value, run.runId, run.risky);
            RoundSucceeded(a, run, mapping, pilot, now).alerts == a.alerts + [NewAlert(a.(risk := Some(row)), run, pilot)]
  {}

  /**
    A round that switches the risk on opens an episode about its own run, and that episode may be acted on exactly when
    the equipment is the pilot and no work order of the risk key is open.
   */
  lemma NewEpisodeIsActionable(a: Aggregate, run: RunInfo, mapping: Option<Mapping>, pilot: Option<Uuid>, now: Time,
                               alarm: AlarmView, asset: Mapping)
    requires EpisodesOk(a.alerts) && run.runId in a.slots && alarm.statusActive && asset.assetId.Some?
    requires !RiskOn(a) && RiskOn(RoundSucceeded(a, run, mapping, pilot, now))
    ensures var alerts := RoundSucceeded(a, run, mapping, pilot, now).alerts;
            && |alerts| == |a.alerts| + 1 && alerts[..|a.alerts|] == a.alerts
            && IsFreshAlert(a, alerts[|a.alerts|], run, pilot, alarm, asset)
  {
    var row := RecordRound(EnsureRow(a).risk.value, run.runId, run.risky);
    RiseAppends(a, run, mapping, pilot, now);
    NewAlertIsFresh(a, Some(row), run, pilot, alarm, asset);
  }

  // ---------------------------------------------------------------- operator actions

  function OutcomeOf(a: Aggregate, call: ActionCall): ActionOutcome {
    if call.key.kind.CreateAction? then CreateWorkOrder(a, call) else CloseRisk(a, call)
  }

  predicate Accepts(a: Aggregate, call: ActionCall) {
    var o := OutcomeOf(a, call);
    o.reply.Ok? && !o.reply.value.replayed
  }

  /** An accepted action is on record afterwards, with the reply the caller got. */
  lemma AcceptedIsRecorded(a: Aggregate, call: ActionCall)
    requires Accepts(a, call)
    ensures var o := OutcomeOf(a, call);
            && call.key !in a.actions
            && call.key in o.after.actions
            && o.after.actions[call.key] ==
               ActionRow(call.auth.userId, call.requestDigest, call.expectedVersion, o.reply.value.result)
  {}

  /**
    Once a create or close of an alert was accepted, every later call with its key changes nothing: it replays the
    stored result to the same actor with the same request and is a conflict for anyone else.
   */
  lemma RepeatedActionReplays(key: Key, before: seq<Txn>, first: ActionCall, after: seq<Txn>, again: ActionCall)
    requires Accepts(Run(Empty(key), before), first)
    requires again.key == first.key && again.key.alertId == again.auth.alertId
    requires again.key.kind.CloseAction? ==> ReasonGiven(again.reason)
    ensures var o := OutcomeOf(Run(Empty(key), before), first);
            var b := Run(o.after, after);
            OutcomeOf(b, again) ==
              if again.requestDigest == first.requestDigest && again.auth.userId == first.auth.userId
              then ActionOutcome(b, Ok(Reply(o.reply.value.result, true)))
              else ActionOutcome(b, Err(IdempotencyConflict))
  {
    var a := Run(Empty(key), before);
    var o := OutcomeOf(a, first);
    EmptyInv(key);
    RunKeepsInv(Empty(key), before);
    AcceptedIsRecorded(a, first);
    assert Inv(o.after) by { OutcomeKeepsInv(a, first); }
    RunKeepsInv(o.after, after);
    RunGrows(o.after, after);
    RecordedReplays(o.after, Run(o.after, after), again);
  }

  lemma OutcomeKeepsInv(a: Aggregate, call: ActionCall)
    requires Inv(a)
    ensures Inv(OutcomeOf(a, call).after)
  {
    CreateKeepsInv(a, call);
    CloseKeepsInv(a, call);
  }

  lemma RecordedReplays(a: Aggregate, b: Aggregate, call: ActionCall)
    requires call.key in a.actions && Grows(a, b) && Inv(b)
    requires call.key.alertId == call.auth.alertId && (call.key.kind.CloseAction? ==> ReasonGiven(call.reason))
    ensures OutcomeOf(b, call) ==
              if call.requestDigest == a.actions[call.key].requestDigest && call.auth.userId == a.actions[call.key].actorId
              then ActionOutcome(b, Ok(Reply(a.actions[call.key].result, true)))
              else ActionOutcome(b, Err(IdempotencyConflict))
  {
    assert call.key in b.actions && b.actions[call.key] == a.actions[call.key];
  }

  // ---------------------------------------------------------------- approved is what is sent

  /**
    If an accepted create confirmed the hash a preview showed, then the alert had not moved since the preview and
    the stored body is, and stays in every later state, the body that was previewed.
   */
  lemma ApprovedIsStored(shown: Aggregate, auth: Authorized, tenant: Tenant, mapping: Mapping,
                         a: Aggregate, call: ActionCall, after: seq<Txn>)
    requires Preview(shown, auth, tenant, mapping) == Ok(call.confirmed)
    requires Inv(a) && call.key.kind.CreateAction? && Accepts(a, call)
    ensures auth.alertId < |shown.alerts| && mapping.assetId.Some? && call.tenant.Some? && call.mapping.Some?
    ensures call.auth.alertId == auth.alertId && call.auth.userId == auth.userId
    ensures call.tenant == Some(tenant.(enabled := call.tenant.value.enabled)) && call.mapping.value.assetId == mapping.assetId
    ensures auth.alertId < |a.alerts| && a.alerts[auth.alertId].version == shown.alerts[auth.alertId].version
    ensures var b := Run(CreateWorkOrder(a, call).after, after);
            && auth.alertId in b.workOrders
            && b.workOrders[auth.alertId].body ==
               RequestOf(shown.key, auth.alertId, shown.alerts[auth.alertId], auth.alarm, mapping)
  {
    var id := auth.alertId;
    AcceptedBody(shown, auth, tenant, mapping, a, call);
    CreateKeepsInv(a, call);
    RunGrows(CreateWorkOrder(a, call).after, after);
  }

  lemma AcceptedBody(shown: Aggregate, auth: Authorized, tenant: Tenant, mapping: Mapping, a: Aggregate, call: ActionCall)
    requires Preview(shown, auth, tenant, mapping) == Ok(call.confirmed)
    requires call.key.kind.CreateAction? && Accepts(a, call)
    ensures auth.alertId < |shown.alerts| && mapping.assetId.Some? && call.tenant.Some? && call.mapping.Some?
    ensures call.auth.alertId == auth.alertId && call.auth.userId == auth.userId
    ensures call.tenant == Some(tenant.(enabled := call.tenant.value.enabled)) && call.mapping.value.assetId == mapping.assetId
    ensures auth.alertId < |a.alerts| && a.alerts[auth.alertId].version == shown.alerts[auth.alertId].version
    ensures var b := CreateWorkOrder(a, call).after;
            && auth.alertId in b.workOrders
            && b.workOrders[auth.alertId].body ==
               RequestOf(shown.key, auth.alertId, shown.alerts[auth.alertId], auth.alarm, mapping)
  {
    assert call.confirmed == Sha256(PlanOf(shown.key, auth, shown.alerts[auth.alertId], tenant, mapping));
    var plan := PlanOf(a.key, call.auth, a.alerts[call.auth.alertId], call.tenant.value, call.mapping.value);
    assert call.confirmed == Sha256(plan);
    assert CreateWorkOrder(a, call).after.workOrders == AcceptCreate(a, call).workOrders;
  }

  // ---------------------------------------------------------------- bounded delivery

  function AttemptOf(a: Aggregate, i: nat): nat {
    if i < |a.outbox| then a.outbox[i].attempt else 0
  }

  predicate ClaimsEvent(a: Aggregate, t: Txn, i: nat) {
    t.Claim? && t.pick == i && i < |a.outbox| && Claimable(ExpireEvent(a.outbox[i], t.kind, t.now), t.kind, t.now)
  }

  function ClaimsOf(a: Aggregate, ts: seq<Txn>, i: nat): nat {
    if ts == [] then 0
    else
      var front := ts[..|ts| - 1];
      ClaimsOf(a, front, i) + (if ClaimsEvent(Run(a, front), ts[|ts| - 1], i) then 1 else 0)
  }

  /** Without a claim or its end an event stays as it is, unless it is a waiting alarm event that gets superseded. */
  ghost predicate EventRests(x: Event, y: Event) {
    && y.attempt == x.attempt && y.kind == x.kind
    && (y == x || (x.kind.AlarmSync? && IsWaiting(x) && y.status.Superseded?))
  }

  ghost predicate OutboxRests(x: seq<Event>, y: seq<Event>) {
    && |x| <= |y|
    && (forall i :: 0 <= i < |x| ==> EventRests(x[i], y[i]))
    && (forall i :: |x| <= i < |y| ==> y[i].attempt == 0 && y[i].status.Pending?)
  }

  lemma RequeueRests(a: Aggregate, p: Projection, ids: set<Uuid>, now: Time)
    requires a.risk.Some? && p.alertId < |a.alerts|
    ensures OutboxRests(a.outbox, Requeue(a, p, ids, now).outbox)
  {
    var b := Requeue(a, p, ids, now);
    forall i | 0 <= i < |a.outbox| ensures EventRests(a.outbox[i], b.outbox[i]) {
      assert b.outbox[i] == SupersedeEvent(a.outbox[i], ids);
    }
  }

  lemma ReplaceRests(a: Aggregate, id: Uuid, deviceId: Uuid, desired: bool, now: Time)
    requires a.risk.Some? && id < |a.alerts|
    ensures OutboxRests(a.outbox, ReplaceProjection(a, id, deviceId, desired, now).outbox)
  {
    var blank := Projection(id, deviceId, None, desired, 0, DetailsOf(a.key, id, a.alerts[id], a.workOrders));
    match a.projection
    case None => RequeueRests(a, blank, {id}, now);
    case Some(p) =>
      if p.alertId == id {
        RequeueRests(a, p.(desiredActive := desired), {id}, now);
      } else {
        RequeueRests(a, blank, {id, p.alertId}, now);
      }
  }

  lemma RoundRests(a: Aggregate, run: RunInfo, mapping: Option<Mapping>, pilot: Option<Uuid>, now: Time)
    requires run.runId in a.slots
    ensures OutboxRests(a.outbox, RoundSucceeded(a, run, mapping, pilot, now).outbox)
  {
    var b := EnsureRow(a);
    var row := RecordRound(b.risk.value, run.runId, run.risky);
    var c := b.(risk := Some(row));
    var active := row.counters.active;
    if IsNewest(b.slots, b.risk.value, run.runId) && mapping.Some? {
      if active && !b.risk.value.counters.active {
        ReplaceRests(OpenEpisode(c, run, pilot), |a.alerts|, mapping.value.deviceId, active, now);
      } else if row.alertId.Some? && row.alertId.value < |a.alerts| {
        var id := row.alertId.value;
        ReplaceRests(RefreshAlert(c, id, run, active), id, mapping.value.deviceId, active, now);
      }
    }
  }

  lemma CreateRests(a: Aggregate, call: ActionCall)
    ensures OutboxRests(a.outbox, CreateWorkOrder(a, call).after.outbox)
  {
    var o := CreateWorkOrder(a, call);
    if o.reply.Ok? && !o.reply.value.replayed {
      var b, id := AcceptCreate(a, call), call.auth.alertId;
      RequeueRests(b, b.projection.value.(desiredActive := b.alerts[id].phase.RiskActive?), {id}, call.now);
      forall i | 0 <= i < |a.outbox| ensures EventRests(a.outbox[i], o.after.outbox[i]) {
        assert b.outbox[i] == a.outbox[i];
        assert EventRests(b.outbox[i], o.after.outbox[i]);
      }
      assert EventRests(b.outbox[|a.outbox|], o.after.outbox[|a.outbox|]);
    }
  }

  lemma CloseRests(a: Aggregate, call: ActionCall)
    ensures OutboxRests(a.outbox, CloseRisk(a, call).after.outbox)
  {
    var o := CloseRisk(a, call);
    if o.reply.Ok? && !o.reply.value.replayed {
      var b, id := AcceptClose(a, call), call.auth.alertId;
      RequeueRests(b, b.projection.value.(desiredActive := b.alerts[id].phase.RiskActive?), {id}, call.now);
    }
  }

  lemma FollowRests(a: Aggregate, id: Uuid, wo: WorkOrder, now: Time)
    requires a.risk.Some? && id < |a.alerts|
    ensures OutboxRests(a.outbox, FollowOrder(a, id, wo, now).outbox)
  {
    var b := Followed(a, id, wo);
    if HasProjection(b, id) {
      RequeueRests(b, b.projection.value, {id}, now);
    }
  }

  /** The delivered create command aside, saving a creation leaves the queue like any other transaction. */
  lemma SaveCreatedRests(a: Aggregate, event: nat, owner: string, reply: CmmsReply, now: Time)
    ensures var r := SaveCreated(a, event, owner, reply, now);
            || r == a
            || (event < |a.outbox| && a.outbox[event].status.InFlight?
                && OutboxRests(a.outbox[event := a.outbox[event].(status := Delivered, owner := None, expires := None)],
                               r.outbox))
  {
    if Holds(a, event, owner) && a.outbox[event].alertId in a.workOrders && a.outbox[event].alertId < |a.alerts|
       && a.risk.Some? && MaintenanceOf(reply.status).Some?
    {
      var id := a.outbox[event].alertId;
      var m := MaintenanceOf(reply.status).value;
      var wo := a.workOrders[id].(cmmsId := Some(reply.id), status := Some(reply.status),
                                  eventVersion := Some(reply.eventVersion), updatedAt := Some(reply.updatedAt),
                                  maintenance := m, nextPollAt := NextPoll(m, now));
      FollowRests(SetEvent(a, event, a.outbox[event].(status := Delivered, owner := None, expires := None)), id, wo, now);
    }
  }

  lemma PollRests(a: Aggregate, id: Uuid, owner: string, reply: CmmsReply, now: Time)
    ensures OutboxRests(a.outbox, ApplyStatus(a, id, owner, reply, now).outbox)
  {
    if PollDecision(a, id, owner, reply).Applied? {
      var m := MaintenanceOf(reply.status).value;
      FollowRests(a, id,
                  a.workOrders[id].(pollOwner := None, pollExpires := None,
                                    eventVersion := Some(reply.eventVersion), status := Some(reply.status),
                                    updatedAt := Some(reply.updatedAt), maintenance := m, nextPollAt := NextPoll(m, now)),
                  now);
    }
  }

  /** The transactions with which a delivery worker ends its claim without touching anything else. */
  predicate EndsClaim(t: Txn) { t.Discard? || t.MarkCleared? || t.Retry? || t.GiveUp? || t.SaveAlarm? }

  lemma StepRests(a: Aggregate, t: Txn)
    requires !t.Claim? && !EndsClaim(t) && !t.SaveOrder?
    ensures OutboxRests(a.outbox, Step(a, t).outbox)
  {
    if Enabled(a, t) {
      match t
      case SucceedRound(info, mapping, pilot, now) => RoundRests(a, info, mapping, pilot, now);
      case Create(call) => CreateRests(a, call);
      case Close(call) => CloseRests(a, call);
      case FinishPoll(id, owner, reply, now) => PollRests(a, id, owner, reply, now);
      case _ =>
    }
  }

  /** Saving a creation delivers its command and leaves every other event to `EventRests`. */
  lemma SaveRests(a: Aggregate, t: Txn, i: nat)
    requires t.SaveOrder? && i < |a.outbox|
    ensures var b := Step(a, t);
            && |a.outbox| <= |b.outbox|
            && (forall j :: |a.outbox| <= j < |b.outbox| ==> b.outbox[j].attempt == 0 && b.outbox[j].status.Pending?)
            && (EventRests(a.outbox[i], b.outbox[i])
                || (i == t.event && IsCreateEvent(a, i) && a.outbox[i].status.InFlight?
                    && b.outbox[i] == a.outbox[i].(status := Delivered, owner := None, expires := None)))
  {
    var b := Step(a, t);
    if Enabled(a, t) {
      SaveCreatedRests(a, t.event, t.owner, t.reply, t.now);
      if b != a {
        var done := a.outbox[t.event].(status := Delivered, owner := None, expires := None);
        assert EventRests(a.outbox[t.event := done][i], b.outbox[i]);
      }
    }
  }

  /** Ending a claim only moves the claimed event, and only out of flight. */
  lemma EndedClaim(a: Aggregate, t: Txn, i: nat)
    requires EndsClaim(t) && i < |a.outbox|
    ensures var b := Step(a, t);
            && |b.outbox| == |a.outbox|
            && b.outbox[i].attempt == a.outbox[i].attempt
            && (b.outbox[i] == a.outbox[i] || (i == t.event && a.outbox[i].status.InFlight?))
  {}

  lemma StepAttempts(a: Aggregate, t: Txn, i: nat)
    ensures AttemptOf(Step(a, t), i) == AttemptOf(a, i) + (if ClaimsEvent(a, t, i) then 1 else 0)
    ensures |a.outbox| <= |Step(a, t).outbox|
  {
    if t.Claim? {
      var outbox := ExpireLeases(a.outbox, t.kind, t.now);
      if i < |a.outbox| {
        assert outbox[i] == ExpireEvent(a.outbox[i], t.kind, t.now);
      }
    } else if EndsClaim(t) {
      if i < |a.outbox| {
        EndedClaim(a, t, i);
      }
    } else if t.SaveOrder? {
      SavedAttempts(a, t, i);
    } else {
      StepRests(a, t);
      if i < |a.outbox| {
        assert EventRests(a.outbox[i], Step(a, t).outbox[i]);
      }
    }
  }

  lemma SavedAttempts(a: Aggregate, t: Txn, i: nat)
    requires t.SaveOrder?
    ensures AttemptOf(Step(a, t), i) == AttemptOf(a, i) && |a.outbox| <= |Step(a, t).outbox|
  {
    if i < |a.outbox| {
      SaveRests(a, t, i);
    } else if Enabled(a, t) {
      SaveRests(a, t, t.event);
    }
  }

  /** An event's attempt counter is exactly how often it was claimed, and no event is claimed more than eight times. */
  lemma {:induction false} ClaimsAreBounded(key: Key, ts: seq<Txn>, i: nat)
    ensures ClaimsOf(Empty(key), ts, i) == AttemptOf(Run(Empty(key), ts), i) <= MAX_ATTEMPTS
  {
    EmptyInv(key);
    RunKeepsInv(Empty(key), ts);
    if ts != [] {
      ClaimsAreBounded(key, ts[..|ts| - 1], i);
      StepAttempts(Run(Empty(key), ts[..|ts| - 1]), ts[|ts| - 1], i);
    }
    if i < |Run(Empty(key), ts).outbox| {
      assert LeaseOk(Run(Empty(key), ts).outbox[i]);
    }
  }

  /**
    Not every event ends: an event whose eighth lease expired waits for a retry that no claim can start, and only
    a newer alarm event can still retire it.
   */
  lemma {:induction false} ExhaustedEventIsStuck(a: Aggregate, ts: seq<Txn>, i: nat)
    requires i < |a.outbox| && a.outbox[i].status.RetryWait? && a.outbox[i].attempt >= MAX_ATTEMPTS
    ensures var b := Run(a, ts);
            i < |b.outbox| && (b.outbox[i] == a.outbox[i] || (a.outbox[i].kind.AlarmSync? && b.outbox[i].status.Superseded?))
  {
    if ts != [] {
      var front, t := ts[..|ts| - 1], ts[|ts| - 1];
      var b := Run(a, front);
      ExhaustedEventIsStuck(a, front, i);
      SettledStays(b, t, i);
    }
  }

  lemma SettledStays(b: Aggregate, t: Txn, i: nat)
    requires i < |b.outbox|
    requires (b.outbox[i].status.RetryWait? && b.outbox[i].attempt >= MAX_ATTEMPTS) || b.outbox[i].status.Superseded?
    ensures var c := Step(b, t);
            i < |c.outbox| && (c.outbox[i] == b.outbox[i] || (b.outbox[i].kind.AlarmSync? && c.outbox[i].status.Superseded?))
  {
    if t.Claim? {
      assert ExpireLeases(b.outbox, t.kind, t.now)[i] == ExpireEvent(b.outbox[i], t.kind, t.now);
    } else if EndsClaim(t) {
      EndedClaim(b, t, i);
    } else if t.SaveOrder? {
      SaveRests(b, t, i);
    } else {
      StepRests(b, t);
      assert EventRests(b.outbox[i], Step(b, t).outbox[i]);
    }
  }

  lemma BackoffRange(n: nat)
    requires 1 <= n < MAX_ATTEMPTS
    ensures 2 <= Pow2(n) <= 128 && Min(300, Pow2(Min(n, 8))) == Pow2(n)
  {
    assert Pow2(1) == 2 && Pow2(2) == 4 && Pow2(3) == 8 && Pow2(4) == 16 && Pow2(5) == 32 && Pow2(6) == 64 && Pow2(7) == 128;
  }

  /** A retry waits 2, 4, ... up to 128 seconds: the cap of 300 seconds is never reached before the dead letter. */
  lemma BackoffIsNeverCapped(a: Aggregate, event: nat, owner: string, now: Time)
    requires Inv(a) && Holds(a, event, owner) && a.outbox[event].attempt >= 1
    ensures var e, f := a.outbox[event], RetryEvent(a, event, owner, now).outbox[event];
            if e.attempt == MAX_ATTEMPTS then f.status.DeadLetter?
            else f.status.RetryWait? && f.availableAt == now + Pow2(e.attempt) && 2 <= Pow2(e.attempt) <= 128
  {
    assert LeaseOk(a.outbox[event]);
    if a.outbox[event].attempt < MAX_ATTEMPTS {
      BackoffRange(a.outbox[event].attempt);
    }
  }

  /** An abandoned claim can be taken again exactly when its thirty seconds are over and an attempt is left. */
  lemma AbandonedClaimReturns(a: Aggregate, kind: EventKind, pick: nat, owner: string, now: Time, later: Time)
    requires pick < |a.outbox| && Claimable(ExpireEvent(a.outbox[pick], kind, now), kind, now)
    ensures var e := ClaimOutbox(a, kind, pick, owner, now).outbox[pick];
            && e.status.InFlight? && e.owner == Some(owner)
            && (Claimable(ExpireEvent(e, kind, later), kind, later) <==> later > now + 30 && e.attempt < MAX_ATTEMPTS)
  {
    assert ExpireLeases(a.outbox, kind, now)[pick] == ExpireEvent(a.outbox[pick], kind, now);
  }
}
