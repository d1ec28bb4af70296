/** What never goes back: the closed loop's history over every run. */
module ClosedLoopEvolution {
  import opened Basics
  import opened RiskStates
  import opened ClosedLoop
  import opened ClosedLoopInvariant

  // ---------------------------------------------------------------- the order on states

  predicate IsTerminal(s: EventStatus) { s.Delivered? || s.Superseded? || s.DeadLetter? }

  ghost predicate AlertGrows(x: Alert, y: Alert) {
    && y.episode == x.episode
    && y.provenance == x.provenance
    && x.version <= y.version
    && (y.version == x.version ==> y == x)
    && (!x.phase.RiskActive? ==> y.phase == x.phase)
  }

  ghost predicate OrderGrows(x: WorkOrder, y: WorkOrder) {
    && y.body == x.body
    && (x.cmmsId.Some? ==> y.cmmsId == x.cmmsId)
    && (x.eventVersion.Some? ==> y.eventVersion.Some? && x.eventVersion.value <= y.eventVersion.value)
    && (x.eventVersion.Some? && y.eventVersion == x.eventVersion ==> y.status == x.status)
    && (x.maintenance.WorkOrderComplete? ==> y == x)
  }

  ghost predicate EventGrows(x: Event, y: Event) {
    && y.kind == x.kind && y.alertId == x.alertId && y.version == x.version
    && x.attempt <= y.attempt
    && (IsTerminal(x.status) ==> y == x)
  }

  ghost predicate AlertsGrow(x: seq<Alert>, y: seq<Alert>) {
    |x| <= |y| && forall i :: 0 <= i < |x| ==> AlertGrows(x[i], y[i])
  }

  ghost predicate OrdersGrow(x: map<Uuid, WorkOrder>, y: map<Uuid, WorkOrder>) {
    forall id :: id in x ==> id in y && OrderGrows(x[id], y[id])
  }

  ghost predicate EventsGrow(x: seq<Event>, y: seq<Event>) {
    |x| <= |y| && forall i :: 0 <= i < |x| ==> EventGrows(x[i], y[i])
  }

  ghost predicate ActionsGrow(x: map<ActionKey, ActionRow>, y: map<ActionKey, ActionRow>) {
    forall k :: k in x ==> k in y && y[k] == x[k]
  }

  /** `b` may come after `a`. */
  ghost predicate Grows(a: Aggregate, b: Aggregate) {
    && b.key == a.key
    && AlertsGrow(a.alerts, b.alerts)
    && OrdersGrow(a.workOrders, b.workOrders)
    && EventsGrow(a.outbox, b.outbox)
    && ActionsGrow(a.actions, b.actions)
    && AlarmVersion(a) <= AlarmVersion(b)
  }

  lemma GrowsReflexive(a: Aggregate)
    ensures Grows(a, a)
  {}

  lemma GrowsTransitive(a: Aggregate, b: Aggregate, c: Aggregate)
    requires Grows(a, b) && Grows(b, c)
    ensures Grows(a, c)
  {
    assert AlertsGrow(a.alerts, c.alerts);
    assert OrdersGrow(a.workOrders, c.workOrders);
    assert EventsGrow(a.outbox, c.outbox);
  }

  // ---------------------------------------------------------------- each transaction

  lemma RequeueGrows(a: Aggregate, p: Projection, ids: set<Uuid>, now: Time)
    requires HeadOk(a, p)
    ensures Grows(a, Requeue(a, p, ids, now))
  {
    var b := Requeue(a, p, ids, now);
    RequeueCache(a, p, ids, now);
    forall i | 0 <= i < |a.outbox| ensures EventGrows(a.outbox[i], b.outbox[i]) {
      assert b.outbox[i] == SupersedeEvent(a.outbox[i], ids);
    }
  }

  lemma RefreshGrows(a: Aggregate, run: RunInfo, row: RiskRow)
    requires a.risk.Some? && a.alerts != [] && row.alarmVersion == a.risk.value.alarmVersion
    requires a.alerts[|a.alerts| - 1].phase.RiskActive?
    ensures Grows(a, RefreshAlert(a.(risk := Some(row)), |a.alerts| - 1, run, row.counters.active))
  {}

  lemma ContinuedGrows(a: Aggregate, run: RunInfo, row: RiskRow, mapping: Mapping, pilot: Option<Uuid>, now: Time)
    requires Inv(a) && a.risk.Some? && a.risk.value.counters.active
    requires row.alertId == a.risk.value.alertId && row.alarmVersion == a.risk.value.alarmVersion
    ensures var r := Apply(a.(risk := Some(row)), run, true, Some(mapping), pilot, now);
            r.Some? && Grows(a, r.value)
  {
    var active, id := row.counters.active, |a.alerts| - 1;
    assert a.alerts != [] && row.alertId == Some(id) && HasProjection(a, id);
    ContinuedEpisodeShape(a.(risk := Some(row)), run, mapping, pilot, now);
    ContinuedEpisodeReady(a, run, row);
    var b := RefreshAlert(a.(risk := Some(row)), id, run, active);
    RefreshGrows(a, run, row);
    var p := a.projection.value.(desiredActive := active);
    RequeueGrows(b, p, {id}, now);
    GrowsTransitive(a, b, Requeue(b, p, {id}, now));
  }

  lemma OpenGrows(a: Aggregate, run: RunInfo, row: RiskRow, pilot: Option<Uuid>)
    requires a.risk.Some? && row.alarmVersion == a.risk.value.alarmVersion
    ensures Grows(a, OpenEpisode(a.(risk := Some(row)), run, pilot))
  {}

  lemma OpenedGrows(a: Aggregate, run: RunInfo, row: RiskRow, mapping: Mapping, pilot: Option<Uuid>, now: Time)
    requires Inv(a) && a.risk.Some? && !a.risk.value.counters.active && row.counters.active
    requires row.alertId == a.risk.value.alertId && row.alarmVersion == a.risk.value.alarmVersion
    ensures var b := OpenEpisode(a.(risk := Some(row)), run, pilot);
            Grows(a, ReplaceProjection(b, |a.alerts|, mapping.deviceId, true, now))
  {
    var id := |a.alerts|;
    var c := a.(risk := Some(row));
    var b := OpenEpisode(c, run, pilot);
    var ids: set<Uuid> := if id > 0 then {id, id - 1} else {id};
    var p := FreshProjection(b, id, mapping.deviceId);
    InactiveAlerts(a);
    OpenGrows(a, run, row, pilot);
    OpenedEpisodeReady(c, run, mapping.deviceId, pilot, ids);
    OpenedEpisodeShape(b, id, mapping.deviceId, now);
    RequeueGrows(b, p, ids, now);
    GrowsTransitive(a, b, Requeue(b, p, ids, now));
  }

  lemma AppliedRoundGrows(a: Aggregate, run: RunInfo, row: RiskRow, mapping: Option<Mapping>, pilot: Option<Uuid>,
                          now: Time)
    requires Inv(a) && a.risk.Some?
    requires row.alertId == a.risk.value.alertId && row.alarmVersion == a.risk.value.alarmVersion
    ensures var r := Apply(a.(risk := Some(row)), run, a.risk.value.counters.active, mapping, pilot, now);
            r.Some? ==> Grows(a, r.value)
  {
    var wasActive := a.risk.value.counters.active;
    if mapping.None? || (!row.counters.active && !wasActive) {
    } else if !wasActive {
      OpenedGrows(a, run, row, mapping.value, pilot, now);
    } else {
      ContinuedGrows(a, run, row, mapping.value, pilot, now);
    }
  }

  lemma EnsureRowGrows(a: Aggregate)
    ensures Grows(a, EnsureRow(a))
  {}

  lemma RoundGrows(a: Aggregate, run: RunInfo, mapping: Option<Mapping>, pilot: Option<Uuid>, now: Time)
    requires Inv(a) && run.runId in a.slots
    ensures Grows(a, RoundSucceeded(a, run, mapping, pilot, now))
  {
    var b := EnsureRow(a);
    EnsureRowKeepsInv(a);
    EnsureRowGrows(a);
    GrowsReflexive(a);
    if IsNewest(b.slots, b.risk.value, run.runId) {
      var row := RecordRound(b.risk.value, run.runId, run.risky);
      AppliedRoundGrows(b, run, row, mapping, pilot, now);
      var r := Apply(b.(risk := Some(row)), run, b.risk.value.counters.active, mapping, pilot, now);
      if r.Some? {
        GrowsTransitive(a, b, r.value);
      }
    }
  }

  lemma CreateGrows(a: Aggregate, call: ActionCall)
    requires Inv(a)
    ensures Grows(a, CreateWorkOrder(a, call).after)
  {
    CreateAccepted(a, call);
    if Accepted(CreateWorkOrder(a, call)) {
      AcceptedCreateGrows(a, call);
    } else {
      GrowsReflexive(a);
    }
  }

  lemma AcceptCreateGrows(a: Aggregate, call: ActionCall)
    requires call.auth.alertId < |a.alerts| && call.mapping.Some? && call.mapping.value.assetId.Some?
    requires call.auth.alertId !in a.workOrders && call.key !in a.actions
    ensures Grows(a, AcceptCreate(a, call))
  {}

  lemma PendingHasNoOrder(a: Aggregate, id: Uuid)
    requires Inv(a) && id < |a.alerts| && a.alerts[id].maintenance.PendingApproval?
    ensures id !in a.workOrders && ActionKey(id, CreateAction) !in a.actions
  {
    assert id in a.workOrders ==> OrderOk(a.key, id, a.alerts[id], a.workOrders[id]);
  }

  lemma AcceptedCreateGrows(a: Aggregate, call: ActionCall)
    requires Inv(a) && MayCreate(a, call)
    ensures Grows(a, QueueRefresh(AcceptCreate(a, call), call.auth.alertId, call.now))
  {
    var b, id := AcceptCreate(a, call), call.auth.alertId;
    var p := b.projection.value.(desiredActive := b.alerts[id].phase.RiskActive?);
    assert HeadOk(b, p) by { AcceptedCreateReady(a, call); }
    PendingHasNoOrder(a, id);
    AcceptCreateGrows(a, call);
    RequeueGrows(b, p, {id}, call.now);
    GrowsTransitive(a, b, QueueRefresh(b, id, call.now));
  }

  lemma CloseGrows(a: Aggregate, call: ActionCall)
    requires Inv(a)
    ensures Grows(a, CloseRisk(a, call).after)
  {
    var r := CloseRisk(a, call);
    if r.reply.Ok? && !r.reply.value.replayed {
      AcceptedCloseGrows(a, call);
    } else {
      GrowsReflexive(a);
    }
  }

  lemma AcceptedCloseGrows(a: Aggregate, call: ActionCall)
    requires Inv(a) && MayClose(a, call)
    requires call.key !in a.actions
    ensures Grows(a, QueueRefresh(AcceptClose(a, call), call.auth.alertId, call.now))
  {
    var b, id := AcceptClose(a, call), call.auth.alertId;
    AcceptedCloseReady(a, call);
    assert Grows(a, b);
    RequeueGrows(b, b.projection.value.(desiredActive := b.alerts[id].phase.RiskActive?), {id}, call.now);
    GrowsTransitive(a, b, QueueRefresh(b, id, call.now));
  }

  lemma EventsOnlyGrow(a: Aggregate, outbox: seq<Event>)
    requires EventsGrow(a.outbox, outbox)
    ensures Grows(a, a.(outbox := outbox))
  {}

  lemma ClaimGrows(a: Aggregate, kind: EventKind, pick: nat, owner: string, now: Time)
    ensures Grows(a, ClaimOutbox(a, kind, pick, owner, now))
  {
    var b := ClaimOutbox(a, kind, pick, owner, now);
    var expired := ExpireLeases(a.outbox, kind, now);
    forall i | 0 <= i < |a.outbox| ensures EventGrows(a.outbox[i], b.outbox[i]) {
      assert expired[i] == ExpireEvent(a.outbox[i], kind, now);
    }
    EventsOnlyGrow(a, b.outbox);
  }

  lemma FollowGrows(a: Aggregate, id: Uuid, wo: WorkOrder, now: Time)
    requires a.risk.Some? && id < |a.alerts| && id in a.workOrders && OrderGrows(a.workOrders[id], wo)
    requires HasProjection(a, id) ==> HeadOk(Followed(a, id, wo), a.projection.value)
    ensures Grows(a, FollowOrder(a, id, wo, now))
  {
    var b := Followed(a, id, wo);
    assert Grows(a, b);
    if HasProjection(a, id) {
      RequeueGrows(b, a.projection.value, {id}, now);
      GrowsTransitive(a, b, FollowOrder(a, id, wo, now));
    }
  }

  lemma SaveCreatedGrows(a: Aggregate, event: nat, owner: string, reply: CmmsReply, now: Time)
    requires Inv(a) && IsCreateEvent(a, event)
    ensures Grows(a, SaveCreated(a, event, owner, reply, now))
  {
    if Holds(a, event, owner) && MaintenanceOf(reply.status).Some? {
      var id := a.outbox[event].alertId;
      assert id in a.workOrders && a.workOrders[id].cmmsId.None?;
      var wo := CreatedOrder(a.workOrders[id], reply, MaintenanceOf(reply.status).value, now);
      var done := a.outbox[event].(status := Delivered, owner := None, expires := None);
      SavedOrderGrows(a, event, done, id, wo, now);
    } else {
      GrowsReflexive(a);
    }
  }

  lemma SavedOrderGrows(a: Aggregate, event: nat, done: Event, id: Uuid, wo: WorkOrder, now: Time)
    requires Inv(a) && a.risk.Some? && event < |a.outbox| && EventGrows(a.outbox[event], done)
    requires id < |a.alerts| && id in a.workOrders && OrderGrows(a.workOrders[id], wo)
    ensures Grows(a, FollowOrder(SetEvent(a, event, done), id, wo, now))
  {
    var b := SetEvent(a, event, done);
    OneEventGrows(a, event, done);
    if HasProjection(a, id) {
      FollowedHead(a, b.outbox, id, wo);
    }
    FollowGrows(b, id, wo, now);
    GrowsTransitive(a, b, FollowOrder(b, id, wo, now));
  }

  lemma OnePollGrows(a: Aggregate, id: Uuid, wo: WorkOrder)
    requires id in a.workOrders && OrderGrows(a.workOrders[id], wo)
    ensures Grows(a, SetOrder(a, id, wo))
  {}

  lemma AppliedStatusGrows(a: Aggregate, id: Uuid, wo: WorkOrder, now: Time)
    requires Inv(a) && a.risk.Some? && id < |a.alerts| && id in a.workOrders && OrderGrows(a.workOrders[id], wo)
    ensures Grows(a, FollowOrder(a, id, wo, now))
  {
    if HasProjection(a, id) {
      FollowedHead(a, a.outbox, id, wo);
    }
    FollowGrows(a, id, wo, now);
  }

  lemma PollGrows(a: Aggregate, id: Uuid, owner: string, reply: CmmsReply, now: Time)
    requires Inv(a)
    ensures Grows(a, ApplyStatus(a, id, owner, reply, now))
  {
    var decision := PollDecision(a, id, owner, reply);
    if decision.LeaseLost? || decision.StatusInvalid? {
      GrowsReflexive(a);
    } else {
      assert OrderOk(a.key, id, a.alerts[id], a.workOrders[id]);
      var wo := a.workOrders[id].(pollOwner := None, pollExpires := None);
      if decision.Applied? {
        var m := MaintenanceOf(reply.status).value;
        AppliedStatusGrows(a, id,
                           wo.(eventVersion := Some(reply.eventVersion), status := Some(reply.status),
                               updatedAt := Some(reply.updatedAt), maintenance := m, nextPollAt := NextPoll(m, now)),
                           now);
      } else {
        OnePollGrows(a, id, wo.(nextPollAt := NextPoll(wo.maintenance, now)));
      }
    }
  }

  lemma ExpirePollsGrow(a: Aggregate, now: Time)
    requires Inv(a)
    ensures Grows(a, a.(workOrders := ExpirePolls(a.workOrders, now)))
  {
    var orders := ExpirePolls(a.workOrders, now);
    forall i | i in a.workOrders ensures i in orders && OrderGrows(a.workOrders[i], orders[i]) {
      assert OrderOk(a.key, i, a.alerts[i], a.workOrders[i]);
    }
  }

  lemma StartPollGrows(a: Aggregate, id: Uuid, owner: string, now: Time)
    requires Inv(a)
    ensures Grows(a, ClaimPoll(a, id, owner, now))
  {
    var orders := ExpirePolls(a.workOrders, now);
    var b := a.(workOrders := orders);
    ExpirePollsGrow(a, now);
    if id in orders && Pollable(orders[id], now) {
      var wo := orders[id].(pollOwner := Some(owner), pollExpires := Some(now + LEASE_SECONDS));
      OnePollGrows(b, id, wo);
      GrowsTransitive(a, b, SetOrder(b, id, wo));
    }
  }

  lemma AbandonPollGrows(a: Aggregate, id: Uuid, owner: string, now: Time)
    requires Inv(a)
    ensures Grows(a, FailPoll(a, id, owner, now))
  {
    if id in a.workOrders && a.workOrders[id].pollOwner == Some(owner) {
      assert OrderOk(a.key, id, a.alerts[id], a.workOrders[id]);
      OnePollGrows(a, id, FailPoll(a, id, owner, now).workOrders[id]);
    } else {
      GrowsReflexive(a);
    }
  }

  lemma OneEventGrows(a: Aggregate, event: nat, f: Event)
    requires event < |a.outbox| && EventGrows(a.outbox[event], f)
    ensures Grows(a, SetEvent(a, event, f))
  {}

  lemma FinishGrows(a: Aggregate, event: nat, owner: string, status: EventStatus)
    ensures Grows(a, FinishEvent(a, event, owner, status))
  {
    if Holds(a, event, owner) {
      OneEventGrows(a, event, a.outbox[event].(status := status, owner := None, expires := None));
    } else {
      GrowsReflexive(a);
    }
  }

  lemma RetryGrows(a: Aggregate, event: nat, owner: string, now: Time)
    ensures Grows(a, RetryEvent(a, event, owner, now))
  {
    if Holds(a, event, owner) {
      OneEventGrows(a, event, RetryEvent(a, event, owner, now).outbox[event]);
    } else {
      GrowsReflexive(a);
    }
  }

  lemma SaveAlarmGrows(a: Aggregate, event: nat, owner: string, alertId: Uuid, alarmId: Uuid)
    ensures Grows(a, SaveAlarmId(a, event, owner, alertId, alarmId))
  {}

  lemma FailRoundGrows(a: Aggregate, run: Uuid, upsert: bool)
    requires run in a.slots
    ensures Grows(a, RoundFailed(a, run, upsert))
  {}

  lemma RoundStepGrows(a: Aggregate, t: Txn)
    requires Inv(a) && Enabled(a, t)
    requires t.NewSlot? || t.SucceedRound? || t.FailRound? || t.Create? || t.Close?
    ensures Grows(a, Step(a, t))
  {
    match t
    case NewSlot(run, at) => GrowsReflexive(a);
    case SucceedRound(info, mapping, pilot, now) => RoundGrows(a, info, mapping, pilot, now);
    case FailRound(run, upsert) => FailRoundGrows(a, run, upsert);
    case Create(call) => CreateGrows(a, call);
    case Close(call) => CloseGrows(a, call);
  }

  lemma FinishStepGrows(a: Aggregate, t: Txn)
    requires Enabled(a, t)
    requires t.Discard? || t.MarkCleared? || t.GiveUp?
    ensures Grows(a, Step(a, t))
  {
    match t
    case Discard(event, owner) => FinishGrows(a, event, owner, Superseded);
    case MarkCleared(event, owner) => FinishGrows(a, event, owner, Delivered);
    case GiveUp(event, owner) => FinishGrows(a, event, owner, DeadLetter);
  }

  lemma LeaseStepGrows(a: Aggregate, t: Txn)
    requires Enabled(a, t)
    requires t.Claim? || t.Retry? || t.SaveAlarm?
    ensures Grows(a, Step(a, t))
  {
    match t
    case Claim(kind, pick, owner, now) => ClaimGrows(a, kind, pick, owner, now);
    case Retry(event, owner, now) => RetryGrows(a, event, owner, now);
    case SaveAlarm(event, owner, alarmId) => SaveAlarmGrows(a, event, owner, a.outbox[event].alertId, alarmId);
  }

  lemma SaveStepGrows(a: Aggregate, t: Txn)
    requires Inv(a) && Enabled(a, t)
    requires t.SaveOrder? || t.FinishPoll?
    ensures Grows(a, Step(a, t))
  {
    match t
    case SaveOrder(event, owner, reply, now) => SaveCreatedGrows(a, event, owner, reply, now);
    case FinishPoll(id, owner, reply, now) => PollGrows(a, id, owner, reply, now);
  }

  lemma PollStepGrows(a: Aggregate, t: Txn)
    requires Inv(a)
    requires t.StartPoll? || t.AbandonPoll?
    ensures Grows(a, Step(a, t))
  {
    match t
    case StartPoll(id, owner, now) => StartPollGrows(a, id, owner, now);
    case AbandonPoll(id, owner, now) => AbandonPollGrows(a, id, owner, now);
  }

  lemma StepGrows(a: Aggregate, t: Txn)
    requires Inv(a)
    ensures Grows(a, Step(a, t))
  {
    if !Enabled(a, t) {
      GrowsReflexive(a);
    } else if t.NewSlot? || t.SucceedRound? || t.FailRound? || t.Create? || t.Close? {
      RoundStepGrows(a, t);
    } else if t.SaveOrder? || t.FinishPoll? {
      SaveStepGrows(a, t);
    } else if t.StartPoll? || t.AbandonPoll? {
      PollStepGrows(a, t);
    } else if t.Claim? || t.Retry? || t.SaveAlarm? {
      LeaseStepGrows(a, t);
    } else {
      FinishStepGrows(a, t);
    }
  }

  lemma {:induction false} RunGrows(a: Aggregate, ts: seq<Txn>)
    requires Inv(a)
    ensures Grows(a, Run(a, ts))
  {
    if ts != [] {
      var b := Run(a, ts[..|ts| - 1]);
      RunGrows(a, ts[..|ts| - 1]);
      RunKeepsInv(a, ts[..|ts| - 1]);
      StepGrows(b, ts[|ts| - 1]);
      GrowsTransitive(a, b, Run(a, ts));
    }
  }
}
