/** What the operations of the closed loop lead to, condition by condition and column by column. */
module ClosedLoopOutcomes {
  import opened Basics
  import opened RiskStates
  import opened ClosedLoop
  import opened ClosedLoopInvariant
  import opened ClosedLoopEvolution
  import opened ClosedLoopTheorems
  import opened ClosedLoopHistory

  // ---------------------------------------------------------------- texts of the maintenance states

  /** The text of the maintenance_state column. */
  function ColumnText(m: Maintenance): string {
    match m
    case PendingApproval => "PENDING_APPROVAL"
    case Approved => "APPROVED"
    case WorkOrderCreating => "WORK_ORDER_CREATING"
    case WorkOrderOpen => "WORK_ORDER_OPEN"
    case WorkOrderInProgress => "WORK_ORDER_IN_PROGRESS"
    case WorkOrderOnHold => "WORK_ORDER_ON_HOLD"
    case WorkOrderComplete => "WORK_ORDER_COMPLETE"
    case WorkOrderCreateFailed => "WORK_ORDER_CREATE_FAILED"
    case SuppressedActiveWorkOrder => "SUPPRESSED_ACTIVE_WORK_ORDER"
  }

  /** The statuses of a CMMS work order that the service knows. */
  predicate IsKnown(status: string) {
    status == "OPEN" || status == "IN_PROGRESS" || status == "ON_HOLD" || status == "COMPLETE"
  }

  /** `m` is the state whose text is the status with the prefix of work orders. */
  predicate Tells(m: Maintenance, status: string) { ColumnText(m) == "WORK_ORDER_" + status }

  lemma StatusIsText(status: string)
    ensures MaintenanceOf(status).Some? <==> IsKnown(status)
    ensures IsKnown(status) ==> Tells(MaintenanceOf(status).value, status)
    ensures IsKnown(status) ==> (MaintenanceOf(status).value.WorkOrderComplete? <==> status == "COMPLETE")
  {
    assert "WORK_ORDER_" + "OPEN" == "WORK_ORDER_OPEN";
    assert "WORK_ORDER_" + "IN_PROGRESS" == "WORK_ORDER_IN_PROGRESS";
    assert "WORK_ORDER_" + "ON_HOLD" == "WORK_ORDER_ON_HOLD";
    assert "WORK_ORDER_" + "COMPLETE" == "WORK_ORDER_COMPLETE";
    if status == "OPEN" {
    } else if status == "IN_PROGRESS" {
      assert status[0] != "OPEN"[0];
    } else if status == "ON_HOLD" {
      assert status[1] != "OPEN"[1];
    } else if status == "COMPLETE" {
      assert status[0] != "OPEN"[0];
    }
  }

  /** The order and its alert are in one state, and it is the one of the stored status once the order is created. */
  ghost predicate ShowsStatus(a: Aggregate, id: Uuid)
    requires id in a.workOrders
  {
    var wo := a.workOrders[id];
    && id < |a.alerts| && a.alerts[id].maintenance == wo.maintenance
    && (wo.cmmsId.None? <==> ColumnText(wo.maintenance) == "WORK_ORDER_CREATING")
    && (wo.cmmsId.Some? <==> wo.status.Some?)
    && (wo.status.Some? ==> IsKnown(wo.status.value) && Tells(wo.maintenance, wo.status.value))
    && (HasProjection(a, id) ==> a.projection.value.details.maintenance == wo.maintenance)
  }

  lemma OrderShowsStatus(a: Aggregate, id: Uuid)
    requires id in a.workOrders && id < |a.alerts| && OrderOk(a.key, id, a.alerts[id], a.workOrders[id])
    requires Coherent(a)
    ensures ShowsStatus(a, id)
  {
    if a.workOrders[id].status.Some? {
      StatusIsText(a.workOrders[id].status.value);
    }
    CreatingText(a.workOrders[id].maintenance);
  }

  /** Over every run a created order and its alert carry the text of the stored status. */
  lemma StoredStatusIsShown(key: Key, ts: seq<Txn>, id: Uuid)
    requires id in Run(Empty(key), ts).workOrders
    ensures ShowsStatus(Run(Empty(key), ts), id)
  {
    EmptyInv(key);
    RunKeepsInv(Empty(key), ts);
    InvIsCoherent(Run(Empty(key), ts));
    OrderShowsStatus(Run(Empty(key), ts), id);
  }

  lemma CreatingText(m: Maintenance)
    ensures m.WorkOrderCreating? <==> ColumnText(m) == "WORK_ORDER_CREATING"
  {
    assert "WORK_ORDER_CREATING"[11] == 'C' && "WORK_ORDER_CREATING"[12] == 'R';
    assert "PENDING_APPROVAL"[1] == 'E' && "APPROVED"[0] == 'A' && "SUPPRESSED_ACTIVE_WORK_ORDER"[0] == 'S';
    assert "WORK_ORDER_OPEN"[11] == 'O' && "WORK_ORDER_IN_PROGRESS"[11] == 'I' && "WORK_ORDER_ON_HOLD"[11] == 'O';
    assert "WORK_ORDER_COMPLETE"[12] == 'O' && |"WORK_ORDER_CREATE_FAILED"| == 24 && |"WORK_ORDER_CREATING"| == 19;
  }

  // ---------------------------------------------------------------- the refresh that ends an operation

  /** Waiting alarm events of these alerts are superseded, and one of the new version is queued. */
  ghost predicate AlarmQueued(before: seq<Event>, after: seq<Event>, ids: set<Uuid>, id: Uuid, version: nat, now: Time) {
    && |after| == |before| + 1
    && (forall i :: 0 <= i < |before| ==>
          after[i] == if before[i].kind.AlarmSync? && before[i].alertId in ids
                         && (before[i].status.Pending? || before[i].status.RetryWait?)
                      then before[i].(status := Superseded, owner := None, expires := None) else before[i])
    && after[|before|] == Event(AlarmSync, id, version, Pending, 0, None, None, now)
  }

  /** The projection of alert `id` shows it as it is now, with a version one above the last, and is about to be sent. */
  ghost predicate Refreshed(before: Aggregate, queue: seq<Event>, after: Aggregate, id: Uuid, desired: bool, now: Time) {
    && before.risk.Some? && after.risk.Some? && after.risk.value.alarmVersion == before.risk.value.alarmVersion + 1
    && HasProjection(before, id) && HasProjection(after, id) && id < |after.alerts|
    && (var p, q := before.projection.value, after.projection.value;
        && q.deviceId == p.deviceId && q.alarmId == p.alarmId && q.desiredActive == desired
        && q.version == after.risk.value.alarmVersion
        && Pictures(q.details, after.key, id, after.alerts[id], after.workOrders))
    && AlarmQueued(queue, after.outbox, {id}, id, after.risk.value.alarmVersion, now)
  }

  lemma RequeueRefreshes(a: Aggregate, p: Projection, now: Time)
    requires a.risk.Some? && p.alertId < |a.alerts| && HasProjection(a, p.alertId)
    requires p.deviceId == a.projection.value.deviceId && p.alarmId == a.projection.value.alarmId
    ensures Refreshed(a, a.outbox, Requeue(a, p, {p.alertId}, now), p.alertId, p.desiredActive, now)
  {
    var b := Requeue(a, p, {p.alertId}, now);
    forall i | 0 <= i < |a.outbox| ensures b.outbox[i] == SupersedeEvent(a.outbox[i], {p.alertId}) {}
  }

  // ---------------------------------------------------------------- closing a risk

  predicate HasReason(call: ActionCall) {
    |call.reason| <= 500 && exists i :: 0 <= i < |call.reason| && call.reason[i] !in " \t\n\r"
  }

  /** A close that gets as far as its alert, which has no close on record. */
  predicate ReachesAlert(a: Aggregate, call: ActionCall, kind: ActionKind) {
    && call.key == ActionKey(call.auth.alertId, kind)
    && a.risk.Some? && call.auth.alertId < |a.alerts| && call.key !in a.actions
  }

  predicate CloseAllowed(a: Aggregate, call: ActionCall) {
    && HasReason(call) && ReachesAlert(a, call, CloseAction)
    && call.expectedVersion == a.alerts[call.auth.alertId].version
    && a.alerts[call.auth.alertId].phase.RiskActive?
    && a.projection.Some? && a.projection.value.alertId == call.auth.alertId
  }

  /** The alert is closed by hand, the counters start over, and the alarm is to be cleared. */
  ghost predicate IsClosed(a: Aggregate, b: Aggregate, call: ActionCall)
    requires call.auth.alertId < |a.alerts| && a.risk.Some?
  {
    var id, row := call.auth.alertId, a.risk.value;
    && b.alerts == a.alerts[id := a.alerts[id].(phase := RiskManuallyClosed, actionAllowed := false,
                                                version := a.alerts[id].version + 1)]
    && b.risk == Some(row.(counters := Counters(0, 0, false), version := row.version + 1, alarmVersion := row.alarmVersion + 1))
    && b.key == a.key && b.slots == a.slots && b.workOrders == a.workOrders
    && b.actions == a.actions[call.key := ActionRow(call.auth.userId, call.requestDigest, call.expectedVersion,
                                                    AcceptedResult(a, call))]
    && Refreshed(a, a.outbox, b, id, false, call.now)
  }

  /** The reply to an accepted action. */
  function AcceptedResult(a: Aggregate, call: ActionCall): ActionResult
    requires call.auth.alertId < |a.alerts|
  {
    ActionResult(call.actionId, call.key, a.alerts[call.auth.alertId].provenance.correlationId)
  }

  /** A later call with a key on record: its result again for the same actor and request, otherwise a conflict. */
  ghost predicate IsReplay(a: Aggregate, b: Aggregate, call: ActionCall, reply: Result<Reply, ActionError>)
    requires call.key in a.actions
  {
    var row := a.actions[call.key];
    && b == a
    && reply == if row.requestDigest == call.requestDigest && row.actorId == call.auth.userId
                then Ok(Reply(row.result, true)) else Err(IdempotencyConflict)
  }

  /** What `_close_risk` answers, and what it leaves. */
  ghost predicate CloseOutcome(a: Aggregate, b: Aggregate, call: ActionCall, reply: Result<Reply, ActionError>) {
    var id := call.auth.alertId;
    var valid := HasReason(call) && call.key == ActionKey(id, CloseAction);
    var found := valid && a.risk.Some? && id < |a.alerts|;
    && (CloseAllowed(a, call) ==> reply == Ok(Reply(AcceptedResult(a, call), false)) && IsClosed(a, b, call))
    && (!CloseAllowed(a, call) ==> b == a && (reply.Ok? ==> reply.value.replayed))
    && (reply == Err(ReasonRequired) <==> !HasReason(call))
    && (reply == Err(IdempotencyKeyInvalid) <==> HasReason(call) && !valid)
    && (reply == Err(AlertNotFound) <==> valid && a.risk.Some? && id >= |a.alerts|)
    && (reply == Err(VersionStale) <==>
          found && call.key !in a.actions && (call.expectedVersion != a.alerts[id].version || !a.alerts[id].phase.RiskActive?))
    && (found && call.key in a.actions ==> IsReplay(a, b, call, reply))
    && (reply.Err? ==> reply.error in {ReasonRequired, IdempotencyKeyInvalid, AlertNotFound, VersionStale,
                                       IdempotencyConflict, ProjectionNotReady})
  }

  lemma CloseWrites(a: Aggregate, call: ActionCall)
    requires CloseAllowed(a, call)
    ensures CloseRisk(a, call).reply == Ok(Reply(AcceptedResult(a, call), false))
    ensures IsClosed(a, CloseRisk(a, call).after, call)
  {
    var b, id := AcceptClose(a, call), call.auth.alertId;
    RequeueRefreshes(b, b.projection.value.(desiredActive := false), call.now);
  }

  /** A close is accepted exactly when it may be, with its whole effect; every refusal has its one condition. */
  lemma CloseIsExact(a: Aggregate, call: ActionCall)
    ensures CloseOutcome(a, CloseRisk(a, call).after, call, CloseRisk(a, call).reply)
  {
    assert ReasonGiven(call.reason) <==> HasReason(call);
    if CloseAllowed(a, call) {
      CloseWrites(a, call);
    }
  }

  /**
    Over every run a close needs no more than the alert as the operator saw it: if it confirms the version shown in an
    earlier state, it is accepted exactly when nobody has touched the alert since, its risk is active and no close is on
    record; the projection never stands in its way.
   */
  lemma ConfirmedCloseIsCurrent(key: Key, before: seq<Txn>, since: seq<Txn>, call: ActionCall)
    requires var shown := Run(Empty(key), before);
             && call.auth.alertId < |shown.alerts| && call.expectedVersion == shown.alerts[call.auth.alertId].version
    requires HasReason(call) && call.key == ActionKey(call.auth.alertId, CloseAction)
    ensures var shown, a := Run(Empty(key), before), Run(Empty(key), before + since);
            && call.auth.alertId < |a.alerts|
            && (Accepts(a, call) <==>
                  && a.alerts[call.auth.alertId] == shown.alerts[call.auth.alertId]
                  && a.alerts[call.auth.alertId].phase.RiskActive? && call.key !in a.actions)
  {
    var shown := Run(Empty(key), before);
    EmptyInv(key);
    RunKeepsInv(Empty(key), before);
    RunKeepsInv(Empty(key), before + since);
    RunSplits(Empty(key), before, since);
    RunGrows(shown, since);
    ConfirmedClose(shown, Run(Empty(key), before + since), call);
  }

  /** An active alert owns the projection. */
  lemma ActiveIsProjected(a: Aggregate, id: Uuid)
    requires Inv(a) && id < |a.alerts| && a.alerts[id].phase.RiskActive?
    ensures a.risk.Some? && HasProjection(a, id)
  {
    InvIsCoherent(a);
    InvEpisodesMatch(a);
  }

  lemma ConfirmedClose(shown: Aggregate, a: Aggregate, call: ActionCall)
    requires Inv(a) && Grows(shown, a) && HasReason(call) && call.key == ActionKey(call.auth.alertId, CloseAction)
    requires call.auth.alertId < |shown.alerts| && call.expectedVersion == shown.alerts[call.auth.alertId].version
    ensures call.auth.alertId < |a.alerts|
    ensures Accepts(a, call) <==>
              && a.alerts[call.auth.alertId] == shown.alerts[call.auth.alertId]
              && a.alerts[call.auth.alertId].phase.RiskActive? && call.key !in a.actions
  {
    var id := call.auth.alertId;
    assert AlertGrows(shown.alerts[id], a.alerts[id]);
    if a.alerts[id].phase.RiskActive? {
      ActiveIsProjected(a, id);
    }
    CloseDecides(a, call);
  }

  lemma CloseDecides(a: Aggregate, call: ActionCall)
    requires call.key.kind.CloseAction?
    ensures Accepts(a, call) <==> CloseAllowed(a, call)
  {
    CloseIsExact(a, call);
  }

  // ---------------------------------------------------------------- creating a work order

  /** The identity of the plan as it is at this moment. */
  predicate ConfirmsPlan(a: Aggregate, call: ActionCall)
    requires call.auth.alertId < |a.alerts| && call.tenant.Some? && call.mapping.Some? && call.mapping.value.assetId.Some?
  {
    var id, tenant := call.auth.alertId, call.tenant.value;
    call.confirmed ==
    Sha256(PlanIdentity(a.key.tenantId, tenant.tbTenantId, tenant.companyId, id, a.alerts[id].version, call.auth.userId,
                        call.auth.alarm.alarmId, ApprovedBody(a, call)))
  }

  function ApprovedBody(a: Aggregate, call: ActionCall): RequestBody
    requires call.auth.alertId < |a.alerts| && call.mapping.Some? && call.mapping.value.assetId.Some?
  {
    RequestBody(a.key, call.auth.alertId, call.auth.alarm.alarmId, call.mapping.value.assetId.value,
                a.alerts[call.auth.alertId].provenance)
  }

  /** Alarm, equipment mapping and tenant are still those that were authorised. */
  predicate NothingDrifted(a: Aggregate, call: ActionCall) {
    && a.projection.Some? && a.projection.value.alertId == call.auth.alertId
    && a.projection.value.alarmId == Some(call.auth.alarm.alarmId)
    && call.mapping.Some? && call.mapping.value.enabled && call.mapping.value.active
    && call.mapping.value.deviceId == call.auth.alarm.deviceId
    && call.tenant.Some? && call.tenant.value.enabled && call.tenant.value.tbTenantId == call.auth.userTenantId
  }

  predicate IsActionable(alert: Alert, call: ActionCall) {
    && alert.phase.RiskActive? && ColumnText(alert.maintenance) == "PENDING_APPROVAL"
    && alert.actionAllowed && call.auth.alarm.statusActive
  }

  predicate CreateAllowed(a: Aggregate, call: ActionCall) {
    && ReachesAlert(a, call, CreateAction) && NothingDrifted(a, call)
    && IsActionable(a.alerts[call.auth.alertId], call) && call.mapping.value.assetId.Some?
    && call.expectedVersion == a.alerts[call.auth.alertId].version
    && ConfirmsPlan(a, call)
  }

  /** The order is stored with the approved body, its command is queued, and the alert waits for it. */
  ghost predicate IsCreated(a: Aggregate, b: Aggregate, call: ActionCall)
    requires call.auth.alertId < |a.alerts| && a.risk.Some? && call.mapping.Some? && call.mapping.value.assetId.Some?
  {
    var id, row := call.auth.alertId, a.risk.value;
    && b.alerts == a.alerts[id := a.alerts[id].(maintenance := WorkOrderCreating, actionAllowed := false,
                                                version := a.alerts[id].version + 1)]
    && b.workOrders == a.workOrders[id := WorkOrder(ApprovedBody(a, call), None, None, None, None, WorkOrderCreating,
                                                    None, None, None)]
    && b.risk == Some(row.(alarmVersion := row.alarmVersion + 1)) && b.key == a.key && b.slots == a.slots
    && b.actions == a.actions[call.key := ActionRow(call.auth.userId, call.requestDigest, call.expectedVersion,
                                                    AcceptedResult(a, call))]
    && Refreshed(a, a.outbox + [Event(WorkOrderCreate, id, 1, Pending, 0, None, None, call.now)], b, id, true, call.now)
  }

  /** What `_create_work_order` answers, and what it leaves. */
  ghost predicate CreateOutcome(a: Aggregate, b: Aggregate, call: ActionCall, reply: Result<Reply, ActionError>) {
    var id := call.auth.alertId;
    var valid := call.key == ActionKey(id, CreateAction);
    var reached := ReachesAlert(a, call, CreateAction);
    && (CreateAllowed(a, call) ==> reply == Ok(Reply(AcceptedResult(a, call), false)) && IsCreated(a, b, call))
    && (!CreateAllowed(a, call) ==> b == a && (reply.Ok? ==> reply.value.replayed))
    && (reply == Err(IdempotencyKeyInvalid) <==> !valid)
    && (reply == Err(ProjectionNotReady) <==> valid && a.risk.None?)
    && (reply == Err(AlertNotFound) <==> valid && a.risk.Some? && id >= |a.alerts|)
    && (valid && a.risk.Some? && id < |a.alerts| && call.key in a.actions ==> IsReplay(a, b, call, reply))
    && (reply == Err(NotActionable) <==> reached && NothingDrifted(a, call) && !IsActionable(a.alerts[id], call))
    && (reply == Err(AssetMappingMissing) <==>
          reached && NothingDrifted(a, call) && IsActionable(a.alerts[id], call) && call.mapping.value.assetId.None?)
    && (reply == Err(VersionStale) <==>
          reached && NothingDrifted(a, call) && IsActionable(a.alerts[id], call) && call.mapping.value.assetId.Some?
          && call.expectedVersion != a.alerts[id].version)
    && (reply == Err(PlanDrift) <==>
          reached && (!NothingDrifted(a, call)
                    || (IsActionable(a.alerts[id], call) && call.mapping.value.assetId.Some?
                        && call.expectedVersion == a.alerts[id].version && !ConfirmsPlan(a, call))))
  }

  lemma PendingText(m: Maintenance)
    ensures m.PendingApproval? <==> ColumnText(m) == "PENDING_APPROVAL"
  {
    assert "PENDING_APPROVAL"[0] == 'P' && "APPROVED"[0] == 'A' && "SUPPRESSED_ACTIVE_WORK_ORDER"[0] == 'S';
    assert "WORK_ORDER_CREATING"[0] == 'W' && "WORK_ORDER_OPEN"[0] == 'W' && "WORK_ORDER_IN_PROGRESS"[0] == 'W';
    assert "WORK_ORDER_ON_HOLD"[0] == 'W' && "WORK_ORDER_COMPLETE"[0] == 'W' && "WORK_ORDER_CREATE_FAILED"[0] == 'W';
  }

  lemma CreateWritesAll(a: Aggregate, call: ActionCall)
    requires CreateAllowed(a, call)
    ensures CreateWorkOrder(a, call).reply == Ok(Reply(AcceptedResult(a, call), false))
    ensures IsCreated(a, CreateWorkOrder(a, call).after, call)
  {
    PendingText(a.alerts[call.auth.alertId].maintenance);
    var b := AcceptCreate(a, call);
    RequeueRefreshes(b, b.projection.value.(desiredActive := true), call.now);
  }

  /** A create is accepted exactly when it may be, with its whole effect; every refusal has its one condition. */
  lemma CreateIsExact(a: Aggregate, call: ActionCall)
    ensures CreateOutcome(a, CreateWorkOrder(a, call).after, call, CreateWorkOrder(a, call).reply)
  {
    if CreateAllowed(a, call) {
      CreateWritesAll(a, call);
    }
    if call.auth.alertId < |a.alerts| {
      PendingText(a.alerts[call.auth.alertId].maintenance);
    }
  }

  /** The preview that a call approves: the same operator, alarm, mapping and tenant, at the version shown. */
  predicate Approves(call: ActionCall, shown: Aggregate, auth: Authorized, tenant: Tenant, mapping: Mapping) {
    && call.auth == auth && call.tenant == Some(tenant) && call.mapping == Some(mapping)
    && call.key == ActionKey(auth.alertId, CreateAction)
    && auth.alertId < |shown.alerts| && call.expectedVersion == shown.alerts[auth.alertId].version
  }

  /**
    Over every run a preview is answered exactly for an actionable alert with its alarm and asset, and its hash, confirmed
    later by the same operator, is accepted exactly while the alert is as it was shown, its alarm, mapping and tenant
    have not drifted, and no create is on record.
   */
  lemma PreviewedIsAccepted(key: Key, before: seq<Txn>, since: seq<Txn>, auth: Authorized, tenant: Tenant, mapping: Mapping,
                            call: ActionCall)
    requires var shown := Run(Empty(key), before);
             Preview(shown, auth, tenant, mapping) == Ok(call.confirmed) && Approves(call, shown, auth, tenant, mapping)
    ensures var shown, a := Run(Empty(key), before), Run(Empty(key), before + since);
            && auth.alertId < |a.alerts|
            && (Accepts(a, call) <==>
                  a.alerts[auth.alertId] == shown.alerts[auth.alertId] && NothingDrifted(a, call) && call.key !in a.actions)
  {
    var shown, a, id := Run(Empty(key), before), Run(Empty(key), before + since), auth.alertId;
    EmptyInv(key);
    RunKeepsInv(Empty(key), before);
    RunKeepsInv(Empty(key), before + since);
    RunSplits(Empty(key), before, since);
    RunGrows(shown, since);
    assert AlertGrows(shown.alerts[id], a.alerts[id]);
    assert a.key == shown.key;
    InvIsCoherent(a);
    PendingText(a.alerts[id].maintenance);
    CreateIsExact(a, call);
  }

  lemma PreviewIsExact(a: Aggregate, auth: Authorized, tenant: Tenant, mapping: Mapping)
    ensures Preview(a, auth, tenant, mapping).Ok? <==>
              && auth.alertId < |a.alerts| && a.projection.Some? && a.projection.value.alertId == auth.alertId
              && a.projection.value.alarmId == Some(auth.alarm.alarmId)
              && a.alerts[auth.alertId].phase.RiskActive? && ColumnText(a.alerts[auth.alertId].maintenance) == "PENDING_APPROVAL"
              && a.alerts[auth.alertId].actionAllowed && auth.alarm.statusActive && mapping.assetId.Some?
  {
    if auth.alertId < |a.alerts| {
      PendingText(a.alerts[auth.alertId].maintenance);
    }
  }

  // ---------------------------------------------------------------- CMMS feedback

  /** A created or polled order with its alert: the reply's columns and the state whose text it tells. */
  ghost predicate IsFollowed(a: Aggregate, b: Aggregate, id: Uuid, reply: CmmsReply, now: Time)
    requires id in a.workOrders && id < |a.alerts|
  {
    && b.workOrders.Keys == a.workOrders.Keys
    && (forall i :: i in a.workOrders && i != id ==> b.workOrders[i] == a.workOrders[i])
    && (var x, y := a.workOrders[id], b.workOrders[id];
        && y.body == x.body && y.status == Some(reply.status) && y.eventVersion == Some(reply.eventVersion)
        && y.updatedAt == Some(reply.updatedAt) && Tells(y.maintenance, reply.status)
        && y.nextPollAt == if reply.status == "COMPLETE" then None else Some(now + 300))
    && b.alerts == a.alerts[id := a.alerts[id].(maintenance := b.workOrders[id].maintenance,
                                                version := a.alerts[id].version + 1)]
    && b.key == a.key && b.slots == a.slots && b.actions == a.actions
  }

  /** The projection follows if it belongs to the alert, and else nothing is queued. */
  ghost predicate FollowedByAlarm(a: Aggregate, queue: seq<Event>, b: Aggregate, id: Uuid, now: Time) {
    if HasProjection(a, id) then
      Refreshed(a, queue, b, id, a.projection.value.desiredActive, now)
      && b.risk == Some(a.risk.value.(alarmVersion := a.risk.value.alarmVersion + 1))
    else b.projection == a.projection && b.risk == a.risk && b.outbox == queue
  }

  /** What `save_created_work_order` leaves; a status it does not know rolls back. */
  ghost predicate SaveOutcome(a: Aggregate, b: Aggregate, event: nat, owner: string, reply: CmmsReply, now: Time) {
    if Holds(a, event, owner) && a.risk.Some? && a.outbox[event].alertId < |a.alerts|
       && a.outbox[event].alertId in a.workOrders && IsKnown(reply.status)
    then
      var id := a.outbox[event].alertId;
      && IsFollowed(a, b, id, reply, now) && b.workOrders[id].cmmsId == Some(reply.id)
      && b.workOrders[id].pollOwner == a.workOrders[id].pollOwner && b.workOrders[id].pollExpires == a.workOrders[id].pollExpires
      && FollowedByAlarm(a, a.outbox[event := a.outbox[event].(status := Delivered, owner := None, expires := None)], b, id, now)
    else b == a
  }

  lemma FollowRefreshes(a: Aggregate, id: Uuid, wo: WorkOrder, now: Time)
    requires a.risk.Some? && id < |a.alerts|
    ensures FollowedByAlarm(a, a.outbox, FollowOrder(a, id, wo, now), id, now)
  {
    if HasProjection(a, id) {
      RequeueRefreshes(Followed(a, id, wo), a.projection.value, now);
    }
  }

  lemma SaveIsExact(a: Aggregate, event: nat, owner: string, reply: CmmsReply, now: Time)
    ensures SaveOutcome(a, SaveCreated(a, event, owner, reply, now), event, owner, reply, now)
  {
    StatusIsText(reply.status);
    if Holds(a, event, owner) && a.risk.Some? && a.outbox[event].alertId < |a.alerts|
       && a.outbox[event].alertId in a.workOrders && IsKnown(reply.status)
    {
      var id, m := a.outbox[event].alertId, MaintenanceOf(reply.status).value;
      var wo := a.workOrders[id].(cmmsId := Some(reply.id), status := Some(reply.status),
                                  eventVersion := Some(reply.eventVersion), updatedAt := Some(reply.updatedAt),
                                  maintenance := m, nextPollAt := NextPoll(m, now));
      FollowRefreshes(SetEvent(a, event, a.outbox[event].(status := Delivered, owner := None, expires := None)), id, wo, now);
    }
  }

  /** The poll still holds its lease on a known order. */
  predicate HoldsPoll(a: Aggregate, id: Uuid, owner: string) {
    id < |a.alerts| && a.risk.Some? && id in a.workOrders && a.workOrders[id].pollOwner == Some(owner)
  }

  predicate IsNewer(wo: WorkOrder, reply: CmmsReply) {
    wo.eventVersion.None? || wo.eventVersion.value < reply.eventVersion
  }

  /** What `apply_status` answers, and what it leaves. */
  ghost predicate PollOutcome(a: Aggregate, b: Aggregate, id: Uuid, owner: string, reply: CmmsReply, now: Time, r: PollResult) {
    && (r.LeaseLost? <==> !HoldsPoll(a, id, owner))
    && (HoldsPoll(a, id, owner) ==>
          var wo := a.workOrders[id];
          && (r.StaleIgnored? <==> wo.eventVersion.Some? && reply.eventVersion < wo.eventVersion.value)
          && (r.Duplicate? <==> wo.eventVersion == Some(reply.eventVersion) && wo.status == Some(reply.status))
          && (r.VersionConflict? <==> wo.eventVersion == Some(reply.eventVersion) && wo.status != Some(reply.status))
          && (r.Applied? <==> IsNewer(wo, reply) && IsKnown(reply.status))
          && (r.StatusInvalid? <==> IsNewer(wo, reply) && !IsKnown(reply.status)))
    && (r.LeaseLost? || r.StatusInvalid? ==> b == a)
    && (r.StaleIgnored? || r.Duplicate? || r.VersionConflict? ==>
          var wo := a.workOrders[id];
          b == a.(workOrders := a.workOrders[id := wo.(pollOwner := None, pollExpires := None, nextPollAt :=
                     if ColumnText(wo.maintenance) == "WORK_ORDER_COMPLETE" then None else Some(now + 300))]))
    && (r.Applied? ==>
          && IsFollowed(a, b, id, reply, now) && FollowedByAlarm(a, a.outbox, b, id, now)
          && b.workOrders[id].cmmsId == a.workOrders[id].cmmsId
          && b.workOrders[id].pollOwner.None? && b.workOrders[id].pollExpires.None?)
  }

  lemma CompleteText(m: Maintenance)
    ensures m.WorkOrderComplete? <==> ColumnText(m) == "WORK_ORDER_COMPLETE"
  {
    assert "WORK_ORDER_COMPLETE"[11] == 'C' && "WORK_ORDER_COMPLETE"[12] == 'O';
    assert "PENDING_APPROVAL"[1] == 'E' && "APPROVED"[0] == 'A' && "SUPPRESSED_ACTIVE_WORK_ORDER"[0] == 'S';
    assert "WORK_ORDER_OPEN"[11] == 'O' && "WORK_ORDER_IN_PROGRESS"[11] == 'I' && "WORK_ORDER_ON_HOLD"[11] == 'O';
    assert "WORK_ORDER_CREATING"[12] == 'R' && "WORK_ORDER_CREATE_FAILED"[12] == 'R';
  }

  lemma PollIsExact(a: Aggregate, id: Uuid, owner: string, reply: CmmsReply, now: Time)
    ensures PollOutcome(a, ApplyStatus(a, id, owner, reply, now), id, owner, reply, now, PollDecision(a, id, owner, reply))
  {
    StatusIsText(reply.status);
    if HoldsPoll(a, id, owner) {
      CompleteText(a.workOrders[id].maintenance);
    }
    if PollDecision(a, id, owner, reply).Applied? {
      var m := MaintenanceOf(reply.status).value;
      FollowRefreshes(a, id,
                      a.workOrders[id].(pollOwner := None, pollExpires := None, eventVersion := Some(reply.eventVersion),
                                        status := Some(reply.status), updatedAt := Some(reply.updatedAt),
                                        maintenance := m, nextPollAt := NextPoll(m, now)),
                      now);
    }
  }

  /** An order that can be polled at `now`: created, not complete, its time has come, and no live lease on it. */
  predicate PollDue(wo: WorkOrder, now: Time) {
    && wo.cmmsId.Some? && ColumnText(wo.maintenance) != "WORK_ORDER_COMPLETE"
    && wo.nextPollAt.Some? && wo.nextPollAt.value <= now
    && (wo.pollOwner.None? || (wo.pollExpires.Some? && wo.pollExpires.value < now))
  }

  lemma DueIsPollable(wo: WorkOrder, now: Time)
    ensures Pollable(ExpirePoll(wo, now), now) <==> PollDue(wo, now)
  {
    CompleteText(wo.maintenance);
  }

  // ---------------------------------------------------------------- rounds

  /** A round that counts: no other run of an equal or later slot was accepted before. */
  predicate Counts(a: Aggregate, run: Uuid)
    requires run in a.slots && a.risk.Some?
  {
    var last := a.risk.value.lastRun;
    last.None? || last.value == run || (last.value in a.slots ==> a.slots[last.value] < a.slots[run])
  }

  /** The risk is on after a round exactly when it was on and did not see its second healthy round, or saw a second risky one. */
  predicate StaysOn(row: RiskRow, risky: bool) {
    if risky then row.counters.active || row.counters.riskCount >= 1
    else row.counters.active && row.counters.healthyCount == 0
  }

  /** The round's own evidence is on alert `id`, and the alarm follows. */
  ghost predicate IsRefreshed(a: Aggregate, b: Aggregate, id: Uuid, run: RunInfo, now: Time)
    requires id < |a.alerts|
  {
    && b.alerts == a.alerts[id := a.alerts[id].(runId := run.runId, forecast := run.forecast,
                                                version := a.alerts[id].version + 1,
                                                phase := if RiskOn(b) then RiskActive else RiskCleared)]
    && Refreshed(a, a.outbox, b, id, RiskOn(b), now)
    && b.workOrders == a.workOrders && b.actions == a.actions && b.slots == a.slots
  }

  lemma CurrentIsRefreshed(a: Aggregate, id: Uuid, run: RunInfo, mapping: Option<Mapping>, pilot: Option<Uuid>, now: Time)
    requires run.runId in a.slots && RiskOn(a) && Counts(a, run.runId) && mapping.Some?
    requires a.risk.value.alertId == Some(id) && HasProjection(a, id) && id < |a.alerts| && a.alerts[id].phase.RiskActive?
    ensures var b := RoundSucceeded(a, run, mapping, pilot, now);
            (RiskOn(b) <==> StaysOn(a.risk.value, run.risky)) && IsRefreshed(a, b, id, run, now)
  {
    var row := RecordRound(a.risk.value, run.runId, run.risky);
    var b := RefreshAlert(a.(risk := Some(row)), id, run, row.counters.active);
    RequeueRefreshes(b, b.projection.value.(desiredActive := row.counters.active), now);
  }

  lemma CurrentAlert(a: Aggregate)
    requires Inv(a) && RiskOn(a)
    ensures var id := |a.alerts| - 1;
            id >= 0 && a.risk.value.alertId == Some(id) && HasProjection(a, id) && a.alerts[id].phase.RiskActive?
  {
    InvIsCoherent(a);
  }

  /** The current alert of a running risk: the last one, active, and the owner of the projection. */
  predicate HasHead(a: Aggregate) {
    && RiskOn(a) && a.alerts != [] && a.risk.value.alertId == Some(|a.alerts| - 1)
    && HasProjection(a, |a.alerts| - 1) && a.alerts[|a.alerts| - 1].phase.RiskActive?
  }

  /**
    Over every run, while the risk is on, a round that counts gives the current alert its own run and forecast and a
    higher version, and clears it exactly when the risk goes off; nothing else of it changes, no other alert does, and the
    alarm follows.
   */
  lemma OngoingRoundRefreshes(key: Key, ts: seq<Txn>, run: RunInfo, mapping: Option<Mapping>, pilot: Option<Uuid>, now: Time)
    requires var a := Run(Empty(key), ts);
             run.runId in a.slots && RiskOn(a) && Counts(a, run.runId) && mapping.Some?
    ensures var a := Run(Empty(key), ts);
            var b := RoundSucceeded(a, run, mapping, pilot, now);
            && HasHead(a) && (RiskOn(b) <==> StaysOn(a.risk.value, run.risky)) && IsRefreshed(a, b, |a.alerts| - 1, run, now)
  {
    var a := Run(Empty(key), ts);
    assert HasHead(a) by {
      EmptyInv(key);
      RunKeepsInv(Empty(key), ts);
      CurrentAlert(a);
    }
    HeadIsRefreshed(a, |a.alerts| - 1, run, mapping, pilot, now, RoundSucceeded(a, run, mapping, pilot, now));
  }

  lemma HeadIsRefreshed(a: Aggregate, id: Uuid, run: RunInfo, mapping: Option<Mapping>, pilot: Option<Uuid>, now: Time,
                        b: Aggregate)
    requires run.runId in a.slots && RiskOn(a) && Counts(a, run.runId) && mapping.Some?
    requires a.risk.value.alertId == Some(id) && HasProjection(a, id) && id < |a.alerts| && a.alerts[id].phase.RiskActive?
    requires b == RoundSucceeded(a, run, mapping, pilot, now)
    ensures (RiskOn(b) <==> StaysOn(a.risk.value, run.risky)) && IsRefreshed(a, b, id, run, now)
  {
    CurrentIsRefreshed(a, id, run, mapping, pilot, now);
  }

  /** The projection has moved to the new alert, on the mapped device and without an alarm yet. */
  ghost predicate IsProjected(a: Aggregate, b: Aggregate, mapping: Mapping, now: Time) {
    var n := |a.alerts|;
    && RiskOn(b) && |b.alerts| == n + 1 && b.alerts[..n] == a.alerts && b.risk.value.alertId == Some(n)
    && b.risk.value.alarmVersion == AlarmVersion(a) + 1
    && HasProjection(b, n)
    && (var q := b.projection.value;
        && q.deviceId == mapping.deviceId && q.alarmId.None? && q.desiredActive && q.version == b.risk.value.alarmVersion
        && Pictures(q.details, b.key, n, b.alerts[n], b.workOrders))
    && AlarmQueued(a.outbox, b.outbox, if a.projection.Some? then {n, a.projection.value.alertId} else {n}, n,
                   b.risk.value.alarmVersion, now)
    && b.workOrders == a.workOrders && b.actions == a.actions && b.slots == a.slots
  }

  lemma NewAlertIsProjected(a: Aggregate, run: RunInfo, mapping: Mapping, pilot: Option<Uuid>, now: Time)
    requires RiskOn(a) && (a.projection.Some? ==> a.projection.value.alertId < |a.alerts|)
    ensures IsProjected(a, ReplaceProjection(OpenEpisode(a, run, pilot), |a.alerts|, mapping.deviceId, true, now), mapping, now)
  {
    var n := |a.alerts|;
    var ids := if a.projection.Some? then {n, a.projection.value.alertId} else {n};
    var after := SupersedeWaiting(a.outbox, ids);
    forall i | 0 <= i < |a.outbox| ensures after[i] == SupersedeEvent(a.outbox[i], ids) {}
  }

  /** Over every run a round that raises the risk opens an alert after the others and moves the projection to it. */
  lemma RisingRoundProjects(key: Key, ts: seq<Txn>, run: RunInfo, mapping: Option<Mapping>, pilot: Option<Uuid>, now: Time)
    requires var a := Run(Empty(key), ts);
             && run.runId in a.slots && a.risk.Some? && !RiskOn(a) && Counts(a, run.runId) && mapping.Some?
             && StaysOn(a.risk.value, run.risky)
    ensures var a := Run(Empty(key), ts);
            IsProjected(a, RoundSucceeded(a, run, mapping, pilot, now), mapping.value, now)
  {
    var a := Run(Empty(key), ts);
    assert a.projection.Some? ==> a.projection.value.alertId < |a.alerts| by {
      EmptyInv(key);
      RunKeepsInv(Empty(key), ts);
      InvIsCoherent(a);
    }
    RoundRises(a, run, mapping, pilot, now);
    NewAlertIsProjected(a.(risk := Some(RecordRound(a.risk.value, run.runId, run.risky))), run, mapping.value, pilot, now);
  }

  lemma RoundRises(a: Aggregate, run: RunInfo, mapping: Option<Mapping>, pilot: Option<Uuid>, now: Time)
    requires run.runId in a.slots && a.risk.Some? && !RiskOn(a) && Counts(a, run.runId) && mapping.Some?
    requires StaysOn(a.risk.value, run.risky)
    ensures var row := RecordRound(a.risk.value, run.runId, run.risky);
            && row.counters.active && row.alarmVersion == a.risk.value.alarmVersion
            && RoundSucceeded(a, run, mapping, pilot, now) ==
               ReplaceProjection(OpenEpisode(a.(risk := Some(row)), run, pilot), |a.alerts|, mapping.value.deviceId, true, now)
  {}

  /** Over every run a round that does not count, or that should be projected without a mapping, changes nothing. */
  lemma RefusedRoundRests(key: Key, ts: seq<Txn>, run: RunInfo, mapping: Option<Mapping>, pilot: Option<Uuid>, now: Time)
    requires var a := Run(Empty(key), ts);
             && run.runId in a.slots && a.risk.Some?
             && (!Counts(a, run.runId) || (mapping.None? && (RiskOn(a) || StaysOn(a.risk.value, run.risky))))
    ensures RoundSucceeded(Run(Empty(key), ts), run, mapping, pilot, now) == Run(Empty(key), ts)
  {
    var a := Run(Empty(key), ts);
    assert RiskOn(a) ==> HasHead(a) by {
      EmptyInv(key);
      RunKeepsInv(Empty(key), ts);
      if RiskOn(a) {
        CurrentAlert(a);
      }
    }
    RefusedRound(a, run, mapping, pilot, now);
  }

  lemma RefusedRound(a: Aggregate, run: RunInfo, mapping: Option<Mapping>, pilot: Option<Uuid>, now: Time)
    requires run.runId in a.slots && a.risk.Some? && (RiskOn(a) ==> HasHead(a))
    requires !Counts(a, run.runId) || (mapping.None? && (RiskOn(a) || StaysOn(a.risk.value, run.risky)))
    ensures RoundSucceeded(a, run, mapping, pilot, now) == a
  {}

  /** A calm round that counts only moves the risk row. */
  lemma CalmRoundOnlyCounts(a: Aggregate, run: RunInfo, mapping: Option<Mapping>, pilot: Option<Uuid>, now: Time)
    requires run.runId in a.slots && a.risk.Some? && Counts(a, run.runId)
    requires !RiskOn(a) && !StaysOn(a.risk.value, run.risky)
    ensures var row := a.risk.value;
            RoundSucceeded(a, run, mapping, pilot, now) ==
            a.(risk := Some(row.(lastRun := Some(run.runId), version := row.version + 1,
                                 counters := if run.risky then Counters(row.counters.riskCount + 1, 0, false)
                                             else Counters(0, row.counters.healthyCount + 1, false))))
  {}
}
