/**
  The tables as an object that the transactions update in place. Each method is one committed or rolled-back
  transaction and is proved to do what the transaction of the same name does to the aggregate.
 */
module ClosedLoopStore {
  import opened Basics
  import opened RiskStates
  import opened ClosedLoop
  import opened ClosedLoopOutcomes

  /** The row `ORDER BY available_at, created_at LIMIT 1` picks among the first `n`. */
  function FirstClaimable(outbox: seq<Event>, n: nat, kind: EventKind, now: Time): (r: Option<nat>)
    requires n <= |outbox|
    ensures r.Some? ==> r.value < n && Claimable(outbox[r.value], kind, now)
    ensures r.Some? ==> forall i :: 0 <= i < n && Claimable(outbox[i], kind, now) ==>
                          outbox[r.value].availableAt <= outbox[i].availableAt
                          && (outbox[r.value].availableAt == outbox[i].availableAt ==> r.value <= i)
    ensures r.None? ==> forall i :: 0 <= i < n ==> !Claimable(outbox[i], kind, now)
  {
    if n == 0 then None
    else
      var best := FirstClaimable(outbox, n - 1, kind, now);
      if Claimable(outbox[n - 1], kind, now)
         && (best.None? || outbox[n - 1].availableAt < outbox[best.value].availableAt)
      then Some(n - 1) else best
  }

  /** Event `i` is claimable, none is available earlier, and none inserted before it equally early. */
  predicate IsFirst(outbox: seq<Event>, i: nat, kind: EventKind, now: Time) {
    && i < |outbox| && Claimable(outbox[i], kind, now)
    && forall j :: 0 <= j < |outbox| && Claimable(outbox[j], kind, now) ==>
         outbox[i].availableAt <= outbox[j].availableAt && (outbox[i].availableAt == outbox[j].availableAt ==> i <= j)
  }

  /** Order `id` is due, and none that is due has an earlier poll time. */
  predicate IsFirstDue(orders: map<Uuid, WorkOrder>, id: Uuid, now: Time) {
    && id in orders && Pollable(orders[id], now)
    && forall i :: i in orders && Pollable(orders[i], now) ==> orders[id].nextPollAt.value <= orders[i].nextPollAt.value
  }

  lemma {:induction false} EarliestExists(orders: map<Uuid, WorkOrder>, due: set<Uuid>) returns (id: Uuid)
    requires due != {} && forall i :: i in due ==> i in orders && orders[i].nextPollAt.Some?
    ensures id in due
    ensures forall i :: i in due ==> orders[id].nextPollAt.value <= orders[i].nextPollAt.value
    decreases |due|
  {
    id :| id in due;
    var rest := due - {id};
    if rest != {} {
      var other := EarliestExists(orders, rest);
      if orders[other].nextPollAt.value < orders[id].nextPollAt.value {
        id := other;
      }
    }
  }

  class Store {
    const key: Key
    var slots: map<Uuid, Time>
    var risk: Option<RiskRow>
    var alerts: seq<Alert>
    var projection: Option<Projection>
    var workOrders: map<Uuid, WorkOrder>
    var outbox: seq<Event>
    var actions: map<ActionKey, ActionRow>

    ghost function View(): Aggregate
      reads this
    {
      Aggregate(key, slots, risk, alerts, projection, workOrders, outbox, actions)
    }

    constructor (key: Key)
      ensures View() == Empty(key)
    {
      this.key := key;
      slots, risk, alerts, projection := map[], None, [], None;
      workOrders, outbox, actions := map[], [], map[];
    }

    method CreateSlot(run: Uuid, at: Time)
      modifies this
      ensures View() == Step(old(View()), NewSlot(run, at))
    {
      if run !in slots {
        slots := slots[run := at];
      }
    }

    // -------------------------------------------------------------- closed_loop.py

    /** Writes the projection back, retires waiting events of `ids` and queues the new version. */
    method RequeueProjection(p: Projection, ids: set<Uuid>, now: Time)
      requires risk.Some? && p.alertId < |alerts|
      modifies this`risk, this`projection, this`outbox
      ensures View() == Requeue(old(View()), p, ids, now)
    {
      var state := risk.value;
      state := state.(alarmVersion := state.alarmVersion + 1);
      risk := Some(state);
      var row := p.(version := state.alarmVersion);
      row := row.(details := DetailsOf(key, p.alertId, alerts[p.alertId], workOrders));
      projection := Some(row);
      outbox := SupersedeWaiting(outbox, ids);
      outbox := outbox + [NewEvent(AlarmSync, p.alertId, state.alarmVersion, now)];
    }

    method ReplaceProjectionRow(id: Uuid, deviceId: Uuid, desired: bool, now: Time)
      requires risk.Some? && id < |alerts|
      modifies this`risk, this`projection, this`outbox
      ensures View() == ReplaceProjection(old(View()), id, deviceId, desired, now)
    {
      var superseded := {id};
      var existing := projection;
      if existing.Some? && existing.value.alertId != id {
        superseded := superseded + {existing.value.alertId};
        existing := None;
      }
      var row;
      if existing.None? {
        row := Projection(id, deviceId, None, desired, 0, DetailsOf(key, id, alerts[id], workOrders));
      } else {
        row := existing.value;
        row := row.(desiredActive := desired);
      }
      assert superseded == if projection.Some? && projection.value.alertId != id then {id, projection.value.alertId} else {id};
      RequeueProjection(row, superseded, now);
    }

    method CreateAlert(run: RunInfo, pilot: Option<Uuid>) returns (id: Uuid)
      requires risk.Some?
      modifies this`risk, this`alerts
      ensures id == old(|alerts|) && View() == OpenEpisode(old(View()), run, pilot)
    {
      var episode := MaxEpisode(alerts) + 1;
      var active := exists i :: i in workOrders && OpenAt(workOrders, i);
      var allowed := pilot == Some(key.equipmentId) && !active;
      var maintenance := if active then SuppressedActiveWorkOrder else PendingApproval;
      id := |alerts|;
      alerts := alerts + [Alert(episode, run.runId, run.provenance, run.forecast, RiskActive, maintenance, allowed, 1)];
      risk := Some(risk.value.(alertId := Some(id)));
    }

    /** Projects a committed transition of the risk row; false is the rolled-back missing mapping. */
    method ApplyTransition(run: RunInfo, wasActive: bool, mapping: Option<Mapping>, pilot: Option<Uuid>, now: Time)
      returns (committed: bool)
      requires risk.Some?
      modifies this
      ensures committed <==> Apply(old(View()), run, wasActive, mapping, pilot, now).Some?
      ensures committed ==> View() == Apply(old(View()), run, wasActive, mapping, pilot, now).value
      ensures !committed ==> View() == old(View())
    {
      var state := risk.value;
      var becameActive := !wasActive && state.counters.active;
      var becameClear := wasActive && !state.counters.active;
      if !state.counters.active && !becameClear {
        return true;
      }
      if !becameActive && (state.alertId.None? || state.alertId.value >= |alerts|) {
        return true;
      }
      if mapping.None? {
        return false;
      }
      var id;
      if becameActive {
        id := CreateAlert(run, pilot);
      } else {
        id := state.alertId.value;
        var alert := alerts[id];
        alert := alert.(runId := run.runId, forecast := run.forecast);
        if becameClear {
          alert := alert.(phase := RiskCleared);
        }
        alert := alert.(version := alert.version + 1);
        alerts := alerts[id := alert];
      }
      ReplaceProjectionRow(id, mapping.value.deviceId, state.counters.active, now);
      return true;
    }

    /** The state half of `succeed`: the row is created if missing and only the newest round counts. */
    method Succeed(run: RunInfo, mapping: Option<Mapping>, pilot: Option<Uuid>, now: Time)
      requires run.runId in slots
      modifies this
      ensures View() == RoundSucceeded(old(View()), run, mapping, pilot, now)
    {
      var before := risk;
      if risk.None? {
        risk := Some(NEW_ROW);
      }
      var state := risk.value;
      if !IsNewest(slots, state, run.runId) {
        return;
      }
      var wasActive := state.counters.active;
      var next := Advance(state.counters, run.risky, true);
      state := state.(counters := next);
      state := state.(lastRun := Some(run.runId));
      state := state.(version := state.version + 1);
      risk := Some(state);
      var committed := ApplyTransition(run, wasActive, mapping, pilot, now);
      if !committed {
        risk := before;
      }
    }

    method ResetRiskCounters(run: Uuid, upsert: bool)
      requires run in slots
      modifies this`risk
      ensures View() == RoundFailed(old(View()), run, upsert)
    {
      if upsert && risk.None? {
        risk := Some(NEW_ROW);
      }
      if risk.None? || !IsNewest(slots, risk.value, run) {
        return;
      }
      var state := risk.value;
      state := state.(counters := Counters(0, 0, state.counters.active));
      state := state.(lastRun := Some(run), version := state.version + 1);
      risk := Some(state);
    }

    // -------------------------------------------------------------- maintenance_actions.py

    method QueueAlarmRefresh(id: Uuid, now: Time)
      requires risk.Some? && id < |alerts| && HasProjection(View(), id)
      modifies this`risk, this`projection, this`outbox
      ensures View() == QueueRefresh(old(View()), id, now)
    {
      var row := projection.value;
      row := row.(desiredActive := alerts[id].phase.RiskActive?);
      RequeueProjection(row, {id}, now);
    }

    method CreateOrder(call: ActionCall) returns (reply: Result<Reply, ActionError>)
      modifies this
      ensures ActionOutcome(View(), reply) == CreateWorkOrder(old(View()), call)
      ensures CreateOutcome(old(View()), View(), call, reply)
    {
      ghost var was := View();
      reply := StoreOrder(call);
      CreateIsExact(was, call);
    }

    method StoreOrder(call: ActionCall) returns (reply: Result<Reply, ActionError>)
      modifies this
      ensures ActionOutcome(View(), reply) == CreateWorkOrder(old(View()), call)
    {
      var id := call.auth.alertId;
      if call.key != ActionKey(id, CreateAction) { return Err(IdempotencyKeyInvalid); }
      if risk.None? { return Err(ProjectionNotReady); }
      if id >= |alerts| { return Err(AlertNotFound); }
      if call.key in actions {
        reply := ReplayAction(call);
        return;
      }
      if projection.None? || projection.value.alertId != id || projection.value.alarmId != Some(call.auth.alarm.alarmId)
         || call.mapping.None? || !call.mapping.value.enabled || !call.mapping.value.active
         || call.mapping.value.deviceId != call.auth.alarm.deviceId
         || call.tenant.None? || !call.tenant.value.enabled || call.tenant.value.tbTenantId != call.auth.userTenantId
      {
        return Err(PlanDrift);
      }
      var alert, mapping := alerts[id], call.mapping.value;
      var refusal := ActionableError(alert, call.auth.alarm, mapping);
      if refusal.Some? { return Err(refusal.value); }
      if call.expectedVersion != alert.version { return Err(VersionStale); }
      if call.confirmed != Sha256(PlanOf(key, call.auth, alert, call.tenant.value, mapping)) { return Err(PlanDrift); }
      var result := ResultOf(call, alert);
      actions := actions[call.key := ActionRow(call.auth.userId, call.requestDigest, call.expectedVersion, result)];
      workOrders := workOrders[id := NewWorkOrder(RequestOf(key, id, alert, call.auth.alarm, mapping))];
      outbox := outbox + [NewEvent(WorkOrderCreate, id, 1, call.now)];
      alert := alert.(maintenance := WorkOrderCreating);
      alert := alert.(actionAllowed := false);
      alert := alert.(version := alert.version + 1);
      alerts := alerts[id := alert];
      assert View() == AcceptCreate(old(View()), call);
      QueueAlarmRefresh(id, call.now);
      return Ok(Reply(result, false));
    }

    method ReplayAction(call: ActionCall) returns (reply: Result<Reply, ActionError>)
      requires call.key in actions
      ensures ActionOutcome(View(), reply) == Replay(View(), call)
    {
      var row := actions[call.key];
      if row.requestDigest != call.requestDigest || row.actorId != call.auth.userId {
        return Err(IdempotencyConflict);
      }
      return Ok(Reply(row.result, true));
    }

    method CloseAlert(call: ActionCall) returns (reply: Result<Reply, ActionError>)
      modifies this
      ensures ActionOutcome(View(), reply) == CloseRisk(old(View()), call)
      ensures CloseOutcome(old(View()), View(), call, reply)
    {
      CloseIsExact(View(), call);
      var id := call.auth.alertId;
      if !ReasonGiven(call.reason) { return Err(ReasonRequired); }
      if call.key != ActionKey(id, CloseAction) { return Err(IdempotencyKeyInvalid); }
      if risk.None? { return Err(ProjectionNotReady); }
      if id >= |alerts| { return Err(AlertNotFound); }
      if call.key in actions {
        reply := ReplayAction(call);
        return;
      }
      var alert := alerts[id];
      if call.expectedVersion != alert.version || !alert.phase.RiskActive? { return Err(VersionStale); }
      if projection.None? || projection.value.alertId != id { return Err(ProjectionNotReady); }
      var result := ResultOf(call, alert);
      actions := actions[call.key := ActionRow(call.auth.userId, call.requestDigest, call.expectedVersion, result)];
      alert := alert.(phase := RiskManuallyClosed);
      alert := alert.(actionAllowed := false);
      alert := alert.(version := alert.version + 1);
      alerts := alerts[id := alert];
      var state := risk.value;
      state := state.(counters := Counters(0, 0, false));
      state := state.(version := state.version + 1);
      risk := Some(state);
      assert View() == AcceptClose(old(View()), call);
      QueueAlarmRefresh(id, call.now);
      return Ok(Reply(result, false));
    }

    // -------------------------------------------------------------- closed_loop_delivery.py

    /** Expires stale leases, then claims the earliest available event. */
    method ClaimNextEvent(kind: EventKind, owner: string, now: Time) returns (claim: Option<nat>)
      modifies this`outbox
      ensures claim.Some? <==> exists i :: 0 <= i < old(|outbox|) && Due(old(outbox)[i], kind, now)
      ensures claim.None? ==> View() == ClaimOutbox(old(View()), kind, old(|outbox|), owner, now)
      ensures claim.None? ==> forall i :: 0 <= i < |outbox| ==> !Claimable(outbox[i], kind, now)
      ensures claim.Some? ==> View() == ClaimOutbox(old(View()), kind, claim.value, owner, now)
      ensures claim.Some? ==> IsFirst(ExpireLeases(old(outbox), kind, now), claim.value, kind, now)
      ensures claim.Some? ==> claim.value < old(|outbox|)
                              && Claimable(ExpireEvent(old(outbox)[claim.value], kind, now), kind, now)
      ensures claim.Some? ==> Holds(View(), claim.value, owner) && outbox[claim.value].kind == kind
                              && outbox[claim.value].attempt <= MAX_ATTEMPTS
    {
      forall i | 0 <= i < |outbox| ensures Claimable(ExpireEvent(outbox[i], kind, now), kind, now) <==> Due(outbox[i], kind, now) {}
      outbox := ExpireLeases(outbox, kind, now);
      claim := FirstClaimable(outbox, |outbox|, kind, now);
      if claim.Some? {
        var event := outbox[claim.value];
        event := event.(status := InFlight);
        event := event.(attempt := event.attempt + 1);
        event := event.(owner := Some(owner));
        event := event.(expires := Some(now + LEASE_SECONDS));
        outbox := outbox[claim.value := event];
      }
    }

    /** `alarm_delivery`. */
    method ReadAlarm(event: nat, owner: string) returns (delivery: Option<Projection>)
      ensures delivery == AlarmDelivery(View(), event, owner)
    {
      if event >= |outbox| || !outbox[event].status.InFlight? || outbox[event].owner != Some(owner)
         || projection.None? || projection.value.alertId != outbox[event].alertId
      {
        return None;
      }
      return projection;
    }

    /** `work_order_delivery`: the alert and the stored request. */
    method ReadOrder(event: nat, owner: string) returns (delivery: Option<(Uuid, RequestBody)>)
      ensures delivery.Some? <==> Holds(View(), event, owner) && outbox[event].alertId in workOrders
      ensures delivery.Some? ==> delivery.value == (outbox[event].alertId, workOrders[outbox[event].alertId].body)
    {
      if event >= |outbox| || !outbox[event].status.InFlight? || outbox[event].owner != Some(owner)
         || outbox[event].alertId !in workOrders
      {
        return None;
      }
      return Some((outbox[event].alertId, workOrders[outbox[event].alertId].body));
    }

    method Finish(event: nat, owner: string, status: EventStatus)
      modifies this`outbox
      ensures View() == FinishEvent(old(View()), event, owner, status)
    {
      if event < |outbox| && outbox[event].status.InFlight? && outbox[event].owner == Some(owner) {
        var row := outbox[event];
        row := row.(status := status);
        row := row.(owner := None, expires := None);
        outbox := outbox[event := row];
      }
    }

    method RetryLater(event: nat, owner: string, now: Time)
      modifies this`outbox
      ensures View() == RetryEvent(old(View()), event, owner, now)
    {
      if event < |outbox| && outbox[event].status.InFlight? && outbox[event].owner == Some(owner) {
        var row := outbox[event];
        row := row.(owner := None, expires := None);
        if row.attempt >= MAX_ATTEMPTS {
          row := row.(status := DeadLetter);
        } else {
          row := row.(status := RetryWait);
          var delay := Min(300, Pow2(Min(row.attempt, 8)));
          row := row.(availableAt := now + delay);
        }
        outbox := outbox[event := row];
      }
    }

    /** False is the raised identity conflict. */
    method SaveAlarmIdentity(event: nat, owner: string, alertId: Uuid, alarmId: Uuid) returns (ok: bool)
      modifies this`outbox, this`projection
      ensures View() == SaveAlarmId(old(View()), event, owner, alertId, alarmId)
      ensures !ok ==> View() == old(View())
    {
      if projection.None? || projection.value.alertId != alertId
         || event >= |outbox| || !outbox[event].status.InFlight? || outbox[event].owner != Some(owner)
      {
        return true;
      }
      if projection.value.alarmId.Some? && projection.value.alarmId.value != alarmId {
        return false;
      }
      projection := Some(projection.value.(alarmId := Some(alarmId)));
      var row := outbox[event];
      row := row.(status := Delivered);
      row := row.(owner := None, expires := None);
      outbox := outbox[event := row];
      return true;
    }

    method QueueAlarmDetails(id: Uuid, now: Time)
      requires risk.Some? && id < |alerts|
      modifies this`risk, this`projection, this`outbox
      ensures View() == QueueDetails(old(View()), id, now)
    {
      if projection.None? || projection.value.alertId != id {
        return;
      }
      RequeueProjection(projection.value, {id}, now);
    }

    method SaveCreatedOrder(event: nat, owner: string, reply: CmmsReply, now: Time)
      modifies this
      ensures View() == SaveCreated(old(View()), event, owner, reply, now)
      ensures SaveOutcome(old(View()), View(), event, owner, reply, now)
    {
      ghost var was := View();
      StoreCreation(event, owner, reply, now);
      SaveIsExact(was, event, owner, reply, now);
    }

    method StoreCreation(event: nat, owner: string, reply: CmmsReply, now: Time)
      modifies this
      ensures View() == SaveCreated(old(View()), event, owner, reply, now)
    {
      if event >= |outbox| || !outbox[event].status.InFlight? || outbox[event].owner != Some(owner) { return; }
      var id := outbox[event].alertId;
      if id >= |alerts| || risk.None? || id !in workOrders { return; }
      var m := MaintenanceOf(reply.status);
      if m.None? { return; }
      var wo := workOrders[id];
      wo := wo.(cmmsId := Some(reply.id), status := Some(reply.status));
      wo := wo.(eventVersion := Some(reply.eventVersion), updatedAt := Some(reply.updatedAt));
      wo := wo.(maintenance := m.value);
      wo := wo.(nextPollAt := NextPoll(wo.maintenance, now));
      workOrders := workOrders[id := wo];
      var alert := alerts[id];
      alert := alert.(maintenance := wo.maintenance);
      alert := alert.(version := alert.version + 1);
      alerts := alerts[id := alert];
      var row := outbox[event];
      row := row.(status := Delivered);
      row := row.(owner := None, expires := None);
      outbox := outbox[event := row];
      QueueAlarmDetails(id, now);
    }

    /** Expires stale poll leases, then leases the due work order with the earliest poll time. */
    method ClaimStatusPoll(owner: string, now: Time) returns (claim: Option<Uuid>)
      modifies this`workOrders
      ensures claim.None? ==> forall id :: id in workOrders ==> !Pollable(workOrders[id], now)
      ensures claim.None? ==> View() == old(View()).(workOrders := ExpirePolls(old(workOrders), now))
      ensures claim.Some? ==> View() == ClaimPoll(old(View()), claim.value, owner, now)
      ensures claim.Some? ==> IsFirstDue(ExpirePolls(old(workOrders), now), claim.value, now)
      ensures claim.Some? ==> claim.value in workOrders && workOrders[claim.value].pollOwner == Some(owner)
      ensures claim.Some? <==> exists id :: id in old(workOrders) && PollDue(old(workOrders)[id], now)
      ensures claim.Some? ==>
                claim.value in old(workOrders) && workOrders[claim.value] ==
                old(workOrders)[claim.value].(pollOwner := Some(owner), pollExpires := Some(now + 30))
    {
      forall id | id in workOrders ensures Pollable(ExpirePoll(workOrders[id], now), now) <==> PollDue(workOrders[id], now) {
        DueIsPollable(workOrders[id], now);
      }
      workOrders := ExpirePolls(workOrders, now);
      var due := set id | id in workOrders && Pollable(workOrders[id], now);
      if due == {} {
        assert forall id :: id in workOrders ==> id in due || !Pollable(workOrders[id], now);
        forall id | id in old(workOrders) ensures !PollDue(old(workOrders)[id], now) {
          assert id in workOrders && workOrders[id] == ExpirePoll(old(workOrders)[id], now);
        }
        return None;
      }
      ghost var first := EarliestExists(workOrders, due);
      var id :| id in due && forall i :: i in due ==> workOrders[id].nextPollAt.value <= workOrders[i].nextPollAt.value;
      var row := workOrders[id];
      row := row.(pollOwner := Some(owner));
      row := row.(pollExpires := Some(now + LEASE_SECONDS));
      workOrders := workOrders[id := row];
      return Some(id);
    }

    method ApplyPolledStatus(id: Uuid, owner: string, reply: CmmsReply, now: Time) returns (result: PollResult)
      modifies this
      ensures result == PollDecision(old(View()), id, owner, reply)
      ensures View() == ApplyStatus(old(View()), id, owner, reply, now)
      ensures PollOutcome(old(View()), View(), id, owner, reply, now, result)
    {
      ghost var was := View();
      result := StoreStatus(id, owner, reply, now);
      PollIsExact(was, id, owner, reply, now);
    }

    method StoreStatus(id: Uuid, owner: string, reply: CmmsReply, now: Time) returns (result: PollResult)
      modifies this
      ensures result == PollDecision(old(View()), id, owner, reply)
      ensures View() == ApplyStatus(old(View()), id, owner, reply, now)
    {
      if id >= |alerts| || risk.None? { return LeaseLost; }
      if id !in workOrders || workOrders[id].pollOwner != Some(owner) { return LeaseLost; }
      var row := workOrders[id];
      var current := row.eventVersion;
      var alert := alerts[id];
      if current.Some? && reply.eventVersion < current.value {
        result := StaleIgnored;
      } else if current == Some(reply.eventVersion) {
        result := if row.status != Some(reply.status) then VersionConflict else Duplicate;
      } else {
        var m := MaintenanceOf(reply.status);
        if m.None? { return StatusInvalid; }
        row := row.(eventVersion := Some(reply.eventVersion), status := Some(reply.status));
        row := row.(updatedAt := Some(reply.updatedAt), maintenance := m.value);
        alert := alert.(maintenance := m.value);
        alert := alert.(version := alert.version + 1);
        result := Applied;
      }
      row := row.(nextPollAt := NextPoll(row.maintenance, now));
      row := row.(pollOwner := None, pollExpires := None);
      workOrders := workOrders[id := row];
      if result.Applied? {
        alerts := alerts[id := alert];
        QueueAlarmDetails(id, now);
      }
    }

    method FailStatusPoll(id: Uuid, owner: string, now: Time)
      modifies this`workOrders
      ensures View() == FailPoll(old(View()), id, owner, now)
      ensures workOrders == if id in old(workOrders) && old(workOrders)[id].pollOwner == Some(owner)
                            then old(workOrders)[id := old(workOrders)[id].(nextPollAt := Some(now + 300),
                                                                            pollOwner := None, pollExpires := None)]
                            else old(workOrders)
    {
      if id in workOrders && workOrders[id].pollOwner == Some(owner) {
        var row := workOrders[id];
        row := row.(nextPollAt := Some(now + POLL_SECONDS));
        row := row.(pollOwner := None, pollExpires := None);
        workOrders := workOrders[id := row];
      }
    }
  }
}
