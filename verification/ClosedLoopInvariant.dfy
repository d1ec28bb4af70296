/** What every transaction of the closed loop keeps. */
module ClosedLoopInvariant {
  import opened Basics
  import opened RiskStates
  import opened ClosedLoop

  // ---------------------------------------------------------------- the invariant

  /** Alerts are numbered 1, 2, 3, ... and only the newest can be active. */
  ghost predicate EpisodesOk(alerts: seq<Alert>) {
    forall i :: 0 <= i < |alerts| ==>
      && alerts[i].episode == i + 1
      && alerts[i].version >= 1
      && (alerts[i].phase.RiskActive? ==> i == |alerts| - 1)
  }

  /** The projection of a non-empty aggregate is the exact cached picture of the newest alert. */
  ghost predicate ProjectionOk(key: Key, row: RiskRow, alerts: seq<Alert>, p: Projection, orders: map<Uuid, WorkOrder>)
    requires alerts != []
  {
    var id := |alerts| - 1;
    && row.alertId == Some(id)
    && p.alertId == id
    && 1 <= p.version == row.alarmVersion
    && p.desiredActive == row.counters.active
    && p.desiredActive == alerts[id].phase.RiskActive?
    && p.details == DetailsOf(key, id, alerts[id], orders)
    && (id in orders ==> p.alarmId == Some(orders[id].body.alarmId))
  }

  ghost predicate CacheOk(key: Key, risk: Option<RiskRow>, alerts: seq<Alert>, projection: Option<Projection>,
                          orders: map<Uuid, WorkOrder>)
  {
    if alerts == [] then
      && projection.None?
      && (risk.Some? ==> risk.value.alertId.None? && !risk.value.counters.active && risk.value.alarmVersion == 0)
    else
      risk.Some? && projection.Some? && ProjectionOk(key, risk.value, alerts, projection.value, orders)
  }

  ghost predicate OrderOk(key: Key, id: Uuid, alert: Alert, wo: WorkOrder) {
    && wo.maintenance == alert.maintenance
    && (IsOpen(wo.maintenance) || wo.maintenance.WorkOrderComplete?)
    && (wo.cmmsId.None? <==> wo.maintenance.WorkOrderCreating?)
    && (wo.cmmsId.None? <==> wo.status.None?)
    && (wo.cmmsId.None? <==> wo.eventVersion.None?)
    && (wo.status.Some? ==> MaintenanceOf(wo.status.value) == Some(wo.maintenance))
    && (wo.nextPollAt.Some? <==> wo.cmmsId.Some? && !wo.maintenance.WorkOrderComplete?)
    && (wo.pollOwner.Some? ==> wo.cmmsId.Some? && !wo.maintenance.WorkOrderComplete?)
    && (wo.pollOwner.Some? <==> wo.pollExpires.Some?)
    && wo.body.key == key
    && wo.body.alertId == id
    && wo.body.provenance == alert.provenance
  }

  ghost predicate AlertOk(alert: Alert, hasOrder: bool) {
    && (!hasOrder ==> alert.maintenance.PendingApproval? || alert.maintenance.SuppressedActiveWorkOrder?)
    && (alert.actionAllowed ==> alert.maintenance.PendingApproval?)
  }

  ghost predicate OrdersOk(key: Key, alerts: seq<Alert>, orders: map<Uuid, WorkOrder>) {
    && (forall id :: id in orders ==> id < |alerts| && OrderOk(key, id, alerts[id], orders[id]))
    && (forall i: nat :: i < |alerts| ==> AlertOk(alerts[i], i in orders))
  }

  /** At most one work order is open, and none while the newest alert awaits approval. */
  ghost predicate SingleOpen(alerts: seq<Alert>, orders: map<Uuid, WorkOrder>) {
    && (forall i, j :: OpenAt(orders, i) && OpenAt(orders, j) ==> i == j)
    && (alerts != [] && alerts[|alerts| - 1].maintenance.PendingApproval? ==> forall i :: !OpenAt(orders, i))
  }

  /** How many of the first `n` events are alarm syncs. */
  function AlarmCount(outbox: seq<Event>, n: nat): nat
    requires n <= |outbox|
  {
    if n == 0 then 0 else AlarmCount(outbox, n - 1) + (if outbox[n - 1].kind.AlarmSync? then 1 else 0)
  }

  function AlarmVersion(a: Aggregate): nat {
    if a.risk.Some? then a.risk.value.alarmVersion else 0
  }

  ghost predicate LeaseOk(e: Event) {
    && (e.status.InFlight? <==> e.owner.Some?)
    && (e.status.InFlight? <==> e.expires.Some?)
    && e.attempt <= MAX_ATTEMPTS
    && (e.status.Pending? ==> e.attempt == 0)
  }

  /** An alarm event carries its rank; a pending one is current, a superseded one is not. */
  ghost predicate AlarmEventOk(outbox: seq<Event>, i: nat, version: nat, alertCount: nat)
    requires i < |outbox|
  {
    var e := outbox[i];
    && e.version == AlarmCount(outbox, i) + 1
    && e.alertId < alertCount
    && (e.version == version ==> e.alertId == alertCount - 1)
    && (e.status.Pending? ==> e.version == version)
    && (e.status.Superseded? ==> e.version != version)
  }

  ghost predicate AlarmsOk(outbox: seq<Event>, version: nat, alertCount: nat) {
    && AlarmCount(outbox, |outbox|) == version
    && forall i :: 0 <= i < |outbox| ==>
         LeaseOk(outbox[i]) && (outbox[i].kind.AlarmSync? ==> AlarmEventOk(outbox, i, version, alertCount))
  }

  /** The alerts a create command was queued for. */
  function CommandIds(outbox: seq<Event>): set<Uuid> {
    if outbox == [] then {}
    else
      var last := outbox[|outbox| - 1];
      CommandIds(outbox[..|outbox| - 1]) + (if last.kind.WorkOrderCreate? then {last.alertId} else {})
  }

  ghost predicate CommandFor(outbox: seq<Event>, i: nat, id: Uuid) {
    i < |outbox| && outbox[i].kind.WorkOrderCreate? && outbox[i].alertId == id
  }

  /** Every work order has exactly one create command, delivered exactly when the order was saved. */
  ghost predicate CommandsOk(outbox: seq<Event>, orders: map<Uuid, WorkOrder>) {
    && (forall i :: 0 <= i < |outbox| && outbox[i].kind.WorkOrderCreate? ==>
          && outbox[i].version == 1
          && !outbox[i].status.Superseded?
          && outbox[i].alertId in orders
          && (outbox[i].status.Delivered? <==> orders[outbox[i].alertId].cmmsId.Some?))
    && (forall i: nat, j: nat, id :: CommandFor(outbox, i, id) && CommandFor(outbox, j, id) ==> i == j)
    && CommandIds(outbox) == orders.Keys
  }

  ghost predicate ActionsOk(actions: map<ActionKey, ActionRow>, alerts: seq<Alert>, orders: map<Uuid, WorkOrder>) {
    && (forall k :: k in actions ==> k.alertId < |alerts| && actions[k].result.key == k)
    && (forall i: nat :: i < |alerts| ==>
          && (ActionKey(i, CreateAction) in actions <==> i in orders)
          && (ActionKey(i, CloseAction) in actions <==> alerts[i].phase.RiskManuallyClosed?))
  }

  ghost predicate Inv(a: Aggregate) {
    && EpisodesOk(a.alerts)
    && CacheOk(a.key, a.risk, a.alerts, a.projection, a.workOrders)
    && OrdersOk(a.key, a.alerts, a.workOrders)
    && SingleOpen(a.alerts, a.workOrders)
    && AlarmsOk(a.outbox, AlarmVersion(a), |a.alerts|)
    && CommandsOk(a.outbox, a.workOrders)
    && ActionsOk(a.actions, a.alerts, a.workOrders)
  }

  lemma EmptyInv(key: Key)
    ensures Inv(Empty(key))
  {}

  // ---------------------------------------------------------------- outbox bookkeeping

  lemma {:induction false} AlarmCountFrame(o1: seq<Event>, o2: seq<Event>, n: nat)
    requires n <= |o1| && n <= |o2|
    requires forall i :: 0 <= i < n ==> o1[i].kind == o2[i].kind
    ensures AlarmCount(o1, n) == AlarmCount(o2, n)
  {
    if n > 0 {
      AlarmCountFrame(o1, o2, n - 1);
    }
  }

  lemma AlarmCountFrames(o1: seq<Event>, o2: seq<Event>)
    requires |o1| <= |o2|
    requires forall i :: 0 <= i < |o1| ==> o1[i].kind == o2[i].kind
    ensures forall n :: 0 <= n <= |o1| ==> AlarmCount(o1, n) == AlarmCount(o2, n)
  {
    forall n | 0 <= n <= |o1| ensures AlarmCount(o1, n) == AlarmCount(o2, n) {
      AlarmCountFrame(o1, o2, n);
    }
  }

  lemma {:induction false} CommandIdsFrame(o1: seq<Event>, o2: seq<Event>)
    requires |o1| == |o2|
    requires forall i :: 0 <= i < |o1| ==> o1[i].kind == o2[i].kind
    requires forall i :: 0 <= i < |o1| && o1[i].kind.WorkOrderCreate? ==> o1[i].alertId == o2[i].alertId
    ensures CommandIds(o1) == CommandIds(o2)
  {
    var n := |o1|;
    if n > 0 {
      CommandIdsFrame(o1[..n - 1], o2[..n - 1]);
    }
  }

  lemma CommandIdsAppend(outbox: seq<Event>, e: Event)
    ensures CommandIds(outbox + [e]) == CommandIds(outbox) + (if e.kind.WorkOrderCreate? then {e.alertId} else {})
  {
    assert (outbox + [e])[..|outbox|] == outbox;
  }

  lemma {:induction false} CommandExists(outbox: seq<Event>, id: Uuid) returns (i: nat)
    requires id in CommandIds(outbox)
    ensures CommandFor(outbox, i, id)
  {
    var n := |outbox| - 1;
    if outbox[n].kind.WorkOrderCreate? && outbox[n].alertId == id {
      i := n;
    } else {
      i := CommandExists(outbox[..n], id);
    }
  }

  /** Ranks grow with position, and the newest rank is the aggregate version. */
  lemma {:induction false} AlarmCountMonotone(outbox: seq<Event>, m: nat, n: nat)
    requires m <= n <= |outbox|
    ensures AlarmCount(outbox, m) <= AlarmCount(outbox, n)
    ensures m < n && outbox[m].kind.AlarmSync? ==> AlarmCount(outbox, m) < AlarmCount(outbox, n)
  {
    if m < n {
      AlarmCountMonotone(outbox, m, n - 1);
    }
  }

  /** Only the status, attempt, lease and availability of events changed. */
  ghost predicate SameEvents(o1: seq<Event>, o2: seq<Event>) {
    && |o1| == |o2|
    && forall i :: 0 <= i < |o1| ==>
         o1[i].kind == o2[i].kind && o1[i].alertId == o2[i].alertId && o1[i].version == o2[i].version
  }

  /** Which status changes a delivery transaction may make to one event. */
  ghost predicate EventMove(e: Event, f: Event, alertCount: nat) {
    && LeaseOk(f)
    && (f.status.Pending? ==> e.status.Pending?)
    && (f.status.Superseded? ==> e.status.Superseded? || (e.kind.AlarmSync? && e.alertId != alertCount - 1))
    && (e.kind.WorkOrderCreate? ==> (f.status.Delivered? <==> e.status.Delivered?))
  }

  lemma MovesKeepAlarms(o1: seq<Event>, o2: seq<Event>, version: nat, alertCount: nat)
    requires AlarmsOk(o1, version, alertCount) && SameEvents(o1, o2)
    requires forall i :: 0 <= i < |o2| ==> EventMove(o1[i], o2[i], alertCount)
    ensures AlarmsOk(o2, version, alertCount)
  {
    AlarmCountFrames(o1, o2);
    forall i | 0 <= i < |o2| && o2[i].kind.AlarmSync?
      ensures AlarmEventOk(o2, i, version, alertCount)
    {
      assert AlarmEventOk(o1, i, version, alertCount);
      assert EventMove(o1[i], o2[i], alertCount);
    }
  }

  lemma SameCommands(o1: seq<Event>, o2: seq<Event>)
    requires SameEvents(o1, o2)
    ensures forall i: nat, id :: CommandFor(o1, i, id) <==> CommandFor(o2, i, id)
  {}

  lemma MovesKeepCommands(o1: seq<Event>, o2: seq<Event>, orders: map<Uuid, WorkOrder>, alertCount: nat)
    requires CommandsOk(o1, orders) && SameEvents(o1, o2)
    requires forall i :: 0 <= i < |o2| ==> EventMove(o1[i], o2[i], alertCount)
    ensures CommandsOk(o2, orders)
  {
    SameCommands(o1, o2);
    CommandIdsFrame(o1, o2);
  }

  lemma DeliveryKeepsInv(a: Aggregate, outbox: seq<Event>)
    requires Inv(a) && SameEvents(a.outbox, outbox)
    requires forall i :: 0 <= i < |outbox| ==> EventMove(a.outbox[i], outbox[i], |a.alerts|)
    ensures Inv(a.(outbox := outbox))
  {
    MovesKeepAlarms(a.outbox, outbox, AlarmVersion(a), |a.alerts|);
    MovesKeepCommands(a.outbox, outbox, a.workOrders, |a.alerts|);
  }

  // ---------------------------------------------------------------- queueing a new projection version

  lemma RequeueKeepsAlarms(outbox: seq<Event>, ids: set<Uuid>, version: nat, before: nat, count: nat, now: Time)
    requires AlarmsOk(outbox, version, before)
    requires before <= count && 0 < count && (before > 0 ==> before - 1 in ids)
    ensures AlarmsOk(SupersedeWaiting(outbox, ids) + [NewEvent(AlarmSync, count - 1, version + 1, now)], version + 1, count)
  {
    var n := |outbox|;
    var after := SupersedeWaiting(outbox, ids) + [NewEvent(AlarmSync, count - 1, version + 1, now)];
    AlarmCountFrames(outbox, after);
    forall i | 0 <= i < |after|
      ensures LeaseOk(after[i]) && (after[i].kind.AlarmSync? ==> AlarmEventOk(after, i, version + 1, count))
    {
      if i < n && outbox[i].kind.AlarmSync? {
        AlarmCountMonotone(outbox, i, n);
        assert AlarmEventOk(outbox, i, version, before);
        assert after[i] == SupersedeEvent(outbox[i], ids);
      }
    }
  }

  lemma RequeueKeepsCommands(outbox: seq<Event>, ids: set<Uuid>, e: Event, orders: map<Uuid, WorkOrder>)
    requires CommandsOk(outbox, orders) && e.kind.AlarmSync?
    ensures CommandsOk(SupersedeWaiting(outbox, ids) + [e], orders)
  {
    var n := |outbox|;
    var after := SupersedeWaiting(outbox, ids) + [e];
    assert forall i :: 0 <= i < n && outbox[i].kind.WorkOrderCreate? ==> after[i] == outbox[i];
    forall i: nat, id ensures CommandFor(after, i, id) <==> CommandFor(outbox, i, id) {}
    CommandIdsFrame(outbox, SupersedeWaiting(outbox, ids));
    CommandIdsAppend(SupersedeWaiting(outbox, ids), e);
  }

  /** The row, the newest alert and the projection to be queued belong together. */
  ghost predicate HeadOk(a: Aggregate, p: Projection) {
    && a.risk.Some? && a.alerts != []
    && a.risk.value.alertId == Some(|a.alerts| - 1) && p.alertId == |a.alerts| - 1
    && p.desiredActive == a.risk.value.counters.active == a.alerts[p.alertId].phase.RiskActive?
    && (p.alertId in a.workOrders ==> p.alarmId == Some(a.workOrders[p.alertId].body.alarmId))
  }

  lemma RequeueCache(a: Aggregate, p: Projection, ids: set<Uuid>, now: Time)
    requires HeadOk(a, p)
    ensures var b := Requeue(a, p, ids, now);
            && CacheOk(b.key, b.risk, b.alerts, b.projection, b.workOrders)
            && b.alerts == a.alerts && b.workOrders == a.workOrders && b.actions == a.actions && b.key == a.key
            && b.outbox == SupersedeWaiting(a.outbox, ids) + [NewEvent(AlarmSync, p.alertId, AlarmVersion(a) + 1, now)]
            && AlarmVersion(b) == AlarmVersion(a) + 1
  {}

  ghost predicate TablesOk(a: Aggregate) {
    && EpisodesOk(a.alerts)
    && OrdersOk(a.key, a.alerts, a.workOrders)
    && SingleOpen(a.alerts, a.workOrders)
    && ActionsOk(a.actions, a.alerts, a.workOrders)
  }

  /** Everything but the cache and the queue is in order; `before` alerts were there when the queue was. */
  ghost predicate ReadyToQueue(a: Aggregate, p: Projection, ids: set<Uuid>, before: nat) {
    && HeadOk(a, p)
    && TablesOk(a)
    && AlarmsOk(a.outbox, AlarmVersion(a), before)
    && CommandsOk(a.outbox, a.workOrders)
    && before <= |a.alerts|
    && (before > 0 ==> before - 1 in ids)
  }

  lemma RequeueTables(a: Aggregate, p: Projection, ids: set<Uuid>, now: Time)
    requires HeadOk(a, p) && TablesOk(a)
    ensures TablesOk(Requeue(a, p, ids, now))
  {}

  ghost predicate OutboxOk(a: Aggregate) {
    AlarmsOk(a.outbox, AlarmVersion(a), |a.alerts|) && CommandsOk(a.outbox, a.workOrders)
  }

  lemma RequeueAlarms(a: Aggregate, p: Projection, ids: set<Uuid>, before: nat, now: Time)
    requires HeadOk(a, p) && AlarmsOk(a.outbox, AlarmVersion(a), before)
    requires before <= |a.alerts| && (before > 0 ==> before - 1 in ids)
    ensures var b := Requeue(a, p, ids, now); AlarmsOk(b.outbox, AlarmVersion(b), |b.alerts|)
  {
    RequeueKeepsAlarms(a.outbox, ids, AlarmVersion(a), before, |a.alerts|, now);
  }

  lemma RequeueCommands(a: Aggregate, p: Projection, ids: set<Uuid>, now: Time)
    requires HeadOk(a, p) && CommandsOk(a.outbox, a.workOrders)
    ensures var b := Requeue(a, p, ids, now); CommandsOk(b.outbox, b.workOrders)
  {
    RequeueKeepsCommands(a.outbox, ids, NewEvent(AlarmSync, p.alertId, AlarmVersion(a) + 1, now), a.workOrders);
  }

  lemma RequeueOutbox(a: Aggregate, p: Projection, ids: set<Uuid>, before: nat, now: Time)
    requires ReadyToQueue(a, p, ids, before)
    ensures OutboxOk(Requeue(a, p, ids, now))
  {
    RequeueAlarms(a, p, ids, before, now);
    RequeueCommands(a, p, ids, now);
  }

  lemma Assembled(a: Aggregate)
    requires TablesOk(a) && OutboxOk(a) && CacheOk(a.key, a.risk, a.alerts, a.projection, a.workOrders)
    ensures Inv(a)
  {}

  /** Requeueing restores the whole invariant. */
  lemma RequeueInv(a: Aggregate, p: Projection, ids: set<Uuid>, before: nat, now: Time)
    requires ReadyToQueue(a, p, ids, before)
    ensures Inv(Requeue(a, p, ids, now))
  {
    RequeueCache(a, p, ids, now);
    RequeueTables(a, p, ids, now);
    RequeueOutbox(a, p, ids, before, now);
    Assembled(Requeue(a, p, ids, now));
  }

  // ---------------------------------------------------------------- rounds

  lemma {:induction false} MaxEpisodeIsCount(alerts: seq<Alert>)
    requires EpisodesOk(alerts)
    ensures MaxEpisode(alerts) == |alerts|
  {
    if alerts != [] {
      var front := alerts[..|alerts| - 1];
      MaxEpisodeIsCountOf(front);
    }
  }

  lemma {:induction false} MaxEpisodeIsCountOf(alerts: seq<Alert>)
    requires forall i :: 0 <= i < |alerts| ==> alerts[i].episode == i + 1
    ensures MaxEpisode(alerts) == |alerts|
  {
    if alerts != [] {
      MaxEpisodeIsCountOf(alerts[..|alerts| - 1]);
    }
  }

  /** An alert may change while it keeps its rank, provenance and agreement with its work order. */
  lemma AlertUpdated(key: Key, alerts: seq<Alert>, orders: map<Uuid, WorkOrder>, id: Uuid, alert: Alert)
    requires id < |alerts| && EpisodesOk(alerts) && OrdersOk(key, alerts, orders) && SingleOpen(alerts, orders)
    requires alert.episode == id + 1 && alert.version >= 1 && alert.provenance == alerts[id].provenance
    requires alert.phase.RiskActive? ==> alerts[id].phase.RiskActive?
    requires AlertOk(alert, id in orders) && alert.maintenance == alerts[id].maintenance
    ensures EpisodesOk(alerts[id := alert])
    ensures OrdersOk(key, alerts[id := alert], orders)
    ensures SingleOpen(alerts[id := alert], orders)
  {}

  lemma AppliedRoundKeepsInv(a: Aggregate, run: RunInfo, row: RiskRow, mapping: Option<Mapping>, pilot: Option<Uuid>,
                             now: Time)
    requires Inv(a) && a.risk.Some?
    requires row.alertId == a.risk.value.alertId && row.alarmVersion == a.risk.value.alarmVersion
    ensures var r := Apply(a.(risk := Some(row)), run, a.risk.value.counters.active, mapping, pilot, now);
            r.Some? ==> Inv(r.value)
  {
    var wasActive := a.risk.value.counters.active;
    if mapping.None? || (!row.counters.active && !wasActive) {
    } else if !wasActive {
      OpenedEpisodeKeepsInv(a, run, row, mapping.value, pilot, now);
    } else {
      ContinuedEpisodeKeepsInv(a, run, row, mapping.value, pilot, now);
    }
  }

  lemma ContinuedEpisodeReady(a: Aggregate, run: RunInfo, row: RiskRow)
    requires Inv(a) && a.risk.Some? && a.risk.value.counters.active
    requires row.alertId == a.risk.value.alertId && row.alarmVersion == a.risk.value.alarmVersion
    ensures a.projection.Some? && row.alertId == Some(|a.alerts| - 1)
            && ReadyToQueue(RefreshAlert(a.(risk := Some(row)), |a.alerts| - 1, run, row.counters.active),
                            a.projection.value.(desiredActive := row.counters.active), {|a.alerts| - 1}, |a.alerts|)
  {
    var id := |a.alerts| - 1;
    assert a.alerts != [] && row.alertId == Some(id);
    assert AlertOk(a.alerts[id], id in a.workOrders);
    var b := RefreshAlert(a.(risk := Some(row)), id, run, row.counters.active);
    AlertUpdated(a.key, a.alerts, a.workOrders, id, b.alerts[id]);
    assert ActionsOk(a.actions, b.alerts, a.workOrders);
  }

  lemma ContinuedEpisodeShape(a: Aggregate, run: RunInfo, mapping: Mapping, pilot: Option<Uuid>, now: Time)
    requires a.risk.Some? && a.alerts != [] && a.risk.value.alertId == Some(|a.alerts| - 1)
    requires HasProjection(a, |a.alerts| - 1)
    ensures var active, id := a.risk.value.counters.active, |a.alerts| - 1;
            Apply(a, run, true, Some(mapping), pilot, now)
            == Some(Requeue(RefreshAlert(a, id, run, active), a.projection.value.(desiredActive := active), {id}, now))
  {}

  lemma ContinuedEpisodeKeepsInv(a: Aggregate, run: RunInfo, row: RiskRow, mapping: Mapping, pilot: Option<Uuid>,
                                 now: Time)
    requires Inv(a) && a.risk.Some? && a.risk.value.counters.active
    requires row.alertId == a.risk.value.alertId && row.alarmVersion == a.risk.value.alarmVersion
    ensures var r := Apply(a.(risk := Some(row)), run, true, Some(mapping), pilot, now);
            r.Some? && Inv(r.value)
  {
    var active, id := row.counters.active, |a.alerts| - 1;
    assert a.alerts != [] && row.alertId == Some(id) && HasProjection(a, id);
    ContinuedEpisodeShape(a.(risk := Some(row)), run, mapping, pilot, now);
    ContinuedEpisodeReady(a, run, row);
    var b := RefreshAlert(a.(risk := Some(row)), id, run, active);
    RequeueInv(b, a.projection.value.(desiredActive := active), {id}, |a.alerts|, now);
  }

  lemma AlertAppended(a: Aggregate, alert: Alert)
    requires EpisodesOk(a.alerts) && OrdersOk(a.key, a.alerts, a.workOrders) && SingleOpen(a.alerts, a.workOrders)
    requires ActionsOk(a.actions, a.alerts, a.workOrders)
    requires forall i :: 0 <= i < |a.alerts| ==> !a.alerts[i].phase.RiskActive?
    requires alert.episode == |a.alerts| + 1 && alert.version == 1 && alert.phase.RiskActive?
    requires alert.maintenance == if HasOpenOrder(a) then SuppressedActiveWorkOrder else PendingApproval
    requires alert.actionAllowed ==> !HasOpenOrder(a)
    ensures var alerts := a.alerts + [alert];
            && EpisodesOk(alerts)
            && OrdersOk(a.key, alerts, a.workOrders)
            && SingleOpen(alerts, a.workOrders)
            && ActionsOk(a.actions, alerts, a.workOrders)
  {
    var alerts := a.alerts + [alert];
    assert HasOpenOrder(a) <==> exists i :: OpenAt(a.workOrders, i);
    assert |a.alerts| !in a.workOrders;
    assert forall i: nat :: i < |a.alerts| ==> alerts[i] == a.alerts[i];
    assert OrdersOk(a.key, alerts, a.workOrders);
    assert ActionKey(|a.alerts|, CreateAction) !in a.actions && ActionKey(|a.alerts|, CloseAction) !in a.actions;
  }

  function FreshProjection(a: Aggregate, id: Uuid, deviceId: Uuid): Projection
    requires id < |a.alerts|
  {
    Projection(id, deviceId, None, true, 0, DetailsOf(a.key, id, a.alerts[id], a.workOrders))
  }

  lemma OpenedEpisodeReady(a: Aggregate, run: RunInfo, deviceId: Uuid, pilot: Option<Uuid>, ids: set<Uuid>)
    requires TablesOk(a) && a.risk.Some? && a.risk.value.counters.active && CommandsOk(a.outbox, a.workOrders)
    requires AlarmsOk(a.outbox, AlarmVersion(a), |a.alerts|)
    requires forall i :: 0 <= i < |a.alerts| ==> !a.alerts[i].phase.RiskActive?
    requires |a.alerts| > 0 ==> |a.alerts| - 1 in ids
    ensures var b := OpenEpisode(a, run, pilot);
            ReadyToQueue(b, FreshProjection(b, |a.alerts|, deviceId), ids, |a.alerts|)
  {
    MaxEpisodeIsCount(a.alerts);
    AlertAppended(a, NewAlert(a, run, pilot));
    assert |a.alerts| !in a.workOrders;
  }

  lemma OpenedEpisodeShape(a: Aggregate, id: Uuid, deviceId: Uuid, now: Time)
    requires a.risk.Some? && id + 1 == |a.alerts|
    requires a.projection.Some? <==> id > 0
    requires id > 0 ==> a.projection.value.alertId == id - 1
    ensures ReplaceProjection(a, id, deviceId, true, now)
            == Requeue(a, FreshProjection(a, id, deviceId), if id > 0 then {id, id - 1} else {id}, now)
  {}

  lemma InactiveAlerts(a: Aggregate)
    requires Inv(a) && a.risk.Some? && !a.risk.value.counters.active
    ensures forall i :: 0 <= i < |a.alerts| ==> !a.alerts[i].phase.RiskActive?
    ensures a.projection.Some? <==> |a.alerts| > 0
    ensures |a.alerts| > 0 ==> a.projection.value.alertId == |a.alerts| - 1
  {}

  lemma OpenedEpisodeKeepsInv(a: Aggregate, run: RunInfo, row: RiskRow, mapping: Mapping, pilot: Option<Uuid>, now: Time)
    requires Inv(a) && a.risk.Some? && !a.risk.value.counters.active && row.counters.active
    requires row.alertId == a.risk.value.alertId && row.alarmVersion == a.risk.value.alarmVersion
    ensures var b := OpenEpisode(a.(risk := Some(row)), run, pilot);
            Inv(ReplaceProjection(b, |a.alerts|, mapping.deviceId, true, now))
  {
    var id := |a.alerts|;
    var c := a.(risk := Some(row));
    var b := OpenEpisode(c, run, pilot);
    var ids: set<Uuid> := if id > 0 then {id, id - 1} else {id};
    InactiveAlerts(a);
    OpenedEpisodeReady(c, run, mapping.deviceId, pilot, ids);
    OpenedEpisodeShape(b, id, mapping.deviceId, now);
    RequeueInv(b, FreshProjection(b, id, mapping.deviceId), ids, id, now);
  }

  lemma EnsureRowKeepsInv(a: Aggregate)
    requires Inv(a)
    ensures Inv(EnsureRow(a))
  {}

  lemma RoundSucceededKeepsInv(a: Aggregate, run: RunInfo, mapping: Option<Mapping>, pilot: Option<Uuid>, now: Time)
    requires Inv(a) && run.runId in a.slots
    ensures Inv(RoundSucceeded(a, run, mapping, pilot, now))
  {
    var b := EnsureRow(a);
    EnsureRowKeepsInv(a);
    if IsNewest(b.slots, b.risk.value, run.runId) {
      AppliedRoundKeepsInv(b, run, RecordRound(b.risk.value, run.runId, run.risky), mapping, pilot, now);
    }
  }

  lemma RoundFailedKeepsInv(a: Aggregate, run: Uuid, upsert: bool)
    requires Inv(a) && run in a.slots
    ensures Inv(RoundFailed(a, run, upsert))
  {}

  // ---------------------------------------------------------------- operator actions

  ghost predicate MayCreate(a: Aggregate, call: ActionCall) {
    && a.risk.Some? && call.key == ActionKey(call.auth.alertId, CreateAction)
    && HasProjection(a, call.auth.alertId) && a.projection.value.alarmId == Some(call.auth.alarm.alarmId)
    && call.auth.alertId < |a.alerts| && call.mapping.Some? && call.mapping.value.assetId.Some?
    && a.alerts[call.auth.alertId].phase.RiskActive? && a.alerts[call.auth.alertId].maintenance.PendingApproval?
  }

  predicate Accepted(r: ActionOutcome) { r.reply.Ok? && !r.reply.value.replayed }

  lemma CreateAccepted(a: Aggregate, call: ActionCall)
    ensures var r := CreateWorkOrder(a, call);
            if Accepted(r)
            then MayCreate(a, call) && r.after == QueueRefresh(AcceptCreate(a, call), call.auth.alertId, call.now)
            else r.after == a
  {}

  lemma CreateKeepsInv(a: Aggregate, call: ActionCall)
    requires Inv(a)
    ensures Inv(CreateWorkOrder(a, call).after)
  {
    CreateAccepted(a, call);
    if Accepted(CreateWorkOrder(a, call)) {
      AcceptedCreateKeepsInv(a, call);
    }
  }

  lemma AcceptedCreateTables(a: Aggregate, call: ActionCall)
    requires Inv(a) && MayCreate(a, call)
    ensures call.auth.alertId == |a.alerts| - 1 && call.auth.alertId !in a.workOrders
    ensures TablesOk(AcceptCreate(a, call))
  {
    var b, id := AcceptCreate(a, call), call.auth.alertId;
    assert id == |a.alerts| - 1;
    assert id !in a.workOrders;
    OrderOpened(a, id, b.alerts[id], b.workOrders[id]);
    assert ActionsOk(b.actions, b.alerts, b.workOrders);
  }

  lemma AcceptedCreateQueue(a: Aggregate, call: ActionCall)
    requires Inv(a) && MayCreate(a, call) && call.auth.alertId !in a.workOrders
    ensures OutboxOk(AcceptCreate(a, call))
  {
    var b, id := AcceptCreate(a, call), call.auth.alertId;
    var e := NewEvent(WorkOrderCreate, id, 1, call.now);
    assert b.outbox == a.outbox + [e] && b.workOrders == a.workOrders[id := b.workOrders[id]];
    CommandAppended(a.outbox, e, a.workOrders, b.workOrders[id], AlarmVersion(a), |a.alerts|);
  }

  lemma AcceptedCreateHead(a: Aggregate, call: ActionCall)
    requires Inv(a) && MayCreate(a, call)
    ensures var b, id := AcceptCreate(a, call), call.auth.alertId;
            HeadOk(b, b.projection.value.(desiredActive := b.alerts[id].phase.RiskActive?))
  {}

  lemma AcceptedCreateReady(a: Aggregate, call: ActionCall)
    requires Inv(a) && MayCreate(a, call)
    ensures var b, id := AcceptCreate(a, call), call.auth.alertId;
            ReadyToQueue(b, b.projection.value.(desiredActive := b.alerts[id].phase.RiskActive?), {id}, |a.alerts|)
  {
    AcceptedCreateTables(a, call);
    AcceptedCreateQueue(a, call);
    AcceptedCreateHead(a, call);
  }

  lemma AcceptedCreateKeepsInv(a: Aggregate, call: ActionCall)
    requires Inv(a) && MayCreate(a, call)
    ensures Inv(QueueRefresh(AcceptCreate(a, call), call.auth.alertId, call.now))
  {
    var b, id := AcceptCreate(a, call), call.auth.alertId;
    AcceptedCreateReady(a, call);
    RequeueInv(b, b.projection.value.(desiredActive := b.alerts[id].phase.RiskActive?), {id}, |a.alerts|, call.now);
  }

  /** The newest alert moves from pending approval to its freshly created work order. */
  lemma OrderOpened(a: Aggregate, id: Uuid, alert: Alert, wo: WorkOrder)
    requires EpisodesOk(a.alerts) && OrdersOk(a.key, a.alerts, a.workOrders) && SingleOpen(a.alerts, a.workOrders)
    requires id == |a.alerts| - 1 && id !in a.workOrders && a.alerts[id].maintenance.PendingApproval?
    requires alert.maintenance.WorkOrderCreating? && !alert.actionAllowed && alert.episode == id + 1 && alert.version >= 1
    requires alert.provenance == a.alerts[id].provenance && OrderOk(a.key, id, alert, wo)
    ensures EpisodesOk(a.alerts[id := alert])
    ensures OrdersOk(a.key, a.alerts[id := alert], a.workOrders[id := wo])
    ensures SingleOpen(a.alerts[id := alert], a.workOrders[id := wo])
  {
    var orders := a.workOrders[id := wo];
    forall i | OpenAt(orders, i) ensures i == id {
      assert i != id ==> OpenAt(a.workOrders, i);
    }
  }

  lemma CommandAppended(outbox: seq<Event>, e: Event, orders: map<Uuid, WorkOrder>, wo: WorkOrder, version: nat, count: nat)
    requires AlarmsOk(outbox, version, count) && CommandsOk(outbox, orders)
    requires e.kind.WorkOrderCreate? && e.version == 1 && e.status.Pending? && LeaseOk(e)
    requires e.alertId !in orders && wo.cmmsId.None?
    ensures AlarmsOk(outbox + [e], version, count)
    ensures CommandsOk(outbox + [e], orders[e.alertId := wo])
  {
    var after := outbox + [e];
    AlarmCountFrames(outbox, after);
    forall i | 0 <= i < |after| && after[i].kind.AlarmSync?
      ensures AlarmEventOk(after, i, version, count)
    {
      assert AlarmEventOk(outbox, i, version, count);
    }
    forall i: nat, id ensures CommandFor(after, i, id) <==> CommandFor(outbox, i, id) || (i == |outbox| && id == e.alertId) {}
    CommandIdsAppend(outbox, e);
  }

  ghost predicate MayClose(a: Aggregate, call: ActionCall) {
    && a.risk.Some? && call.key == ActionKey(call.auth.alertId, CloseAction)
    && call.auth.alertId < |a.alerts| && HasProjection(a, call.auth.alertId)
    && a.alerts[call.auth.alertId].phase.RiskActive?
  }

  lemma CloseKeepsInv(a: Aggregate, call: ActionCall)
    requires Inv(a)
    ensures Inv(CloseRisk(a, call).after)
  {
    var r := CloseRisk(a, call);
    if r.reply.Ok? && !r.reply.value.replayed {
      AcceptedCloseKeepsInv(a, call);
    }
  }

  lemma AcceptedCloseReady(a: Aggregate, call: ActionCall)
    requires Inv(a) && MayClose(a, call)
    ensures var b, id := AcceptClose(a, call), call.auth.alertId;
            ReadyToQueue(b, b.projection.value.(desiredActive := b.alerts[id].phase.RiskActive?), {id}, |a.alerts|)
  {
    var b, id := AcceptClose(a, call), call.auth.alertId;
    assert id == |a.alerts| - 1;
    assert AlertOk(a.alerts[id], id in a.workOrders);
    AlertUpdated(a.key, a.alerts, a.workOrders, id, b.alerts[id]);
    assert ActionsOk(b.actions, b.alerts, b.workOrders);
  }

  lemma AcceptedCloseKeepsInv(a: Aggregate, call: ActionCall)
    requires Inv(a) && MayClose(a, call)
    ensures Inv(QueueRefresh(AcceptClose(a, call), call.auth.alertId, call.now))
  {
    var b, id := AcceptClose(a, call), call.auth.alertId;
    AcceptedCloseReady(a, call);
    RequeueInv(b, b.projection.value.(desiredActive := b.alerts[id].phase.RiskActive?), {id}, |a.alerts|, call.now);
  }

  // ---------------------------------------------------------------- delivery

  lemma OneMoveKeepsInv(a: Aggregate, event: nat, f: Event)
    requires Inv(a) && event < |a.outbox|
    requires f.kind == a.outbox[event].kind && f.alertId == a.outbox[event].alertId && f.version == a.outbox[event].version
    requires EventMove(a.outbox[event], f, |a.alerts|)
    ensures Inv(SetEvent(a, event, f))
  {
    var outbox := a.outbox[event := f];
    forall i | 0 <= i < |outbox| ensures EventMove(a.outbox[i], outbox[i], |a.alerts|) {
      assert LeaseOk(a.outbox[i]);
    }
    DeliveryKeepsInv(a, outbox);
  }

  lemma ExpireKeepsInv(a: Aggregate, kind: EventKind, now: Time)
    requires Inv(a)
    ensures Inv(a.(outbox := ExpireLeases(a.outbox, kind, now)))
  {
    var outbox := ExpireLeases(a.outbox, kind, now);
    forall i | 0 <= i < |outbox| ensures EventMove(a.outbox[i], outbox[i], |a.alerts|) {
      assert LeaseOk(a.outbox[i]);
      assert outbox[i] == ExpireEvent(a.outbox[i], kind, now);
    }
    DeliveryKeepsInv(a, outbox);
  }

  lemma ClaimKeepsInv(a: Aggregate, kind: EventKind, pick: nat, owner: string, now: Time)
    requires Inv(a)
    ensures Inv(ClaimOutbox(a, kind, pick, owner, now))
  {
    var outbox := ExpireLeases(a.outbox, kind, now);
    var b := a.(outbox := outbox);
    assert Inv(b) by { ExpireKeepsInv(a, kind, now); }
    if pick < |outbox| && Claimable(outbox[pick], kind, now) {
      assert LeaseOk(outbox[pick]);
      OneMoveKeepsInv(b, pick, ClaimEvent(outbox[pick], owner, now));
    }
  }

  lemma FinishKeepsInv(a: Aggregate, event: nat, owner: string, status: EventStatus)
    requires Inv(a)
    requires status.DeadLetter? || (status.Delivered? && IsAlarmEvent(a, event))
             || (status.Superseded? && IsAlarmEvent(a, event) && AlarmDelivery(a, event, owner).None?)
    ensures Inv(FinishEvent(a, event, owner, status))
  {
    if Holds(a, event, owner) {
      assert LeaseOk(a.outbox[event]);
      OneMoveKeepsInv(a, event, a.outbox[event].(status := status, owner := None, expires := None));
    }
  }

  lemma RetryKeepsInv(a: Aggregate, event: nat, owner: string, now: Time)
    requires Inv(a)
    ensures Inv(RetryEvent(a, event, owner, now))
  {
    if Holds(a, event, owner) {
      assert LeaseOk(a.outbox[event]);
      OneMoveKeepsInv(a, event, RetryEvent(a, event, owner, now).outbox[event]);
    }
  }

  lemma AlarmIdKeepsInv(a: Aggregate, alarmId: Uuid)
    requires Inv(a) && a.projection.Some?
    requires a.projection.value.alarmId.None? || a.projection.value.alarmId.value == alarmId
    ensures Inv(a.(projection := Some(a.projection.value.(alarmId := Some(alarmId)))))
  {}

  lemma SaveAlarmKeepsInv(a: Aggregate, event: nat, owner: string, alertId: Uuid, alarmId: Uuid)
    requires Inv(a) && IsAlarmEvent(a, event)
    ensures Inv(SaveAlarmId(a, event, owner, alertId, alarmId))
  {
    var b := SaveAlarmId(a, event, owner, alertId, alarmId);
    if b != a {
      var c := a.(projection := Some(a.projection.value.(alarmId := Some(alarmId))));
      assert Inv(c) by { AlarmIdKeepsInv(a, alarmId); }
      assert LeaseOk(a.outbox[event]);
      OneMoveKeepsInv(c, event, b.outbox[event]);
    }
  }

  // ---------------------------------------------------------------- work orders in the CMMS

  lemma OrderMoved(a: Aggregate, id: Uuid, wo: WorkOrder)
    requires TablesOk(a) && OpenAt(a.workOrders, id) && id < |a.alerts|
    requires OrderOk(a.key, id, Followed(a, id, wo).alerts[id], wo)
    ensures TablesOk(Followed(a, id, wo))
  {
    var b := Followed(a, id, wo);
    OpenOrderMoved(a.alerts, a.workOrders, id, b.alerts[id], wo);
    assert AlertOk(a.alerts[id], true);
    assert OrdersOk(a.key, b.alerts, b.workOrders);
    assert EpisodesOk(b.alerts) && ActionsOk(a.actions, b.alerts, b.workOrders);
  }

  /** The only open work order moves on; the others stay closed. */
  lemma OpenOrderMoved(alerts: seq<Alert>, orders: map<Uuid, WorkOrder>, id: Uuid, alert: Alert, wo: WorkOrder)
    requires SingleOpen(alerts, orders) && OpenAt(orders, id) && id < |alerts| && !alert.maintenance.PendingApproval?
    ensures SingleOpen(alerts[id := alert], orders[id := wo])
  {
    var after := orders[id := wo];
    forall i | OpenAt(after, i) ensures i == id {
      assert i == id || OpenAt(orders, i);
    }
  }

  /** An older alert and its work order are no part of the cached picture. */
  lemma CacheIgnoresOldAlerts(key: Key, risk: Option<RiskRow>, alerts: seq<Alert>, projection: Option<Projection>,
                              orders: map<Uuid, WorkOrder>, id: Uuid, alert: Alert, wo: WorkOrder)
    requires CacheOk(key, risk, alerts, projection, orders) && id < |alerts| - 1
    ensures CacheOk(key, risk, alerts[id := alert], projection, orders[id := wo])
  {}

  ghost predicate MayFollow(a: Aggregate, outbox: seq<Event>, id: Uuid, wo: WorkOrder) {
    && OpenAt(a.workOrders, id) && id < |a.alerts|
    && wo.body == a.workOrders[id].body
    && OrderOk(a.key, id, Followed(a, id, wo).alerts[id], wo)
    && AlarmsOk(outbox, AlarmVersion(a), |a.alerts|)
    && CommandsOk(outbox, a.workOrders[id := wo])
  }

  lemma FollowedHead(a: Aggregate, outbox: seq<Event>, id: Uuid, wo: WorkOrder)
    requires Inv(a) && HasProjection(a, id) && id < |a.alerts| && id in a.workOrders && wo.body == a.workOrders[id].body
    ensures HeadOk(Followed(a.(outbox := outbox), id, wo), a.projection.value)
  {}

  lemma FollowedTables(a: Aggregate, outbox: seq<Event>, id: Uuid, wo: WorkOrder)
    requires Inv(a) && MayFollow(a, outbox, id, wo)
    ensures TablesOk(Followed(a.(outbox := outbox), id, wo))
  {
    OrderMoved(a.(outbox := outbox), id, wo);
  }

  lemma FollowedReady(a: Aggregate, outbox: seq<Event>, id: Uuid, wo: WorkOrder)
    requires Inv(a) && MayFollow(a, outbox, id, wo) && HasProjection(a, id)
    ensures ReadyToQueue(Followed(a.(outbox := outbox), id, wo), a.projection.value, {id}, |a.alerts|)
  {
    FollowedHead(a, outbox, id, wo);
    FollowedTables(a, outbox, id, wo);
  }

  lemma FollowedOldKeepsInv(a: Aggregate, outbox: seq<Event>, id: Uuid, wo: WorkOrder)
    requires Inv(a) && MayFollow(a, outbox, id, wo) && !HasProjection(a, id)
    ensures Inv(Followed(a.(outbox := outbox), id, wo))
  {
    var b := Followed(a.(outbox := outbox), id, wo);
    OrderMoved(a.(outbox := outbox), id, wo);
    assert CacheOk(b.key, b.risk, b.alerts, b.projection, b.workOrders) by {
      CacheIgnoresOldAlerts(a.key, a.risk, a.alerts, a.projection, a.workOrders, id, b.alerts[id], wo);
    }
  }

  lemma FollowKeepsInv(a: Aggregate, outbox: seq<Event>, id: Uuid, wo: WorkOrder, now: Time)
    requires Inv(a) && a.risk.Some? && MayFollow(a, outbox, id, wo)
    ensures Inv(FollowOrder(a.(outbox := outbox), id, wo, now))
  {
    if HasProjection(a, id) {
      FollowedReady(a, outbox, id, wo);
      RequeueInv(Followed(a.(outbox := outbox), id, wo), a.projection.value, {id}, |a.alerts|, now);
    } else {
      FollowedOldKeepsInv(a, outbox, id, wo);
    }
  }

  /** What `save_created_work_order` stores. */
  function CreatedOrder(wo: WorkOrder, reply: CmmsReply, m: Maintenance, now: Time): WorkOrder {
    wo.(cmmsId := Some(reply.id), status := Some(reply.status), eventVersion := Some(reply.eventVersion),
        updatedAt := Some(reply.updatedAt), maintenance := m, nextPollAt := NextPoll(m, now))
  }

  lemma CreatedMayFollow(a: Aggregate, event: nat, reply: CmmsReply, m: Maintenance, now: Time)
    requires Inv(a) && IsCreateEvent(a, event) && a.outbox[event].status.InFlight?
    requires MaintenanceOf(reply.status) == Some(m)
    ensures a.risk.Some? && a.outbox[event].alertId in a.workOrders && a.outbox[event].alertId < |a.alerts|
    ensures var id := a.outbox[event].alertId;
            MayFollow(a, a.outbox[event := a.outbox[event].(status := Delivered, owner := None, expires := None)],
                      id, CreatedOrder(a.workOrders[id], reply, m, now))
  {
    var id := a.outbox[event].alertId;
    assert id in a.workOrders && a.workOrders[id].cmmsId.None?;
    var done := a.outbox[event].(status := Delivered, owner := None, expires := None);
    CommandSaved(a.outbox, event, done, a.workOrders, CreatedOrder(a.workOrders[id], reply, m, now),
                 AlarmVersion(a), |a.alerts|);
  }

  lemma SaveCreatedKeepsInv(a: Aggregate, event: nat, owner: string, reply: CmmsReply, now: Time)
    requires Inv(a) && IsCreateEvent(a, event)
    ensures Inv(SaveCreated(a, event, owner, reply, now))
  {
    if Holds(a, event, owner) && MaintenanceOf(reply.status).Some? {
      var id, m := a.outbox[event].alertId, MaintenanceOf(reply.status).value;
      var done := a.outbox[event].(status := Delivered, owner := None, expires := None);
      CreatedMayFollow(a, event, reply, m, now);
      FollowKeepsInv(a, a.outbox[event := done], id, CreatedOrder(a.workOrders[id], reply, m, now), now);
    }
  }

  lemma CommandSaved(outbox: seq<Event>, event: nat, done: Event, orders: map<Uuid, WorkOrder>, wo: WorkOrder,
                     version: nat, count: nat)
    requires AlarmsOk(outbox, version, count) && CommandsOk(outbox, orders)
    requires event < |outbox| && outbox[event].kind.WorkOrderCreate?
    requires done == outbox[event].(status := Delivered, owner := None, expires := None) && wo.cmmsId.Some?
    ensures AlarmsOk(outbox[event := done], version, count)
    ensures CommandsOk(outbox[event := done], orders[done.alertId := wo])
  {
    var after := outbox[event := done];
    AlarmCountFrames(outbox, after);
    CommandIdsFrame(outbox, after);
    SameCommands(outbox, after);
    assert LeaseOk(outbox[event]);
    forall i | 0 <= i < |after| && after[i].kind.AlarmSync? ensures AlarmEventOk(after, i, version, count) {
      assert AlarmEventOk(outbox, i, version, count);
    }
    forall i | 0 <= i < |after| && after[i].kind.WorkOrderCreate? && i != event
      ensures after[i].alertId != done.alertId
    {
      assert CommandFor(outbox, event, done.alertId);
      assert CommandFor(outbox, i, outbox[i].alertId);
    }
  }

  /** Only the polling columns of work orders changed. */
  ghost predicate SameButPolling(o1: map<Uuid, WorkOrder>, o2: map<Uuid, WorkOrder>) {
    && o1.Keys == o2.Keys
    && forall id :: id in o1 ==>
         o2[id] == o1[id].(nextPollAt := o2[id].nextPollAt, pollOwner := o2[id].pollOwner, pollExpires := o2[id].pollExpires)
  }

  lemma PollingTables(a: Aggregate, orders: map<Uuid, WorkOrder>)
    requires TablesOk(a) && SameButPolling(a.workOrders, orders)
    requires forall id :: id in orders ==> id < |a.alerts| && OrderOk(a.key, id, a.alerts[id], orders[id])
    ensures TablesOk(a.(workOrders := orders))
  {
    forall id ensures OpenAt(orders, id) <==> OpenAt(a.workOrders, id) {}
  }

  lemma PollingKeepsInv(a: Aggregate, orders: map<Uuid, WorkOrder>)
    requires Inv(a) && SameButPolling(a.workOrders, orders)
    requires forall id :: id in orders ==> id < |a.alerts| && OrderOk(a.key, id, a.alerts[id], orders[id])
    ensures Inv(a.(workOrders := orders))
  {
    PollingTables(a, orders);
    assert CommandsOk(a.outbox, orders);
  }

  lemma OnePollKeepsInv(a: Aggregate, id: Uuid, wo: WorkOrder)
    requires Inv(a) && id in a.workOrders
    requires wo == a.workOrders[id].(nextPollAt := wo.nextPollAt, pollOwner := wo.pollOwner, pollExpires := wo.pollExpires)
    requires id < |a.alerts| && OrderOk(a.key, id, a.alerts[id], wo)
    ensures Inv(SetOrder(a, id, wo))
  {
    PollingKeepsInv(a, a.workOrders[id := wo]);
  }

  lemma ExpiredPollsOk(key: Key, alerts: seq<Alert>, orders: map<Uuid, WorkOrder>, now: Time)
    requires OrdersOk(key, alerts, orders)
    ensures SameButPolling(orders, ExpirePolls(orders, now))
    ensures forall id :: id in ExpirePolls(orders, now) ==>
              id < |alerts| && OrderOk(key, id, alerts[id], ExpirePolls(orders, now)[id])
  {
    assert ExpirePolls(orders, now).Keys == orders.Keys;
  }

  lemma ExpirePollsKeepsInv(a: Aggregate, now: Time)
    requires Inv(a)
    ensures Inv(a.(workOrders := ExpirePolls(a.workOrders, now)))
  {
    ExpiredPollsOk(a.key, a.alerts, a.workOrders, now);
    PollingKeepsInv(a, ExpirePolls(a.workOrders, now));
  }

  lemma ClaimPollKeepsInv(a: Aggregate, id: Uuid, owner: string, now: Time)
    requires Inv(a)
    ensures Inv(ClaimPoll(a, id, owner, now))
  {
    var orders := ExpirePolls(a.workOrders, now);
    var b := a.(workOrders := orders);
    assert Inv(b) by { ExpirePollsKeepsInv(a, now); }
    if id in orders && Pollable(orders[id], now) {
      OnePollKeepsInv(b, id, orders[id].(pollOwner := Some(owner), pollExpires := Some(now + LEASE_SECONDS)));
    }
  }

  lemma ApplyStatusKeepsInv(a: Aggregate, id: Uuid, owner: string, reply: CmmsReply, now: Time)
    requires Inv(a)
    ensures Inv(ApplyStatus(a, id, owner, reply, now))
  {
    var decision := PollDecision(a, id, owner, reply);
    if !decision.LeaseLost? && !decision.StatusInvalid? {
      var wo := a.workOrders[id].(pollOwner := None, pollExpires := None);
      if decision.Applied? {
        var m := MaintenanceOf(reply.status).value;
        var wo' := wo.(eventVersion := Some(reply.eventVersion), status := Some(reply.status),
                       updatedAt := Some(reply.updatedAt), maintenance := m, nextPollAt := NextPoll(m, now));
        CommandsFollow(a.outbox, a.workOrders, id, wo');
        FollowKeepsInv(a, a.outbox, id, wo', now);
        assert a.(outbox := a.outbox) == a;
      } else {
        OnePollKeepsInv(a, id, wo.(nextPollAt := NextPoll(wo.maintenance, now)));
      }
    }
  }

  lemma CommandsFollow(outbox: seq<Event>, orders: map<Uuid, WorkOrder>, id: Uuid, wo: WorkOrder)
    requires CommandsOk(outbox, orders) && id in orders && orders[id].cmmsId.Some? && wo.cmmsId.Some?
    ensures CommandsOk(outbox, orders[id := wo])
  {}

  lemma FailPollKeepsInv(a: Aggregate, id: Uuid, owner: string, now: Time)
    requires Inv(a)
    ensures Inv(FailPoll(a, id, owner, now))
  {
    if id in a.workOrders && a.workOrders[id].pollOwner == Some(owner) {
      OnePollKeepsInv(a, id, FailPoll(a, id, owner, now).workOrders[id]);
    }
  }

  // ---------------------------------------------------------------- every step, every run

  lemma RoundStepKeepsInv(a: Aggregate, t: Txn)
    requires Inv(a) && Enabled(a, t)
    requires t.NewSlot? || t.SucceedRound? || t.FailRound? || t.Create? || t.Close?
    ensures Inv(Step(a, t))
  {
    match t
    case NewSlot(run, at) =>
    case SucceedRound(info, mapping, pilot, now) => RoundSucceededKeepsInv(a, info, mapping, pilot, now);
    case FailRound(run, upsert) => RoundFailedKeepsInv(a, run, upsert);
    case Create(call) => CreateKeepsInv(a, call);
    case Close(call) => CloseKeepsInv(a, call);
  }

  lemma FinishStepKeepsInv(a: Aggregate, t: Txn)
    requires Inv(a) && Enabled(a, t)
    requires t.Discard? || t.MarkCleared? || t.GiveUp?
    ensures Inv(Step(a, t))
  {
    match t
    case Discard(event, owner) => FinishKeepsInv(a, event, owner, Superseded);
    case MarkCleared(event, owner) => FinishKeepsInv(a, event, owner, Delivered);
    case GiveUp(event, owner) => FinishKeepsInv(a, event, owner, DeadLetter);
  }

  lemma LeaseStepKeepsInv(a: Aggregate, t: Txn)
    requires Inv(a) && Enabled(a, t)
    requires t.Claim? || t.Retry? || t.SaveAlarm?
    ensures Inv(Step(a, t))
  {
    match t
    case Claim(kind, pick, owner, now) => ClaimKeepsInv(a, kind, pick, owner, now);
    case Retry(event, owner, now) => RetryKeepsInv(a, event, owner, now);
    case SaveAlarm(event, owner, alarmId) => SaveAlarmKeepsInv(a, event, owner, a.outbox[event].alertId, alarmId);
  }

  lemma SaveStepKeepsInv(a: Aggregate, t: Txn)
    requires Inv(a) && Enabled(a, t)
    requires t.SaveOrder? || t.FinishPoll?
    ensures Inv(Step(a, t))
  {
    match t
    case SaveOrder(event, owner, reply, now) => SaveCreatedKeepsInv(a, event, owner, reply, now);
    case FinishPoll(id, owner, reply, now) => ApplyStatusKeepsInv(a, id, owner, reply, now);
  }

  lemma PollStepKeepsInv(a: Aggregate, t: Txn)
    requires Inv(a)
    requires t.StartPoll? || t.AbandonPoll?
    ensures Inv(Step(a, t))
  {
    PollSteps(a, t);
    if t.StartPoll? {
      ClaimPollKeepsInv(a, t.id, t.owner, t.now);
    } else {
      FailPollKeepsInv(a, t.id, t.owner, t.now);
    }
  }

  lemma PollSteps(a: Aggregate, t: Txn)
    requires t.StartPoll? || t.AbandonPoll?
    ensures Step(a, t) == if t.StartPoll? then ClaimPoll(a, t.id, t.owner, t.now) else FailPoll(a, t.id, t.owner, t.now)
  {}

  lemma StepKeepsInv(a: Aggregate, t: Txn)
    requires Inv(a)
    ensures Inv(Step(a, t))
  {
    if !Enabled(a, t) {
    } else if t.NewSlot? || t.SucceedRound? || t.FailRound? || t.Create? || t.Close? {
      RoundStepKeepsInv(a, t);
    } else if t.SaveOrder? || t.FinishPoll? {
      SaveStepKeepsInv(a, t);
    } else if t.StartPoll? || t.AbandonPoll? {
      PollStepKeepsInv(a, t);
    } else if t.Claim? || t.Retry? || t.SaveAlarm? {
      LeaseStepKeepsInv(a, t);
    } else {
      FinishStepKeepsInv(a, t);
    }
  }

  lemma {:induction false} RunKeepsInv(a: Aggregate, ts: seq<Txn>)
    requires Inv(a)
    ensures Inv(Run(a, ts))
  {
    if ts != [] {
      RunKeepsInv(a, ts[..|ts| - 1]);
      StepKeepsInv(Run(a, ts[..|ts| - 1]), ts[|ts| - 1]);
    }
  }
}
