/** What the closed loop promises in every state of every run. */
module ClosedLoopTheorems {
  import opened Basics
  import opened ClosedLoop
  import opened ClosedLoopInvariant
  import opened ClosedLoopEvolution

  // ---------------------------------------------------------------- cache coherence

  /** The details show the alert and its work order, column by column. */
  ghost predicate Pictures(d: Details, key: Key, id: Uuid, alert: Alert, orders: map<Uuid, WorkOrder>) {
    && d.key == key && d.alertId == id
    && d.runId == alert.runId && d.provenance == alert.provenance && d.forecast == alert.forecast
    && d.phase == alert.phase && d.maintenance == alert.maintenance
    && d.alertVersion == alert.version && d.actionAllowed == alert.actionAllowed
    && (d.order.Some? <==> id in orders)
    && (id in orders ==>
          && d.order.value.cmmsId == orders[id].cmmsId && d.order.value.status == orders[id].status
          && d.order.value.eventVersion == orders[id].eventVersion && d.order.value.updatedAt == orders[id].updatedAt)
  }

  /** The cached projection is never behind the rows it summarises. */
  ghost predicate Coherent(a: Aggregate) {
    && (a.projection.Some? <==> a.alerts != [])
    && (a.alerts != [] ==>
          var id, p := |a.alerts| - 1, a.projection.value;
          && a.risk.Some? && a.risk.value.alertId == Some(id) && p.alertId == id
          && p.version == a.risk.value.alarmVersion
          && p.desiredActive == a.risk.value.counters.active
          && p.desiredActive == a.alerts[id].phase.RiskActive?
          && Pictures(p.details, a.key, id, a.alerts[id], a.workOrders))
    && forall id :: id in a.workOrders ==>
         id < |a.alerts| && a.workOrders[id].maintenance == a.alerts[id].maintenance
  }

  lemma InvIsCoherent(a: Aggregate)
    requires Inv(a)
    ensures Coherent(a)
  {}

  // ---------------------------------------------------------------- no lost intent

  predicate AlarmAt(outbox: seq<Event>, i: nat, version: nat) {
    i < |outbox| && outbox[i].kind.AlarmSync? && outbox[i].version == version
  }

  ghost predicate HasVersion(outbox: seq<Event>, version: nat) {
    exists i: nat :: AlarmAt(outbox, i, version)
  }

  lemma {:induction false} RankExists(outbox: seq<Event>, n: nat, rank: nat) returns (i: nat)
    requires n <= |outbox| && 1 <= rank <= AlarmCount(outbox, n)
    ensures i < n && outbox[i].kind.AlarmSync? && AlarmCount(outbox, i) + 1 == rank
  {
    if outbox[n - 1].kind.AlarmSync? && rank == AlarmCount(outbox, n) {
      i := n - 1;
    } else {
      i := RankExists(outbox, n - 1, rank);
    }
  }

  lemma RankOf(a: Aggregate, i: nat)
    requires Inv(a) && i < |a.outbox| && a.outbox[i].kind.AlarmSync?
    ensures a.outbox[i].version == AlarmCount(a.outbox, i) + 1 <= AlarmVersion(a)
    ensures a.outbox[i].status.Pending? ==> a.outbox[i].version == AlarmVersion(a)
    ensures a.outbox[i].status.Superseded? ==> a.outbox[i].version < AlarmVersion(a)
    ensures a.outbox[i].version == AlarmVersion(a) ==>
              a.projection.Some? && a.outbox[i].alertId == a.projection.value.alertId
  {
    assert AlarmEventOk(a.outbox, i, AlarmVersion(a), |a.alerts|);
    AlarmCountMonotone(a.outbox, i, |a.outbox|);
  }

  /** The alarm events of a risk key carry the versions 1 to the current one, each exactly once. */
  lemma VersionsExact(a: Aggregate)
    requires Inv(a)
    ensures forall v: nat :: 1 <= v <= AlarmVersion(a) ==> HasVersion(a.outbox, v)
    ensures forall i: nat, v: nat :: AlarmAt(a.outbox, i, v) ==> 1 <= v <= AlarmVersion(a)
    ensures forall i: nat, j: nat, v: nat :: AlarmAt(a.outbox, i, v) && AlarmAt(a.outbox, j, v) ==> i == j
  {
    var n := |a.outbox|;
    forall v: nat | 1 <= v <= AlarmVersion(a) ensures HasVersion(a.outbox, v) {
      var i := RankExists(a.outbox, n, v);
      RankOf(a, i);
      assert AlarmAt(a.outbox, i, v);
    }
    forall i: nat, v: nat | AlarmAt(a.outbox, i, v) ensures 1 <= v <= AlarmVersion(a) {
      RankOf(a, i);
    }
    forall i: nat, j: nat, v: nat | AlarmAt(a.outbox, i, v) && AlarmAt(a.outbox, j, v) ensures i == j {
      RankOf(a, i);
      RankOf(a, j);
      if i < j {
        AlarmCountMonotone(a.outbox, i, j);
      } else if j < i {
        AlarmCountMonotone(a.outbox, j, i);
      }
    }
  }

  ghost predicate NothingLost(a: Aggregate) {
    && (forall v: nat :: 1 <= v <= AlarmVersion(a) ==> HasVersion(a.outbox, v))
    && (forall i: nat, v: nat :: AlarmAt(a.outbox, i, v) ==> 1 <= v <= AlarmVersion(a))
    && (forall i: nat, j: nat, v: nat :: AlarmAt(a.outbox, i, v) && AlarmAt(a.outbox, j, v) ==> i == j)
    && forall i: nat :: i < |a.outbox| ==>
         && (a.outbox[i].status.Pending? && a.outbox[i].kind.AlarmSync? ==> a.outbox[i].version == AlarmVersion(a))
         && (a.outbox[i].status.Superseded? ==> a.outbox[i].kind.AlarmSync? && a.outbox[i].version < AlarmVersion(a))
         && (AlarmAt(a.outbox, i, AlarmVersion(a)) ==>
               a.projection.Some? && a.outbox[i].alertId == a.projection.value.alertId)
  }

  lemma InvLosesNothing(a: Aggregate)
    requires Inv(a)
    ensures NothingLost(a)
  {
    VersionsExact(a);
    forall i: nat | i < |a.outbox|
      ensures a.outbox[i].status.Superseded? ==> a.outbox[i].kind.AlarmSync? && a.outbox[i].version < AlarmVersion(a)
      ensures a.outbox[i].kind.AlarmSync? && a.outbox[i].status.Pending? ==> a.outbox[i].version == AlarmVersion(a)
      ensures AlarmAt(a.outbox, i, AlarmVersion(a)) ==>
                a.projection.Some? && a.outbox[i].alertId == a.projection.value.alertId
    {
      if a.outbox[i].kind.AlarmSync? {
        RankOf(a, i);
      }
    }
  }

  // ---------------------------------------------------------------- work orders

  /** At most one open work order per risk key; an alert that may be acted on has only completed ones around it. */
  ghost predicate OneOpenOrder(a: Aggregate) {
    && (forall i, j :: OpenAt(a.workOrders, i) && OpenAt(a.workOrders, j) ==> i == j)
    && forall i: nat, alarm, mapping, id ::
         i < |a.alerts| && ActionableError(a.alerts[i], alarm, mapping).None? && id in a.workOrders ==>
           i == |a.alerts| - 1 && id != i && a.workOrders[id].maintenance.WorkOrderComplete?
  }

  lemma InvHasOneOpenOrder(a: Aggregate)
    requires Inv(a)
    ensures OneOpenOrder(a)
  {
    forall i: nat, alarm, mapping, id |
      i < |a.alerts| && ActionableError(a.alerts[i], alarm, mapping).None? && id in a.workOrders
      ensures i == |a.alerts| - 1 && i != id && a.workOrders[id].maintenance.WorkOrderComplete?
    {
      assert !OpenAt(a.workOrders, id);
      assert OrderOk(a.key, id, a.alerts[id], a.workOrders[id]);
    }
  }

  ghost predicate SavedOnce(a: Aggregate, i: nat, id: Uuid)
    requires id in a.workOrders
  {
    && CommandFor(a.outbox, i, id)
    && (a.outbox[i].status.Delivered? <==> a.workOrders[id].cmmsId.Some?)
    && forall j: nat :: CommandFor(a.outbox, j, id) ==> j == i
  }

  /**
    Creation is recorded together with the delivery of its only command and before any poll; a created work order
    is due for polling exactly while it is not complete.
   */
  ghost predicate PollsCreatedOrders(a: Aggregate) {
    forall id :: id in a.workOrders ==>
      && (exists i: nat :: SavedOnce(a, i, id))
      && (a.workOrders[id].pollOwner.Some? ==> a.workOrders[id].cmmsId.Some?)
      && (a.workOrders[id].nextPollAt.Some? <==>
            a.workOrders[id].cmmsId.Some? && !a.workOrders[id].maintenance.WorkOrderComplete?)
  }

  lemma InvPollsCreatedOrders(a: Aggregate)
    requires Inv(a)
    ensures PollsCreatedOrders(a)
  {
    forall id | id in a.workOrders
      ensures exists i: nat :: SavedOnce(a, i, id)
      ensures a.workOrders[id].pollOwner.Some? ==> a.workOrders[id].cmmsId.Some?
      ensures a.workOrders[id].nextPollAt.Some? <==>
                a.workOrders[id].cmmsId.Some? && !a.workOrders[id].maintenance.WorkOrderComplete?
    {
      var i := CommandExists(a.outbox, id);
      assert SavedOnce(a, i, id);
      assert OrderOk(a.key, id, a.alerts[id], a.workOrders[id]);
    }
  }

  // ---------------------------------------------------------------- every reachable state

  /** Over every run: coherent cache, no lost alarm intent, one open work order, orderly creation and polling. */
  lemma EveryReachableState(key: Key, ts: seq<Txn>)
    ensures var a := Run(Empty(key), ts);
            Coherent(a) && NothingLost(a) && OneOpenOrder(a) && PollsCreatedOrders(a)
  {
    var a := Run(Empty(key), ts);
    EmptyInv(key);
    RunKeepsInv(Empty(key), ts);
    InvIsCoherent(a);
    InvLosesNothing(a);
    InvHasOneOpenOrder(a);
    InvPollsCreatedOrders(a);
  }

  lemma {:induction false} RunSplits(a: Aggregate, before: seq<Txn>, after: seq<Txn>)
    ensures Run(a, before + after) == Run(Run(a, before), after)
  {
    if after == [] {
      assert before + after == before;
    } else {
      var n := |after| - 1;
      RunSplits(a, before, after[..n]);
      assert (before + after)[..|before + after| - 1] == before + after[..n];
    }
  }

  lemma RunOne(a: Aggregate, t: Txn)
    ensures Run(a, [t]) == Step(a, t) && Run(a, []) == a
  {
    assert [t][..0] == [];
  }

  /** Once complete, a work order never changes again, whatever replies are still under way. */
  lemma CompleteIsAbsorbing(key: Key, before: seq<Txn>, after: seq<Txn>, id: Uuid)
    requires var a := Run(Empty(key), before);
             id in a.workOrders && a.workOrders[id].maintenance.WorkOrderComplete?
    ensures var b := Run(Empty(key), before + after);
            id in b.workOrders && b.workOrders[id] == Run(Empty(key), before).workOrders[id]
  {
    EmptyInv(key);
    RunKeepsInv(Empty(key), before);
    RunGrows(Run(Empty(key), before), after);
    RunSplits(Empty(key), before, after);
  }

  // ---------------------------------------------------------------- the newest CMMS version wins

  /** The CMMS reports one status per work order and event version. */
  ghost predicate Consistent(a: Aggregate, t: Txn, statusAt: (Uuid, nat) -> string) {
    match t
    case SaveOrder(event, _, reply, _) =>
      event < |a.outbox| ==> reply.status == statusAt(a.outbox[event].alertId, reply.eventVersion)
    case FinishPoll(id, _, reply, _) => reply.status == statusAt(id, reply.eventVersion)
    case _ => true
  }

  ghost predicate ConsistentRun(a: Aggregate, ts: seq<Txn>, statusAt: (Uuid, nat) -> string) {
    ts != [] ==>
      var front := ts[..|ts| - 1];
      ConsistentRun(a, front, statusAt) && Consistent(Run(a, front), ts[|ts| - 1], statusAt)
  }

  /** The version a transaction gets to compare with the stored one, under a valid lease. */
  function VersionSeen(a: Aggregate, t: Txn, id: Uuid): Option<nat> {
    match t
    case SaveOrder(event, owner, reply, _) =>
      if IsCreateEvent(a, event) && Holds(a, event, owner) && a.outbox[event].alertId == id
         && id in a.workOrders && MaintenanceOf(reply.status).Some?
      then Some(reply.eventVersion) else None
    case FinishPoll(order, owner, reply, _) =>
      var d := PollDecision(a, order, owner, reply);
      if order == id && !d.LeaseLost? && !d.StatusInvalid? then Some(reply.eventVersion) else None
    case _ => None
  }

  function Greater(x: Option<nat>, y: Option<nat>): Option<nat> {
    match (x, y)
    case (None, _) => y
    case (_, None) => x
    case (Some(m), Some(n)) => if m < n then y else x
  }

  function GreatestSeen(a: Aggregate, ts: seq<Txn>, id: Uuid): Option<nat> {
    if ts == [] then None
    else
      var front := ts[..|ts| - 1];
      Greater(GreatestSeen(a, front, id), VersionSeen(Run(a, front), ts[|ts| - 1], id))
  }

  /** What the CMMS has told about the work order of an alert. */
  function RecordOf(a: Aggregate, id: Uuid): OrderDetails {
    if id in a.workOrders then OrderDetailsOf(a.workOrders[id]) else OrderDetails(None, None, None, None)
  }

  function VersionOf(a: Aggregate, id: Uuid): Option<nat> { RecordOf(a, id).eventVersion }

  function StatusOf(a: Aggregate, id: Uuid): Option<string> { RecordOf(a, id).status }

  /** Most transactions leave the work orders alone. */
  lemma OrdersUntouched(a: Aggregate, t: Txn)
    requires !t.Create? && !t.SaveOrder? && !t.StartPoll? && !t.FinishPoll? && !t.AbandonPoll?
    ensures Step(a, t).workOrders == a.workOrders
  {
    if t.SucceedRound? && Enabled(a, t) {
      RoundLeavesOrders(a, t.info, t.mapping, t.pilot, t.now);
    }
  }

  lemma RoundLeavesOrders(a: Aggregate, run: RunInfo, mapping: Option<Mapping>, pilot: Option<Uuid>, now: Time)
    requires run.runId in a.slots
    ensures RoundSucceeded(a, run, mapping, pilot, now).workOrders == a.workOrders
  {}

  lemma PollLeavesRecord(a: Aggregate, t: Txn, id: Uuid)
    requires t.StartPoll? || t.AbandonPoll?
    ensures RecordOf(Step(a, t), id) == RecordOf(a, id)
  {}

  lemma CreateWrites(a: Aggregate, call: ActionCall)
    ensures var r, id := CreateWorkOrder(a, call), call.auth.alertId;
            if r.reply.Ok? && !r.reply.value.replayed then
              && id < |a.alerts| && a.alerts[id].maintenance.PendingApproval?
              && id in r.after.workOrders && r.after.workOrders == a.workOrders[id := NewWorkOrder(r.after.workOrders[id].body)]
            else r.after == a
  {}

  lemma CreateAddsOrder(a: Aggregate, call: ActionCall, id: Uuid)
    requires Inv(a)
    ensures RecordOf(CreateWorkOrder(a, call).after, id) == RecordOf(a, id)
  {
    var r := CreateWorkOrder(a, call);
    CreateWrites(a, call);
    if r.reply.Ok? && !r.reply.value.replayed {
      assert call.auth.alertId !in a.workOrders by { PendingHasNoOrder(a, call.auth.alertId); }
    }
  }

  /** Only saving a creation and applying a poll touch what the CMMS is known to have said. */
  lemma RecordFrame(a: Aggregate, t: Txn, id: Uuid)
    requires Inv(a) && !t.SaveOrder? && !t.FinishPoll?
    ensures RecordOf(Step(a, t), id) == RecordOf(a, id)
  {
    if t.Create? {
      CreateAddsOrder(a, t.call, id);
    } else if t.StartPoll? || t.AbandonPoll? {
      PollLeavesRecord(a, t, id);
    } else {
      OrdersUntouched(a, t);
    }
  }

  ghost predicate StatusAgrees(a: Aggregate, id: Uuid, statusAt: (Uuid, nat) -> string) {
    VersionOf(a, id).Some? ==> StatusOf(a, id) == Some(statusAt(id, VersionOf(a, id).value))
  }

  /** A create command still in flight belongs to a work order the CMMS has not confirmed. */
  lemma CommandTarget(a: Aggregate, event: nat, owner: string)
    requires Inv(a) && IsCreateEvent(a, event) && Holds(a, event, owner)
    ensures var id := a.outbox[event].alertId;
            a.risk.Some? && id < |a.alerts| && id in a.workOrders && a.workOrders[id].eventVersion.None?
  {
    var id := a.outbox[event].alertId;
    assert OrderOk(a.key, id, a.alerts[id], a.workOrders[id]);
  }

  lemma CreatedStatus(a: Aggregate, event: nat, owner: string, reply: CmmsReply, now: Time, id: Uuid,
                      statusAt: (Uuid, nat) -> string)
    requires Holds(a, event, owner)
    requires var order := a.outbox[event].alertId;
             a.risk.Some? && order < |a.alerts| && order in a.workOrders && a.workOrders[order].eventVersion.None?
    requires IsCreateEvent(a, event) && reply.status == statusAt(a.outbox[event].alertId, reply.eventVersion)
    requires StatusAgrees(a, id, statusAt)
    ensures var b := SaveCreated(a, event, owner, reply, now);
            && VersionOf(b, id) == Greater(VersionOf(a, id), VersionSeen(a, SaveOrder(event, owner, reply, now), id))
            && StatusAgrees(b, id, statusAt)
  {}

  lemma PolledStatus(a: Aggregate, t: Txn, id: Uuid, statusAt: (Uuid, nat) -> string)
    requires t.FinishPoll? && Consistent(a, t, statusAt) && StatusAgrees(a, id, statusAt)
    ensures var b := Step(a, t);
            VersionOf(b, id) == Greater(VersionOf(a, id), VersionSeen(a, t, id)) && StatusAgrees(b, id, statusAt)
  {}

  lemma StatusStep(a: Aggregate, t: Txn, id: Uuid, statusAt: (Uuid, nat) -> string)
    requires Inv(a) && Consistent(a, t, statusAt) && StatusAgrees(a, id, statusAt)
    ensures VersionOf(Step(a, t), id) == Greater(VersionOf(a, id), VersionSeen(a, t, id))
    ensures StatusAgrees(Step(a, t), id, statusAt)
  {
    if t.SaveOrder? {
      if Enabled(a, t) && Holds(a, t.event, t.owner) {
        CommandTarget(a, t.event, t.owner);
        CreatedStatus(a, t.event, t.owner, t.reply, t.now, id, statusAt);
      }
    } else if t.FinishPoll? {
      PolledStatus(a, t, id, statusAt);
    } else {
      RecordFrame(a, t, id);
    }
  }

  lemma {:induction false} StatusTracks(a: Aggregate, ts: seq<Txn>, id: Uuid, statusAt: (Uuid, nat) -> string)
    requires Inv(a) && VersionOf(a, id).None? && ConsistentRun(a, ts, statusAt)
    ensures VersionOf(Run(a, ts), id) == GreatestSeen(a, ts, id) && StatusAgrees(Run(a, ts), id, statusAt)
  {
    if ts != [] {
      var front := ts[..|ts| - 1];
      StatusTracks(a, front, id, statusAt);
      RunKeepsInv(a, front);
      StatusStep(Run(a, front), ts[|ts| - 1], id, statusAt);
    }
  }

  /** Whatever the order of arrival, the stored status is the one of the greatest version seen under a lease. */
  lemma NewestVersionWins(key: Key, ts: seq<Txn>, id: Uuid, statusAt: (Uuid, nat) -> string)
    requires ConsistentRun(Empty(key), ts, statusAt)
    ensures VersionOf(Run(Empty(key), ts), id) == GreatestSeen(Empty(key), ts, id)
    ensures StatusAgrees(Run(Empty(key), ts), id, statusAt)
  {
    EmptyInv(key);
    StatusTracks(Empty(key), ts, id, statusAt);
  }
}
