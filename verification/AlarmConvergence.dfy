/** Convergence of ThingsBoard with the alarm projection, whatever falls between the worker's steps. */
module AlarmConvergence {
  import opened Basics
  import opened ClosedLoop
  import opened ClosedLoopInvariant
  import opened ClosedLoopEvolution
  import opened ClosedLoopTheorems
  import opened AlarmDelivery

  // ---------------------------------------------------------------- the invariant

  predicate HasSent(worker: Worker) { worker.Read? || worker.Found? || worker.Written? || worker.Cleared? }

  /** The snapshot was the projection at some moment since the claimed event was queued. */
  ghost predicate SentOk(db: Aggregate, e: Event, sent: Projection) {
    && sent.alertId == e.alertId == sent.details.alertId
    && sent.details.key == db.key
    && sent.desiredActive == sent.details.phase.RiskActive?
    && e.version <= sent.version <= AlarmVersion(db)
    && (sent.version == AlarmVersion(db) ==> db.projection == Some(sent))
    && (HasProjection(db, sent.alertId) ==> SameIdentity(db.projection.value, sent))
    && sent.alertId < |db.alerts|
    && (!sent.desiredActive ==> !db.alerts[sent.alertId].phase.RiskActive?)
  }

  /** A busy worker still holds its alarm event. */
  ghost predicate WorkerOk(db: Aggregate, worker: Worker) {
    worker.Idle? || (
      var t := worker.ticket;
      && IsAlarmEvent(db, t.event) && Holds(db, t.event, t.owner)
      && (worker.Discarding? ==> !HasProjection(db, db.outbox[t.event].alertId))
      && (HasSent(worker) ==> SentOk(db, db.outbox[t.event], worker.sent)))
  }

  ghost predicate AlarmOk(db: Aggregate, alarm: TbAlarm) {
    && alarm.details.key == db.key
    && alarm.details.alertId < |db.alerts|
    && alarm.details.phase.RiskActive?
    && (!alarm.active ==> !db.alerts[alarm.details.alertId].phase.RiskActive?)
    && (HasProjection(db, alarm.details.alertId) ==> alarm.deviceId == db.projection.value.deviceId)
  }

  ghost predicate OneAlarmPerAlert(alarms: seq<TbAlarm>) {
    forall i: nat, j: nat :: i < |alarms| && j < |alarms| && alarms[i].details.alertId == alarms[j].details.alertId ==> i == j
  }

  predicate RefersTo(alarms: seq<TbAlarm>, alarmId: Option<Uuid>, alertId: Uuid) {
    alarmId.Some? ==> alarmId.value < |alarms| && alarms[alarmId.value].details.alertId == alertId
  }

  ghost predicate ProviderOk(db: Aggregate, alarms: seq<TbAlarm>) {
    && (forall i :: 0 <= i < |alarms| ==> AlarmOk(db, alarms[i]))
    && OneAlarmPerAlert(alarms)
    && (db.projection.Some? ==> RefersTo(alarms, db.projection.value.alarmId, db.projection.value.alertId))
  }

  ghost predicate AllInactive(alarms: seq<TbAlarm>, alertId: Uuid) {
    forall i :: 0 <= i < |alarms| && alarms[i].details.alertId == alertId ==> !alarms[i].active
  }

  /** What the worker knows of the provider. */
  ghost predicate FlightOk(alarms: seq<TbAlarm>, worker: Worker) {
    HasSent(worker) ==>
      var sent := worker.sent;
      && (forall i :: 0 <= i < |alarms| && alarms[i].details.alertId == sent.alertId ==>
            alarms[i].deviceId == sent.deviceId && alarms[i].details.key == sent.details.key
            && (sent.desiredActive ==> alarms[i].active))
      && RefersTo(alarms, sent.alarmId, sent.alertId)
      && (worker.Found? ==> FindAlarm(alarms, sent) == Ok(worker.existing))
      && (worker.Written? ==>
            sent.desiredActive && worker.alarmId < |alarms| && alarms[worker.alarmId] == ActiveAlarm(sent))
      && (worker.Cleared? ==> !sent.desiredActive && AllInactive(alarms, sent.alertId))
  }

  /** The provider shows the projection: the exact active alarm, or no active alarm at all. */
  ghost predicate Shows(alarms: seq<TbAlarm>, p: Projection) {
    if p.desiredActive then
      p.alarmId.Some? && p.alarmId.value < |alarms| && alarms[p.alarmId.value] == ActiveAlarm(p)
    else AllInactive(alarms, p.alertId)
  }

  predicate DeliveredAt(db: Aggregate, event: nat) {
    event < |db.outbox| && AlarmAt(db.outbox, event, AlarmVersion(db)) && db.outbox[event].status.Delivered?
  }

  ghost predicate Synced(db: Aggregate, alarms: seq<TbAlarm>, worker: Worker) {
    forall event: nat :: DeliveredAt(db, event) ==>
      && db.projection.Some? && Shows(alarms, db.projection.value)
      && (HasSent(worker) ==> worker.sent.version == AlarmVersion(db))
  }

  ghost predicate WorldInv(w: World) {
    && Inv(w.db)
    && WorkerOk(w.db, w.worker)
    && ProviderOk(w.db, w.alarms)
    && FlightOk(w.alarms, w.worker)
    && Synced(w.db, w.alarms, w.worker)
  }

  lemma StartInv(key: Key)
    ensures WorldInv(Start(key))
  {
    EmptyInv(key);
  }

  // ---------------------------------------------------------------- other transactions

  ghost predicate OthersMove(a: Aggregate, b: Aggregate) {
    Inv(a) && Inv(b) && Grows(a, b) && AlarmsRest(a.outbox, b.outbox) && ProjectionFrame(a, b)
  }

  lemma OthersDo(a: Aggregate, t: Txn)
    requires Inv(a) && ByOthers(a, t)
    ensures OthersMove(a, Step(a, t))
  {
    StepKeepsInv(a, t);
    StepGrows(a, t);
    OthersRest(a, t);
    OthersFrame(a, t);
  }

  lemma OthersKeepSent(a: Aggregate, b: Aggregate, e: Event, sent: Projection)
    requires OthersMove(a, b) && SentOk(a, e, sent)
    ensures SentOk(b, e, sent)
  {
    assert AlertGrows(a.alerts[sent.alertId], b.alerts[sent.alertId]);
  }

  lemma OthersKeepWorker(a: Aggregate, b: Aggregate, worker: Worker)
    requires OthersMove(a, b) && WorkerOk(a, worker)
    ensures WorkerOk(b, worker)
  {
    if !worker.Idle? {
      var event := worker.ticket.event;
      assert b.outbox[event] == a.outbox[event];
      RankOf(a, event);
      if HasSent(worker) {
        OthersKeepSent(a, b, a.outbox[event], worker.sent);
      }
      assert AlarmEventOk(a.outbox, event, AlarmVersion(a), |a.alerts|);
    }
  }

  lemma OthersKeepProvider(a: Aggregate, b: Aggregate, alarms: seq<TbAlarm>)
    requires OthersMove(a, b) && ProviderOk(a, alarms)
    ensures ProviderOk(b, alarms)
  {
    forall i | 0 <= i < |alarms| ensures AlarmOk(b, alarms[i]) {
      var id := alarms[i].details.alertId;
      assert AlarmOk(a, alarms[i]);
      assert AlertGrows(a.alerts[id], b.alerts[id]);
    }
  }

  lemma OthersKeepSync(a: Aggregate, b: Aggregate, alarms: seq<TbAlarm>, worker: Worker)
    requires OthersMove(a, b) && Synced(a, alarms, worker)
    ensures Synced(b, alarms, worker)
  {
    forall event: nat | DeliveredAt(b, event)
      ensures b.projection.Some? && Shows(alarms, b.projection.value)
      ensures HasSent(worker) ==> worker.sent.version == AlarmVersion(b)
    {
      assert event < |a.outbox|;
      assert b.outbox[event] == a.outbox[event];
      RankOf(a, event);
      assert DeliveredAt(a, event);
    }
  }

  lemma OthersKeepWorld(w: World, t: Txn)
    requires WorldInv(w) && ByOthers(w.db, t)
    ensures WorldInv(Act(w, Other(t)))
  {
    OthersDo(w.db, t);
    OthersKeepWorker(w.db, Step(w.db, t), w.worker);
    OthersKeepProvider(w.db, Step(w.db, t), w.alarms);
    OthersKeepSync(w.db, Step(w.db, t), w.alarms, w.worker);
  }

  // ---------------------------------------------------------------- the worker's own steps

  /** A step of the worker's own claim: the queue may settle `event`, and nothing but an alarm id may change beside it. */
  ghost predicate OwnMove(a: Aggregate, b: Aggregate, event: nat) { Inv(a) && Inv(b) && OwnShape(a, b, event) }

  ghost predicate OwnShape(a: Aggregate, b: Aggregate, event: nat) {
    && b.key == a.key && b.alerts == a.alerts && b.risk == a.risk
    && |b.outbox| == |a.outbox|
    && forall i :: 0 <= i < |a.outbox| ==>
         b.outbox[i].kind == a.outbox[i].kind && b.outbox[i].version == a.outbox[i].version
         && (b.outbox[i].status.Delivered? && i != event ==> a.outbox[i].status.Delivered?)
  }

  lemma OwnSync(a: Aggregate, b: Aggregate, event: nat, alarms: seq<TbAlarm>, worker: Worker)
    requires OwnMove(a, b, event) && Synced(a, alarms, worker) && b.projection == a.projection
    requires event < |b.outbox| && b.outbox[event].status.Delivered? ==> a.outbox[event].status.Delivered?
    ensures Synced(b, alarms, Idle)
  {
    forall e: nat | DeliveredAt(b, e) ensures b.projection.Some? && Shows(alarms, b.projection.value) {
      assert DeliveredAt(a, e);
    }
  }

  lemma OwnProvider(a: Aggregate, b: Aggregate, event: nat, alarms: seq<TbAlarm>)
    requires OwnMove(a, b, event) && ProviderOk(a, alarms) && b.projection == a.projection
    ensures ProviderOk(b, alarms)
  {
    forall i | 0 <= i < |alarms| ensures AlarmOk(b, alarms[i]) {
      assert AlarmOk(a, alarms[i]);
    }
  }

  lemma ClaimShape(a: Aggregate, pick: nat, owner: string, now: Time)
    ensures var b := ClaimOutbox(a, AlarmSync, pick, owner, now);
            && OwnShape(a, b, |a.outbox|) && b.projection == a.projection
            && (CanTake(a, pick, now) ==> IsAlarmEvent(b, pick) && Holds(b, pick, owner))
  {
    var b := ClaimOutbox(a, AlarmSync, pick, owner, now);
    var expired := ExpireLeases(a.outbox, AlarmSync, now);
    forall i | 0 <= i < |a.outbox|
      ensures b.outbox[i].kind == a.outbox[i].kind && b.outbox[i].version == a.outbox[i].version
      ensures b.outbox[i].status.Delivered? ==> a.outbox[i].status.Delivered?
    {
      assert expired[i] == ExpireEvent(a.outbox[i], AlarmSync, now);
    }
  }

  lemma TakeKeepsWorld(w: World, pick: nat, owner: string, now: Time)
    requires WorldInv(w)
    ensures WorldInv(Act(w, Take(pick, owner, now)))
  {
    if w.worker.Idle? {
      var b := ClaimOutbox(w.db, AlarmSync, pick, owner, now);
      ClaimShape(w.db, pick, owner, now);
      ClaimKeepsInv(w.db, AlarmSync, pick, owner, now);
      OwnProvider(w.db, b, |b.outbox|, w.alarms);
      OwnSync(w.db, b, |b.outbox|, w.alarms, w.worker);
    }
  }

  lemma ReadKeepsWorld(w: World)
    requires WorldInv(w)
    ensures WorldInv(Act(w, ReadProjection))
  {
    if w.worker.Claimed? {
      var t := w.worker.ticket;
      RankOf(w.db, t.event);
      forall i | 0 <= i < |w.alarms| ensures AlarmOk(w.db, w.alarms[i]) {}
    }
  }

  /** An unsuccessful end of the claim. */
  lemma EndKeepsWorld(w: World, b: Aggregate, event: nat)
    requires WorldInv(w) && OwnMove(w.db, b, event) && b.projection == w.db.projection
    requires event < |b.outbox| && b.outbox[event].status.Delivered? ==> w.db.outbox[event].status.Delivered?
    ensures WorldInv(w.(db := b, worker := Idle))
  {
    OwnProvider(w.db, b, event, w.alarms);
    OwnSync(w.db, b, event, w.alarms, w.worker);
  }

  lemma DropKeepsWorld(w: World)
    requires WorldInv(w)
    ensures WorldInv(Act(w, Drop))
  {
    if w.worker.Discarding? {
      var t := w.worker.ticket;
      FinishKeepsInv(w.db, t.event, t.owner, Superseded);
      EndKeepsWorld(w, FinishEvent(w.db, t.event, t.owner, Superseded), t.event);
    }
  }

  lemma RetryShape(a: Aggregate, event: nat, owner: string, now: Time)
    ensures var b := RetryEvent(a, event, owner, now);
            && OwnShape(a, b, event) && b.projection == a.projection
            && (event < |b.outbox| && b.outbox[event].status.Delivered? ==> a.outbox[event].status.Delivered?)
  {}

  lemma BackoffKeepsWorld(w: World, now: Time)
    requires WorldInv(w)
    ensures WorldInv(Act(w, Backoff(now)))
  {
    if w.worker.Failing? {
      var t := w.worker.ticket;
      var b := RetryEvent(w.db, t.event, t.owner, now);
      assert Inv(b) by { RetryKeepsInv(w.db, t.event, t.owner, now); }
      RetryShape(w.db, t.event, t.owner, now);
      EndKeepsWorld(w, b, t.event);
    }
  }

  /** The worker moves on with what it has read, or lets go of it. */
  lemma WorkerMoves(w: World, next: Worker)
    requires WorldInv(w) && WorkerOk(w.db, next) && FlightOk(w.alarms, next)
    requires HasSent(next) ==> HasSent(w.worker) && next.sent == w.worker.sent
    ensures WorldInv(w.(worker := next))
  {
    assert Synced(w.db, w.alarms, w.worker);
  }

  lemma CrashKeepsWorld(w: World)
    requires WorldInv(w)
    ensures WorldInv(Act(w, Crash))
  {
    WorkerMoves(w, Idle);
  }

  lemma LookUpKeepsWorld(w: World, reached: bool)
    requires WorldInv(w)
    ensures WorldInv(Act(w, LookUp(reached)))
  {
    if w.worker.Read? {
      WorkerMoves(w, Act(w, LookUp(reached)).worker);
    }
  }

  lemma OneMatch(w: World, i: nat, j: nat)
    requires WorldInv(w) && HasSent(w.worker) && i < |w.alarms| && j < |w.alarms|
    requires Matches(w.alarms[i], w.worker.sent) && Matches(w.alarms[j], w.worker.sent)
    ensures i == j
  {}

  /** The lookup finds the alert's active alarm if there is one, and is never ambiguous. */
  lemma LookUpIsExact(w: World)
    requires WorldInv(w) && HasSent(w.worker)
    ensures FindAlarm(w.alarms, w.worker.sent).Ok?
    ensures var found := FindAlarm(w.alarms, w.worker.sent).value;
            && (found.Some? ==> found.value < |w.alarms| && Matches(w.alarms[found.value], w.worker.sent))
            && (found.None? ==> AllInactive(w.alarms, w.worker.sent.alertId))
            && (found.None? && w.worker.sent.desiredActive ==>
                  forall i :: 0 <= i < |w.alarms| ==> w.alarms[i].details.alertId != w.worker.sent.alertId)
  {
    var sent := w.worker.sent;
    var found := MatchesAmong(w.alarms, |w.alarms|, sent);
    if |found| > 1 {
      OneMatch(w, found[0], found[1]);
    }
    forall i | 0 <= i < |w.alarms| && w.alarms[i].details.alertId == sent.alertId && w.alarms[i].active
      ensures i in found
    {
      assert Matches(w.alarms[i], sent);
    }
  }

  // ---------------------------------------------------------------- writing to the provider

  /** The alarm an upsert may write: the alert's own, or a fresh one when the alert has none. */
  ghost predicate UpsertTarget(alarms: seq<TbAlarm>, sent: Projection, id: nat) {
    if id < |alarms| then alarms[id].details.alertId == sent.alertId
    else id == |alarms| && forall i :: 0 <= i < |alarms| ==> alarms[i].details.alertId != sent.alertId
  }

  function Upserted(alarms: seq<TbAlarm>, sent: Projection, id: nat): seq<TbAlarm>
    requires id <= |alarms|
  {
    if id == |alarms| then alarms + [ActiveAlarm(sent)] else alarms[id := ActiveAlarm(sent)]
  }

  lemma UpsertKeepsProvider(db: Aggregate, e: Event, alarms: seq<TbAlarm>, sent: Projection, id: nat)
    requires ProviderOk(db, alarms) && SentOk(db, e, sent) && sent.desiredActive && UpsertTarget(alarms, sent, id)
    ensures ProviderOk(db, Upserted(alarms, sent, id))
  {
    var after := Upserted(alarms, sent, id);
    forall i | 0 <= i < |after| ensures AlarmOk(db, after[i]) {
      if i != id {
        assert AlarmOk(db, alarms[i]);
      }
    }
  }

  lemma UpsertKeepsFlight(alarms: seq<TbAlarm>, worker: Worker, id: nat)
    requires FlightOk(alarms, worker) && worker.Found? && worker.sent.desiredActive && UpsertTarget(alarms, worker.sent, id)
    requires worker.sent.details.alertId == worker.sent.alertId
    ensures FlightOk(Upserted(alarms, worker.sent, id), Written(worker.ticket, worker.sent, id))
  {}

  lemma UpsertKeepsSync(db: Aggregate, alarms: seq<TbAlarm>, worker: Worker, id: nat, next: Worker)
    requires WorkerOk(db, worker) && Synced(db, alarms, worker) && HasSent(worker) && worker.sent.desiredActive
    requires UpsertTarget(alarms, worker.sent, id) && OneAlarmPerAlert(alarms)
    requires HasSent(next) ==> next.sent == worker.sent
    ensures Synced(db, Upserted(alarms, worker.sent, id), next)
  {
    forall event: nat | DeliveredAt(db, event)
      ensures db.projection.Some? && Shows(Upserted(alarms, worker.sent, id), db.projection.value)
    {
      assert db.projection == Some(worker.sent);
      var k := worker.sent.alarmId.value;
      assert alarms[k] == ActiveAlarm(worker.sent);
    }
  }

  lemma UpsertKeepsWorld(w: World, effective: bool, answered: bool)
    requires WorldInv(w) && w.worker.Found? && w.worker.sent.desiredActive
    ensures WorldInv(SendTo(w, effective, answered))
  {
    LookUpIsExact(w);
    var id := if w.worker.existing.Some? then w.worker.existing.value else |w.alarms|;
    var t, sent := w.worker.ticket, w.worker.sent;
    UpsertKeepsProvider(w.db, w.db.outbox[t.event], w.alarms, sent, id);
    UpsertKeepsFlight(w.alarms, w.worker, id);
    UpsertKeepsSync(w.db, w.alarms, w.worker, id, Written(t, sent, id));
    UpsertKeepsSync(w.db, w.alarms, w.worker, id, Failing(t));
  }

  function Deactivated(alarms: seq<TbAlarm>, id: nat): seq<TbAlarm>
    requires id < |alarms|
  {
    alarms[id := alarms[id].(active := false)]
  }

  lemma ClearKeepsProvider(db: Aggregate, e: Event, alarms: seq<TbAlarm>, sent: Projection, id: nat)
    requires ProviderOk(db, alarms) && SentOk(db, e, sent) && !sent.desiredActive
    requires id < |alarms| && alarms[id].details.alertId == sent.alertId
    ensures ProviderOk(db, Deactivated(alarms, id)) && AllInactive(Deactivated(alarms, id), sent.alertId)
  {
    var after := Deactivated(alarms, id);
    forall i | 0 <= i < |after| ensures AlarmOk(db, after[i]) {
      assert AlarmOk(db, alarms[i]);
    }
  }

  lemma ClearKeepsSync(db: Aggregate, alarms: seq<TbAlarm>, worker: Worker, id: nat, next: Worker)
    requires WorkerOk(db, worker) && Synced(db, alarms, worker) && HasSent(worker) && !worker.sent.desiredActive
    requires id < |alarms| && (HasSent(next) ==> next.sent == worker.sent)
    ensures Synced(db, Deactivated(alarms, id), next)
  {
    forall event: nat | DeliveredAt(db, event)
      ensures db.projection.Some? && Shows(Deactivated(alarms, id), db.projection.value)
    {
      assert db.projection == Some(worker.sent);
    }
  }

  lemma ClearKeepsWorld(w: World, effective: bool, answered: bool)
    requires WorldInv(w) && w.worker.Found? && !w.worker.sent.desiredActive
    ensures WorldInv(SendTo(w, effective, answered))
  {
    LookUpIsExact(w);
    var t, sent, existing := w.worker.ticket, w.worker.sent, w.worker.existing;
    var target := if existing.Some? then existing else sent.alarmId;
    if target.Some? {
      ClearKeepsProvider(w.db, w.db.outbox[t.event], w.alarms, sent, target.value);
      ClearKeepsSync(w.db, w.alarms, w.worker, target.value, Cleared(t, sent));
      ClearKeepsSync(w.db, w.alarms, w.worker, target.value, Failing(t));
    }
  }

  lemma SendActs(w: World, effective: bool, answered: bool)
    ensures Act(w, Send(effective, answered)) == if w.worker.Found? then SendTo(w, effective, answered) else w
  {}

  lemma SendKeepsWorld(w: World, effective: bool, answered: bool)
    requires WorldInv(w)
    ensures WorldInv(Act(w, Send(effective, answered)))
  {
    SendActs(w, effective, answered);
    if w.worker.Found? {
      if w.worker.sent.desiredActive {
        UpsertKeepsWorld(w, effective, answered);
      } else {
        ClearKeepsWorld(w, effective, answered);
      }
    }
  }

  // ---------------------------------------------------------------- finishing

  /** `save_alarm_id` never meets an identity conflict. */
  lemma NoIdentityConflict(w: World)
    requires WorldInv(w) && w.worker.Written? && HasProjection(w.db, w.worker.sent.alertId)
    ensures w.db.projection.value.alarmId.None? || w.db.projection.value.alarmId == Some(w.worker.alarmId)
  {
    assert w.alarms[w.worker.alarmId].details.alertId == w.worker.sent.alertId;
  }

  lemma SavedAlarmKeepsProvider(a: Aggregate, b: Aggregate, alarms: seq<TbAlarm>, alertId: Uuid, id: Uuid)
    requires ProviderOk(a, alarms) && HasProjection(a, alertId) && RefersTo(alarms, Some(id), alertId)
    requires b.key == a.key && b.alerts == a.alerts
    requires b.projection == a.projection || b.projection == Some(a.projection.value.(alarmId := Some(id)))
    ensures ProviderOk(b, alarms)
  {
    forall i | 0 <= i < |alarms| ensures AlarmOk(b, alarms[i]) {
      assert AlarmOk(a, alarms[i]);
    }
  }

  lemma SettledKeepsWorld(w: World, b: Aggregate)
    requires Inv(b) && ProviderOk(b, w.alarms) && Synced(b, w.alarms, Idle)
    ensures WorldInv(w.(db := b, worker := Idle))
  {}

  lemma SavedAlarmKeepsWorld(w: World, b: Aggregate)
    requires WorldInv(w) && w.worker.Written?
    requires b == SaveAlarmId(w.db, w.worker.ticket.event, w.worker.ticket.owner, w.worker.sent.alertId, w.worker.alarmId)
    ensures WorldInv(w.(db := b, worker := Idle))
  {
    var t, sent, id := w.worker.ticket, w.worker.sent, w.worker.alarmId;
    assert Inv(b) by { SaveAlarmKeepsInv(w.db, t.event, t.owner, sent.alertId, id); }
    if HasProjection(w.db, sent.alertId) {
      SavedAlarmKeepsProvider(w.db, b, w.alarms, sent.alertId, id);
      SavedAlarmKeepsSync(w, b);
      SettledKeepsWorld(w, b);
    }
  }

  lemma SavedAlarmKeepsSync(w: World, b: Aggregate)
    requires WorldInv(w) && w.worker.Written? && HasProjection(w.db, w.worker.sent.alertId)
    requires b == SaveAlarmId(w.db, w.worker.ticket.event, w.worker.ticket.owner, w.worker.sent.alertId, w.worker.alarmId)
    ensures Synced(b, w.alarms, Idle)
  {
    var event, sent := w.worker.ticket.event, w.worker.sent;
    NoIdentityConflict(w);
    assert b.projection == Some(w.db.projection.value.(alarmId := Some(w.worker.alarmId)));
    forall e: nat | DeliveredAt(b, e) ensures Shows(w.alarms, b.projection.value) {
      if e == event {
        assert SentOk(w.db, w.db.outbox[event], sent);
        assert w.db.projection == Some(sent);
      } else {
        assert DeliveredAt(w.db, e);
      }
    }
  }

  lemma FinishShape(a: Aggregate, event: nat, owner: string, status: EventStatus)
    ensures OwnShape(a, FinishEvent(a, event, owner, status), event)
    ensures FinishEvent(a, event, owner, status).projection == a.projection
  {}

  lemma ClearedKeepsSync(w: World, b: Aggregate)
    requires WorldInv(w) && w.worker.Cleared? && OwnShape(w.db, b, w.worker.ticket.event) && b.projection == w.db.projection
    ensures Synced(b, w.alarms, Idle)
  {
    var event, sent := w.worker.ticket.event, w.worker.sent;
    forall e: nat | DeliveredAt(b, e) ensures b.projection.Some? && Shows(w.alarms, b.projection.value) {
      if e == event {
        assert SentOk(w.db, w.db.outbox[event], sent);
        assert w.db.projection == Some(sent);
      } else {
        assert DeliveredAt(w.db, e);
      }
    }
  }

  lemma ClearedKeepsWorld(w: World, b: Aggregate)
    requires WorldInv(w) && w.worker.Cleared?
    requires b == FinishEvent(w.db, w.worker.ticket.event, w.worker.ticket.owner, Delivered)
    ensures WorldInv(w.(db := b, worker := Idle))
  {
    var t := w.worker.ticket;
    assert Inv(b) by { FinishKeepsInv(w.db, t.event, t.owner, Delivered); }
    assert OwnShape(w.db, b, t.event) && b.projection == w.db.projection by {
      FinishShape(w.db, t.event, t.owner, Delivered);
    }
    OwnProvider(w.db, b, t.event, w.alarms);
    ClearedKeepsSync(w, b);
    SettledKeepsWorld(w, b);
  }

  lemma FinishActs(w: World)
    requires w.worker.Written? || w.worker.Cleared?
    ensures var b, t := Act(w, Finish).db, w.worker.ticket;
            && Act(w, Finish) == w.(db := b, worker := Idle)
            && b == if w.worker.Written? then SaveAlarmId(w.db, t.event, t.owner, w.worker.sent.alertId, w.worker.alarmId)
                    else FinishEvent(w.db, t.event, t.owner, Delivered)
  {}

  lemma FinishKeepsWorld(w: World)
    requires WorldInv(w)
    ensures WorldInv(Act(w, Finish))
  {
    if w.worker.Written? {
      FinishActs(w);
      SavedAlarmKeepsWorld(w, Act(w, Finish).db);
    } else if w.worker.Cleared? {
      FinishActs(w);
      ClearedKeepsWorld(w, Act(w, Finish).db);
    }
  }

  // ---------------------------------------------------------------- every move, every play

  lemma ActKeepsWorld(w: World, m: Move)
    requires WorldInv(w)
    ensures WorldInv(Act(w, m))
  {
    match m
    case Other(t) => if ByOthers(w.db, t) { OthersKeepWorld(w, t); }
    case Take(pick, owner, now) => TakeKeepsWorld(w, pick, owner, now);
    case ReadProjection => ReadKeepsWorld(w);
    case Drop => DropKeepsWorld(w);
    case LookUp(reached) => LookUpKeepsWorld(w, reached);
    case Send(effective, answered) => SendKeepsWorld(w, effective, answered);
    case Finish => FinishKeepsWorld(w);
    case Backoff(now) => BackoffKeepsWorld(w, now);
    case Crash => CrashKeepsWorld(w);
  }

  lemma {:induction false} PlayKeepsWorld(w: World, moves: seq<Move>)
    requires WorldInv(w)
    ensures WorldInv(Play(w, moves))
  {
    if moves != [] {
      PlayKeepsWorld(w, moves[..|moves| - 1]);
      ActKeepsWorld(Play(w, moves[..|moves| - 1]), moves[|moves| - 1]);
    }
  }

  // ---------------------------------------------------------------- plays are runs

  /** The transaction a move commits, if any. */
  function TxnOf(w: World, m: Move): Option<Txn> {
    match m
    case Other(t) => if ByOthers(w.db, t) then Some(t) else None
    case Take(pick, owner, now) => if w.worker.Idle? then Some(Claim(AlarmSync, pick, owner, now)) else None
    case Drop => if w.worker.Discarding? then Some(Discard(w.worker.ticket.event, w.worker.ticket.owner)) else None
    case Finish =>
      if w.worker.Written? then Some(SaveAlarm(w.worker.ticket.event, w.worker.ticket.owner, w.worker.alarmId))
      else if w.worker.Cleared? then Some(MarkCleared(w.worker.ticket.event, w.worker.ticket.owner))
      else None
    case Backoff(now) =>
      if w.worker.Failing? then Some(Retry(w.worker.ticket.event, w.worker.ticket.owner, now)) else None
    case _ => None
  }

  function TxnsOf(w: World, moves: seq<Move>): seq<Txn> {
    if moves == [] then []
    else
      var front := moves[..|moves| - 1];
      var t := TxnOf(Play(w, front), moves[|moves| - 1]);
      if t.Some? then TxnsOf(w, front) + [t.value] else TxnsOf(w, front)
  }

  lemma ActIsTxn(w: World, m: Move)
    requires WorkerOk(w.db, w.worker)
    ensures Act(w, m).db == if TxnOf(w, m).Some? then Step(w.db, TxnOf(w, m).value) else w.db
  {}

  /** A play is a run of the aggregate, so whatever holds in every run holds in every play. */
  lemma {:induction false} PlayIsRun(key: Key, moves: seq<Move>)
    ensures Play(Start(key), moves).db == Run(Empty(key), TxnsOf(Start(key), moves))
  {
    if moves != [] {
      var front, m := moves[..|moves| - 1], moves[|moves| - 1];
      PlayIsRun(key, front);
      StartInv(key);
      PlayKeepsWorld(Start(key), front);
      ActIsTxn(Play(Start(key), front), m);
      var ts, t := TxnsOf(Start(key), front), TxnOf(Play(Start(key), front), m);
      if t.Some? {
        assert (ts + [t.value])[..|ts|] == ts;
      }
    }
  }

  /**
    Convergence: whenever the event that carries the projection's current version is delivered, the provider shows
    the projection, active exactly when desired, with its details and under its recorded id while active.
   */
  lemma Convergence(key: Key, moves: seq<Move>, event: nat)
    requires DeliveredAt(Play(Start(key), moves).db, event)
    ensures var w := Play(Start(key), moves);
            w.db.projection.Some? && Shows(w.alarms, w.db.projection.value)
  {
    StartInv(key);
    PlayKeepsWorld(Start(key), moves);
  }

  /** Over every play an alert gets at most one alarm, no lookup is ambiguous and no save conflicts. */
  lemma OneAlarmEver(key: Key, moves: seq<Move>)
    ensures var w := Play(Start(key), moves);
            && OneAlarmPerAlert(w.alarms)
            && (HasSent(w.worker) ==> FindAlarm(w.alarms, w.worker.sent).Ok?)
            && (w.worker.Written? && HasProjection(w.db, w.worker.sent.alertId) ==>
                  w.db.projection.value.alarmId.None? || w.db.projection.value.alarmId == Some(w.worker.alarmId))
  {
    var w := Play(Start(key), moves);
    StartInv(key);
    PlayKeepsWorld(Start(key), moves);
    if HasSent(w.worker) {
      LookUpIsExact(w);
    }
    if w.worker.Written? && HasProjection(w.db, w.worker.sent.alertId) {
      NoIdentityConflict(w);
    }
  }

  // ---------------------------------------------------------------- an undisturbed delivery

  lemma CurrentIsTaken(a: Aggregate, event: nat, owner: string, now: Time)
    requires Inv(a) && CanTake(a, event, now) && a.outbox[event].version == AlarmVersion(a)
    ensures var b := ClaimOutbox(a, AlarmSync, event, owner, now);
            && Holds(b, event, owner) && AlarmAt(b.outbox, event, AlarmVersion(b))
            && b.projection == a.projection && HasProjection(b, b.outbox[event].alertId)
  {
    RankOf(a, event);
    assert ExpireLeases(a.outbox, AlarmSync, now)[event] == ExpireEvent(a.outbox[event], AlarmSync, now);
  }

  /** Claiming the current event and reading its projection. */
  lemma CurrentIsRead(w: World, event: nat, owner: string, now: Time)
    requires Inv(w.db) && w.worker.Idle? && CanTake(w.db, event, now) && w.db.outbox[event].version == AlarmVersion(w.db)
    ensures var v := Act(Act(w, Take(event, owner, now)), ReadProjection);
            && v.worker.Read? && v.worker.ticket == Ticket(event, owner)
            && AlarmAt(v.db.outbox, event, AlarmVersion(v.db))
            && v.db.projection == w.db.projection == Some(v.worker.sent)
  {
    CurrentIsTaken(w.db, event, owner, now);
  }

  lemma ReadIsSent(w: World)
    requires w.worker.Read? && FindAlarm(w.alarms, w.worker.sent).Ok?
    requires var found := FindAlarm(w.alarms, w.worker.sent).value; found.Some? ==> found.value < |w.alarms|
    requires w.worker.sent.alarmId.Some? ==> w.worker.sent.alarmId.value < |w.alarms|
    ensures var v := Act(Act(w, LookUp(true)), Send(true, true));
            && v.db == w.db && (v.worker.Written? || v.worker.Cleared?)
            && v.worker.ticket == w.worker.ticket && v.worker.sent == w.worker.sent
  {}

  lemma SaveDelivers(a: Aggregate, event: nat, owner: string, alertId: Uuid, alarmId: Uuid)
    requires Holds(a, event, owner) && HasProjection(a, alertId) && AlarmAt(a.outbox, event, AlarmVersion(a))
    requires a.projection.value.alarmId.None? || a.projection.value.alarmId == Some(alarmId)
    ensures DeliveredAt(SaveAlarmId(a, event, owner, alertId, alarmId), event)
  {}

  lemma FinishDelivers(a: Aggregate, event: nat, owner: string)
    requires Holds(a, event, owner) && AlarmAt(a.outbox, event, AlarmVersion(a))
    ensures DeliveredAt(FinishEvent(a, event, owner, Delivered), event)
  {}

  lemma SentIsDelivered(w: World)
    requires w.worker.Written? || w.worker.Cleared?
    requires Holds(w.db, w.worker.ticket.event, w.worker.ticket.owner)
    requires w.db.projection == Some(w.worker.sent) && AlarmAt(w.db.outbox, w.worker.ticket.event, AlarmVersion(w.db))
    requires w.worker.Written? ==>
               w.worker.sent.alarmId.None? || w.worker.sent.alarmId == Some(w.worker.alarmId)
    ensures DeliveredAt(Act(w, Finish).db, w.worker.ticket.event)
  {
    var t := w.worker.ticket;
    if w.worker.Written? {
      SaveDelivers(w.db, t.event, t.owner, w.worker.sent.alertId, w.worker.alarmId);
    } else {
      FinishDelivers(w.db, t.event, t.owner);
    }
  }

  /** Left alone, one round of the worker delivers the current event, and the provider then shows the projection. */
  lemma QuietDelivery(key: Key, moves: seq<Move>, event: nat, owner: string, now: Time)
    requires var w := Play(Start(key), moves);
             w.worker.Idle? && CanTake(w.db, event, now) && w.db.outbox[event].version == AlarmVersion(w.db)
    ensures var w := Play(Start(key), moves);
            var v := Act(Act(Act(Act(Act(w, Take(event, owner, now)), ReadProjection), LookUp(true)), Send(true, true)), Finish);
            DeliveredAt(v.db, event) && v.db.projection.Some? && Shows(v.alarms, v.db.projection.value)
  {
    var w := Play(Start(key), moves);
    StartInv(key);
    PlayKeepsWorld(Start(key), moves);
    QuietRound(w, event, owner, now);
  }

  lemma QuietRound(w: World, event: nat, owner: string, now: Time)
    requires WorldInv(w) && w.worker.Idle? && CanTake(w.db, event, now)
    requires w.db.outbox[event].version == AlarmVersion(w.db)
    ensures var v := Act(Act(Act(Act(Act(w, Take(event, owner, now)), ReadProjection), LookUp(true)), Send(true, true)), Finish);
            DeliveredAt(v.db, event) && v.db.projection.Some? && Shows(v.alarms, v.db.projection.value)
  {
    var w1 := Act(w, Take(event, owner, now));
    var w2 := Act(w1, ReadProjection);
    CurrentIsRead(w, event, owner, now);
    ActKeepsWorld(w, Take(event, owner, now));
    ActKeepsWorld(w1, ReadProjection);
    var w3 := Act(w2, LookUp(true));
    var w4 := Act(w3, Send(true, true));
    LookUpIsExact(w2);
    ReadIsSent(w2);
    ActKeepsWorld(w2, LookUp(true));
    ActKeepsWorld(w3, Send(true, true));
    if w4.worker.Written? {
      NoIdentityConflict(w4);
    }
    SentIsDelivered(w4);
    ActKeepsWorld(w4, Finish);
    assert DeliveredAt(Act(w4, Finish).db, event);
  }
}
