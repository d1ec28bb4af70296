/** services/closed_loop_acceptance.py: the read-only verifier of one closed loop against both providers. */
module Acceptance {
  import opened Basics
  import opened ClosedLoop
  import opened ClosedLoopInvariant
  import opened ClosedLoopEvolution
  import opened ClosedLoopTheorems
  import opened RiskHistory
  import opened AlarmDelivery
  import opened AlarmConvergence
  import opened WorkOrderDelivery

  datatype Stage = Consistent | ActiveStage | InProgressStage | CompleteStage | ClearedStage

  datatype AcceptanceError =
    | NotReady
    | EquipmentMismatch
    | AggregateMismatch
    | WorkOrderMismatch
    | AlarmMismatch
    | OutboxDeadLetter

  /** One consistent read of the aggregate; the outbox is counted by status. */
  datatype Snapshot = Snapshot(
    key: Key,
    deviceId: Uuid,
    assetId: nat,
    rowAlertId: Uuid,
    internalActive: bool,
    healthyCount: nat,
    rowAlarmVersion: nat,
    alertId: Uuid,
    alert: Alert,
    alarmId: Uuid,
    desiredActive: bool,
    projectionVersion: nat,
    details: Details,
    body: RequestBody,
    cmmsId: nat,
    cmmsStatus: string,
    cmmsVersion: nat,
    maintenance: Maintenance,
    counts: map<EventStatus, nat>)

  // ---------------------------------------------------------------- reading

  const STATUSES: seq<EventStatus> := [Pending, InFlight, RetryWait, Delivered, Superseded, DeadLetter]

  function CountOf(outbox: seq<Event>, status: EventStatus): nat {
    if outbox == [] then 0
    else CountOf(outbox[..|outbox| - 1], status) + (if outbox[|outbox| - 1].status == status then 1 else 0)
  }

  function Tally(outbox: seq<Event>): map<EventStatus, nat> {
    map status | status in STATUSES :: CountOf(outbox, status)
  }

  /** The counting loop of `read`: every status starts at zero. */
  method TallyOutbox(outbox: seq<Event>) returns (counts: map<EventStatus, nat>)
    ensures counts == Tally(outbox)
    ensures forall status :: status in counts && (counts[status] == 0 <==> forall e :: e in outbox ==> e.status != status)
  {
    counts := map status | status in STATUSES :: 0;
    var i := 0;
    while i < |outbox|
      invariant 0 <= i <= |outbox|
      invariant counts == Tally(outbox[..i])
    {
      assert outbox[..i + 1][..i] == outbox[..i];
      AllStatuses(outbox[i].status);
      counts := counts[outbox[i].status := counts[outbox[i].status] + 1];
      i := i + 1;
    }
    assert outbox[..i] == outbox;
    forall status ensures status in counts && (counts[status] == 0 <==> forall e :: e in outbox ==> e.status != status) {
      AllStatuses(status);
      CountIsZero(outbox, status);
    }
  }

  lemma AllStatuses(status: EventStatus)
    ensures status in STATUSES
  {
    assert STATUSES[0] == Pending && STATUSES[1] == InFlight && STATUSES[2] == RetryWait;
    assert STATUSES[3] == Delivered && STATUSES[4] == Superseded && STATUSES[5] == DeadLetter;
  }

  lemma {:induction false} CountIsZero(outbox: seq<Event>, status: EventStatus)
    ensures CountOf(outbox, status) == 0 <==> forall e :: e in outbox ==> e.status != status
  {
    if outbox != [] {
      var n := |outbox| - 1;
      CountIsZero(outbox[..n], status);
      assert outbox == outbox[..n] + [outbox[n]];
    }
  }

  /** What a read finds: the aggregate, the outbox events of the tenant's other series, and the mapping. */
  datatype Local = Local(db: Aggregate, others: seq<Event>, mapping: Option<Mapping>)

  /** `ClosedLoopAcceptanceStore.read`; the outbox is counted for the whole tenant. */
  function ReadSnapshot(l: Local): Result<Snapshot, AcceptanceError> {
    var a, mapping := l.db, l.mapping;
    if mapping.None? || !mapping.value.enabled || !mapping.value.active || mapping.value.assetId.None?
    then Err(EquipmentMismatch)
    else if a.risk.None? || a.risk.value.alertId.None? then Err(NotReady)
    else
      var row, id := a.risk.value, a.risk.value.alertId.value;
      if id >= |a.alerts| then Err(AggregateMismatch)
      else if !HasProjection(a, id) || a.projection.value.alarmId.None? then Err(NotReady)
      else if id !in a.workOrders || a.workOrders[id].cmmsId.None? || a.workOrders[id].status.None?
              || a.workOrders[id].eventVersion.None?
      then Err(NotReady)
      else
        var p, wo := a.projection.value, a.workOrders[id];
        Ok(Snapshot(a.key, mapping.value.deviceId, mapping.value.assetId.value, id, row.counters.active,
                    row.counters.healthyCount, row.alarmVersion, p.alertId, a.alerts[id], p.alarmId.value,
                    p.desiredActive, p.version, p.details, wo.body, wo.cmmsId.value, wo.status.value,
                    wo.eventVersion.value, wo.maintenance, Tally(a.outbox + l.others)))
  }

  // ---------------------------------------------------------------- the checks, None meaning passed

  /** `_validate_local_identity` without the tenant and credential comparisons. */
  function ValidateLocalIdentity(s: Snapshot): Option<AcceptanceError> {
    if s.rowAlertId != s.alertId || s.projectionVersion != s.rowAlarmVersion || s.body.alertId != s.alertId
    then Some(AggregateMismatch)
    else if s.desiredActive != s.alert.phase.RiskActive? then Some(AggregateMismatch)
    else if s.internalActive != s.desiredActive then Some(AggregateMismatch)
    else if s.maintenance != s.alert.maintenance then Some(WorkOrderMismatch)
    else if || s.body.provenance.correlationId != s.alert.provenance.correlationId
            || s.body.key.equipmentId != s.key.equipmentId
            || s.body.alarmId != s.alarmId
            || s.body.provenance.modelProfileId != s.alert.provenance.modelProfileId
            || s.body.provenance.modelInfoId != s.alert.provenance.modelInfoId
            || s.body.provenance.policyVersion != s.alert.provenance.policyVersion
            || s.body.assetId != s.assetId
    then Some(WorkOrderMismatch)
    else if MaintenanceOf(s.cmmsStatus) != Some(s.maintenance) then Some(WorkOrderMismatch)
    else None
  }

  /** `_require_settled_outbox`. */
  function RequireSettled(counts: map<EventStatus, nat>): Option<AcceptanceError> {
    if DeadLetter in counts && counts[DeadLetter] != 0 then Some(OutboxDeadLetter)
    else if || (Pending in counts && counts[Pending] != 0)
            || (InFlight in counts && counts[InFlight] != 0)
            || (RetryWait in counts && counts[RetryWait] != 0)
    then Some(NotReady)
    else None
  }

  datatype AlarmState = AlarmState(
    alarmId: Uuid, deviceId: Uuid, status: string, acknowledged: bool, cleared: bool, details: Details)

  function StatusText(cleared: bool, acknowledged: bool): string {
    (if cleared then "CLEARED" else "ACTIVE") + (if acknowledged then "_ACK" else "_UNACK")
  }

  /** `alarm_state`: what ThingsBoard shows for an alarm. */
  function StateOf(alarms: seq<TbAlarm>, id: Uuid, acknowledged: bool): AlarmState
    requires id < |alarms|
  {
    AlarmState(id, alarms[id].deviceId, StatusText(!alarms[id].active, acknowledged), acknowledged,
               !alarms[id].active, alarms[id].details)
  }

  /** `_validate_alarm`. */
  function ValidateAlarm(s: Snapshot, alarm: AlarmState): Option<AcceptanceError> {
    if || alarm.alarmId != s.alarmId
       || alarm.deviceId != s.deviceId
       || alarm.status != StatusText(alarm.cleared, alarm.acknowledged)
       || alarm.details != s.details
       || alarm.cleared == s.desiredActive
       || alarm.details.alertId != s.alertId
       || alarm.details.key != s.key
       || alarm.details.alertVersion != s.alert.version
    then Some(AlarmMismatch) else None
  }

  /** `_validate_work_order`. */
  function ValidateWorkOrder(s: Snapshot, r: Response): Option<AcceptanceError> {
    if || !IdentityMatches(r, s.alertId, s.body)
       || r.reply.id != s.cmmsId
       || r.reply.status != s.cmmsStatus
       || r.reply.eventVersion != s.cmmsVersion
       || r.echoed.assetId != s.assetId
    then Some(WorkOrderMismatch) else None
  }

  /** `_observed_stage`. */
  function ObservedStage(s: Snapshot, cleared: bool): Stage {
    if s.cmmsStatus == "COMPLETE" && s.alert.phase.RiskCleared? && s.healthyCount >= 2 && cleared then ClearedStage
    else if s.cmmsStatus == "COMPLETE" then CompleteStage
    else if s.cmmsStatus == "IN_PROGRESS" then InProgressStage
    else if s.cmmsStatus == "OPEN" && s.alert.phase.RiskActive? && !cleared then ActiveStage
    else Consistent
  }

  /** The row, the alert and the provider all show a running risk. */
  predicate Running(s: Snapshot, cleared: bool) {
    s.alert.phase.RiskActive? && s.internalActive && s.desiredActive && !cleared
  }

  /** `_validate_expected_stage`. */
  function ValidateStage(s: Snapshot, cleared: bool, expected: Stage): Option<AcceptanceError> {
    if expected.Consistent? then None
    else if expected != ObservedStage(s, cleared) then Some(NotReady)
    else
      var fits :=
        match expected
        case ActiveStage => Running(s, cleared)
        case InProgressStage =>
          s.cmmsStatus == "IN_PROGRESS" && s.maintenance.WorkOrderInProgress? && Running(s, cleared)
        case CompleteStage =>
          s.cmmsStatus == "COMPLETE" && s.maintenance.WorkOrderComplete? && s.healthyCount < 2 && Running(s, cleared)
        case ClearedStage =>
          && s.cmmsStatus == "COMPLETE" && s.maintenance.WorkOrderComplete? && s.healthyCount >= 2
          && s.alert.phase.RiskCleared? && !s.internalActive && !s.desiredActive && cleared
        case Consistent => true;
      if fits then None else Some(NotReady)
  }

  /** `verify` of what the first read finds, read again at the end; the providers answer in between. */
  function Verify(first: Local, again: Local, alarms: seq<TbAlarm>, acknowledged: bool, response: Option<Response>,
                  expected: Stage): Result<Stage, AcceptanceError>
  {
    var read := ReadSnapshot(first);
    if read.Err? then Err(read.error)
    else
      var s := read.value;
      var local := ValidateLocalIdentity(s);
      if local.Some? then Err(local.value)
      else if RequireSettled(s.counts).Some? then Err(RequireSettled(s.counts).value)
      else if s.alarmId >= |alarms| then Err(AlarmMismatch)
      else
        var alarm := StateOf(alarms, s.alarmId, acknowledged);
        if ValidateAlarm(s, alarm).Some? then Err(AlarmMismatch)
        else if response.None? then Err(NotReady)
        else if ValidateWorkOrder(s, response.value).Some? then Err(WorkOrderMismatch)
        else
          var confirmed := ReadSnapshot(again);
          if confirmed.Err? then Err(confirmed.error)
          else if confirmed.value != s then Err(NotReady)
          else
            var stage := ValidateStage(s, alarm.cleared, expected);
            if stage.Some? then Err(stage.value) else Ok(ObservedStage(s, alarm.cleared))
  }

  // ---------------------------------------------------------------- what the loop guarantees the verifier

  /**
    On every reachable aggregate that can be read, the local checks pass exactly when the equipment mapping still
    names the asset of the approved work order.
   */
  lemma LocalIdentityExact(l: Local)
    requires Inv(l.db) && ReadSnapshot(l).Ok?
    ensures var s := ReadSnapshot(l).value;
            ValidateLocalIdentity(s).None? <==> s.body.assetId == s.assetId
  {
    var a := l.db;
    var id := a.risk.value.alertId.value;
    assert OrderOk(a.key, id, a.alerts[id], a.workOrders[id]);
  }

  lemma SettledMeansQuiet(outbox: seq<Event>)
    ensures RequireSettled(Tally(outbox)).None? <==> forall e :: e in outbox ==> e.status.Delivered? || e.status.Superseded?
  {
    forall status: EventStatus ensures status in STATUSES { AllStatuses(status); }
    CountIsZero(outbox, Pending);
    CountIsZero(outbox, InFlight);
    CountIsZero(outbox, RetryWait);
    CountIsZero(outbox, DeadLetter);
  }

  /** With a settled outbox the current alarm event is delivered, whatever other series share the outbox. */
  lemma SettledIsDelivered(a: Aggregate, others: seq<Event>) returns (event: nat)
    requires Inv(a) && a.alerts != [] && RequireSettled(Tally(a.outbox + others)).None?
    ensures DeliveredAt(a, event)
  {
    VersionsExact(a);
    assert HasVersion(a.outbox, AlarmVersion(a));
    event :| AlarmAt(a.outbox, event, AlarmVersion(a));
    RankOf(a, event);
    SettledMeansQuiet(a.outbox + others);
    assert (a.outbox + others)[event] == a.outbox[event];
  }

  // ---------------------------------------------------------------- what stays between the two reads

  /** The same projection, but that its alarm id may have been recorded. */
  predicate SameShown(x: Option<Projection>, y: Option<Projection>) {
    x.Some? ==>
      && y.Some? && y.value == x.value.(alarmId := y.value.alarmId)
      && (x.value.alarmId.Some? ==> y.value.alarmId == x.value.alarmId)
  }

  lemma StepKeepsShown(a: Aggregate, t: Txn)
    requires Inv(a)
    ensures AlarmVersion(Step(a, t)) == AlarmVersion(a) ==> SameShown(a.projection, Step(a, t).projection)
  {
    if t.Claim? || t.Retry? || t.GiveUp? {
      RowsFrame(a, t);
    } else if !t.Discard? && !t.MarkCleared? && !t.SaveAlarm? {
      OthersFrame(a, t);
    }
  }

  ghost predicate GoesOn(a: Aggregate, b: Aggregate) {
    Grows(a, b) && (AlarmVersion(b) == AlarmVersion(a) ==> SameShown(a.projection, b.projection))
  }

  lemma GoesOnTransitive(a: Aggregate, b: Aggregate, c: Aggregate)
    requires GoesOn(a, b) && GoesOn(b, c)
    ensures GoesOn(a, c)
  {
    GrowsTransitive(a, b, c);
  }

  lemma ActGoesOn(w: World, m: Move)
    requires WorldInv(w)
    ensures GoesOn(w.db, Act(w, m).db)
  {
    var t := TxnOf(w, m);
    ActIsTxn(w, m);
    if t.Some? {
      StepGrows(w.db, t.value);
      StepKeepsShown(w.db, t.value);
    } else {
      GrowsReflexive(w.db);
    }
  }

  lemma {:induction false} PlayGoesOn(w: World, moves: seq<Move>)
    requires WorldInv(w)
    ensures GoesOn(w.db, Play(w, moves).db)
  {
    if moves == [] {
      GrowsReflexive(w.db);
    } else {
      var front := moves[..|moves| - 1];
      PlayGoesOn(w, front);
      PlayKeepsWorld(w, front);
      ActGoesOn(Play(w, front), moves[|moves| - 1]);
      GoesOnTransitive(w.db, Play(w, front).db, Play(w, moves).db);
    }
  }

  lemma StaysDelivered(a: Aggregate, b: Aggregate, event: nat)
    requires Grows(a, b) && DeliveredAt(a, event) && AlarmVersion(b) == AlarmVersion(a)
    ensures DeliveredAt(b, event)
  {
    assert EventGrows(a.outbox[event], b.outbox[event]);
  }

  /** Equal reads mean that the version and the projection stood still in between. */
  lemma EqualReads(first: Local, between: Aggregate, again: Local)
    requires GoesOn(first.db, between) && GoesOn(between, again.db)
    requires ReadSnapshot(first).Ok? && ReadSnapshot(again) == ReadSnapshot(first) && Inv(first.db)
    ensures AlarmVersion(between) == AlarmVersion(first.db) && between.projection == first.db.projection
  {}

  // ---------------------------------------------------------------- the verdict

  /** What ThingsBoard holds under the recorded id: the projection while the risk is on, an active picture otherwise. */
  lemma RecordedAlarm(w: World, event: nat)
    requires WorldInv(w) && DeliveredAt(w.db, event)
    requires w.db.projection.Some? && w.db.projection.value.alarmId.Some?
    ensures var p := w.db.projection.value;
            && p.alarmId.value < |w.alarms|
            && (p.desiredActive ==> w.alarms[p.alarmId.value] == ActiveAlarm(p))
            && (!p.desiredActive ==> w.alarms[p.alarmId.value].details.phase.RiskActive?)
  {
    var p := w.db.projection.value;
    assert Shows(w.alarms, p);
    assert RefersTo(w.alarms, p.alarmId, p.alertId);
    assert AlarmOk(w.db, w.alarms[p.alarmId.value]);
  }

  lemma ReadMatchesProjection(l: Local)
    requires Inv(l.db) && ReadSnapshot(l).Ok?
    ensures var s, p := ReadSnapshot(l).value, l.db.projection.value;
            && p.alarmId == Some(s.alarmId) && s.desiredActive == p.desiredActive && s.details == p.details
            && s.details.alertId == s.alertId && s.details.key == s.key && s.details.alertVersion == s.alert.version
            && s.details.phase.RiskActive? == s.desiredActive
  {}

  lemma ComparedAlarm(s: Snapshot, p: Projection, alarms: seq<TbAlarm>, acknowledged: bool)
    requires p.alarmId == Some(s.alarmId) && s.desiredActive == p.desiredActive && s.details == p.details
    requires s.details.alertId == s.alertId && s.details.key == s.key && s.details.alertVersion == s.alert.version
    requires s.details.phase.RiskActive? == s.desiredActive
    requires s.alarmId < |alarms| && (s.desiredActive ==> alarms[s.alarmId] == ActiveAlarm(p))
    requires !s.desiredActive ==> alarms[s.alarmId].details.phase.RiskActive?
    ensures ValidateAlarm(s, StateOf(alarms, s.alarmId, acknowledged)).None? <==> s.desiredActive && p.deviceId == s.deviceId
  {}

  /**
    While the event of the projection is delivered, the ThingsBoard check passes exactly when the risk is on and the
    mapping names the projection's device: once the alarm is cleared its details keep the last active picture and no
    longer equal the projection's.
   */
  lemma AlarmCheckExact(w: World, first: Local, event: nat, acknowledged: bool)
    requires Inv(first.db) && ReadSnapshot(first).Ok?
    requires WorldInv(w) && DeliveredAt(w.db, event) && w.db.projection == first.db.projection
    ensures var s := ReadSnapshot(first).value;
            && s.alarmId < |w.alarms|
            && (ValidateAlarm(s, StateOf(w.alarms, s.alarmId, acknowledged)).None? <==>
                  s.desiredActive && first.db.projection.value.deviceId == s.deviceId)
  {
    ReadMatchesProjection(first);
    RecordedAlarm(w, event);
    ComparedAlarm(ReadSnapshot(first).value, first.db.projection.value, w.alarms, acknowledged);
  }

  /** Everything the verifier looks at, apart from the second read and the expected stage. */
  predicate Healthy(l: Local, response: Option<Response>) {
    && ReadSnapshot(l).Ok?
    && RequireSettled(Tally(l.db.outbox + l.others)).None?
    && var s := ReadSnapshot(l).value;
       && s.desiredActive
       && s.body.assetId == s.assetId
       && l.db.projection.value.deviceId == s.deviceId
       && response.Some? && ValidateWorkOrder(s, response.value).None?
  }

  /** The row names an alert with a sent projection and a created work order, and the equipment has an active mapping. */
  predicate IsReadable(l: Local) {
    var a, m := l.db, l.mapping;
    && m.Some? && m.value.enabled && m.value.active && m.value.assetId.Some?
    && a.risk.Some? && a.risk.value.alertId.Some? && a.risk.value.alertId.value < |a.alerts|
    && var id := a.risk.value.alertId.value;
       && a.projection.Some? && a.projection.value.alertId == id && a.projection.value.alarmId.Some?
       && id in a.workOrders && a.workOrders[id].cmmsId.Some? && a.workOrders[id].status.Some?
       && a.workOrders[id].eventVersion.Some?
  }

  /** The CMMS shows the recorded work order: its id, status and version, and in every column what it was sent. */
  predicate ShowsOrder(r: Response, id: Uuid, wo: WorkOrder) {
    var p, q := r.echoed.provenance, wo.body.provenance;
    && r.externalRef == id
    && wo.cmmsId == Some(r.reply.id) && wo.status == Some(r.reply.status) && wo.eventVersion == Some(r.reply.eventVersion)
    && r.echoed.key.equipmentId == wo.body.key.equipmentId && r.echoed.alarmId == wo.body.alarmId
    && r.echoed.assetId == wo.body.assetId
    && p.correlationId == q.correlationId && p.modelProfileId == q.modelProfileId
    && p.modelInfoId == q.modelInfoId && p.policyVersion == q.policyVersion
  }

  /** A healthy loop: everything is delivered, the risk is on, mapping and work order agree, and the CMMS shows the order. */
  ghost predicate IsHealthy(l: Local, response: Option<Response>) {
    && IsReadable(l)
    && (forall e :: e in l.db.outbox + l.others ==> e.status.Delivered? || e.status.Superseded?)
    && var p, wo := l.db.projection.value, l.db.workOrders[l.db.risk.value.alertId.value];
       && p.desiredActive && p.deviceId == l.mapping.value.deviceId
       && wo.body.assetId == l.mapping.value.assetId.value
       && response.Some? && ShowsOrder(response.value, p.alertId, wo)
  }

  lemma HealthIsExact(l: Local, response: Option<Response>)
    ensures ReadSnapshot(l).Ok? <==> IsReadable(l)
    ensures Healthy(l, response) <==> IsHealthy(l, response)
    ensures IsReadable(l) ==>
              ReadSnapshot(l).value.cmmsStatus == l.db.workOrders[l.db.risk.value.alertId.value].status.value
  {
    SettledMeansQuiet(l.db.outbox + l.others);
  }

  /** The status the CMMS last reported for the current work order. */
  function StatusNow(l: Local): string
    requires IsReadable(l)
  {
    l.db.workOrders[l.db.risk.value.alertId.value].status.value
  }

  /** The stage a running risk shows for each status of its work order. */
  function StageOf(status: string): Stage {
    if status == "OPEN" then ActiveStage
    else if status == "IN_PROGRESS" then InProgressStage
    else if status == "COMPLETE" then CompleteStage
    else Consistent
  }

  lemma StageExact(s: Snapshot, expected: Stage)
    requires ValidateLocalIdentity(s).None? && s.desiredActive && s.healthyCount < 2
    ensures ObservedStage(s, false) == StageOf(s.cmmsStatus)
    ensures ValidateStage(s, false, expected).None? <==> expected.Consistent? || expected == StageOf(s.cmmsStatus)
  {}

  /**
    However the loop and the tenant's other series go on while the verifier works, it accepts exactly when the first
    read shows a healthy loop at the stage of its work-order status and the second read shows the same. It follows that
    a change in between is refused, and that a cleared loop is never accepted, at stage CLEARED or any other.
   */
  lemma VerifierIsExact(key: Key, before: seq<Move>, during: seq<Move>, after: seq<Move>, others: seq<Event>,
                        othersLater: seq<Event>, mapping: Option<Mapping>, mappingLater: Option<Mapping>,
                        acknowledged: bool, response: Option<Response>, expected: Stage)
    ensures var w := Play(Start(key), before);
            var v := Play(w, during);
            var first, again := Local(w.db, others, mapping), Local(Play(v, after).db, othersLater, mappingLater);
            Verify(first, again, v.alarms, acknowledged, response, expected).Ok? <==>
              && IsHealthy(first, response)
              && ReadSnapshot(again) == ReadSnapshot(first)
              && (expected.Consistent? || expected == StageOf(StatusNow(first)))
  {
    var w := Play(Start(key), before);
    var v := Play(w, during);
    StartInv(key);
    PlayKeepsWorld(Start(key), before);
    PlayKeepsWorld(w, during);
    PlayGoesOn(w, during);
    PlayGoesOn(v, after);
    PlayIsRun(key, before);
    RiskMeansRiskyPair(key, TxnsOf(Start(key), before));
    HealthIsExact(Local(w.db, others, mapping), response);
    VerifyWorld(Local(w.db, others, mapping), v, Local(Play(v, after).db, othersLater, mappingLater), acknowledged,
                response, expected);
  }

  /** All the checks on a first read `s`, the provider's alarms and the CMMS response. */
  predicate Passes(s: Snapshot, alarms: seq<TbAlarm>, acknowledged: bool, response: Option<Response>, expected: Stage) {
    && ValidateLocalIdentity(s).None?
    && RequireSettled(s.counts).None?
    && s.alarmId < |alarms| && ValidateAlarm(s, StateOf(alarms, s.alarmId, acknowledged)).None?
    && response.Some? && ValidateWorkOrder(s, response.value).None?
    && ValidateStage(s, !alarms[s.alarmId].active, expected).None?
  }

  lemma VerifyMeansPasses(first: Local, again: Local, alarms: seq<TbAlarm>, acknowledged: bool,
                          response: Option<Response>, expected: Stage)
    ensures Verify(first, again, alarms, acknowledged, response, expected).Ok? <==>
              && ReadSnapshot(first).Ok? && ReadSnapshot(again) == ReadSnapshot(first)
              && Passes(ReadSnapshot(first).value, alarms, acknowledged, response, expected)
  {}

  /** The ThingsBoard check, when the projection stood still between the reads. */
  lemma AlarmFacts(first: Local, v: World, again: Local, acknowledged: bool)
    requires Inv(first.db) && WorldInv(v) && GoesOn(first.db, v.db) && GoesOn(v.db, again.db)
    requires ReadSnapshot(first).Ok? && ReadSnapshot(again) == ReadSnapshot(first)
    requires RequireSettled(ReadSnapshot(first).value.counts).None?
    ensures var s := ReadSnapshot(first).value;
            && s.alarmId < |v.alarms|
            && (ValidateAlarm(s, StateOf(v.alarms, s.alarmId, acknowledged)).None? <==>
                  s.desiredActive && first.db.projection.value.deviceId == s.deviceId)
            && (ValidateAlarm(s, StateOf(v.alarms, s.alarmId, acknowledged)).None? ==> v.alarms[s.alarmId].active)
  {
    EqualReads(first, v.db, again);
    var event := SettledIsDelivered(first.db, first.others);
    StaysDelivered(first.db, v.db, event);
    AlarmCheckExact(v, first, event, acknowledged);
  }

  lemma PassesExact(l: Local, alarms: seq<TbAlarm>, acknowledged: bool, response: Option<Response>, expected: Stage)
    requires ReadSnapshot(l).Ok?
    requires var s := ReadSnapshot(l).value;
             && (s.desiredActive ==> s.healthyCount < 2)
             && (ValidateLocalIdentity(s).None? <==> s.body.assetId == s.assetId)
             && (RequireSettled(s.counts).None? ==>
                   && s.alarmId < |alarms|
                   && (ValidateAlarm(s, StateOf(alarms, s.alarmId, acknowledged)).None? <==>
                         s.desiredActive && l.db.projection.value.deviceId == s.deviceId)
                   && (ValidateAlarm(s, StateOf(alarms, s.alarmId, acknowledged)).None? ==> alarms[s.alarmId].active))
    ensures var s := ReadSnapshot(l).value;
            Passes(s, alarms, acknowledged, response, expected) <==>
              Healthy(l, response) && (expected.Consistent? || expected == StageOf(s.cmmsStatus))
  {
    var s := ReadSnapshot(l).value;
    assert s.counts == Tally(l.db.outbox + l.others);
    if ValidateLocalIdentity(s).None? && s.desiredActive {
      StageExact(s, expected);
    }
  }

  lemma VerifyWorld(first: Local, v: World, again: Local, acknowledged: bool, response: Option<Response>, expected: Stage)
    requires Inv(first.db) && WorldInv(v) && GoesOn(first.db, v.db) && GoesOn(v.db, again.db)
    requires CountersOf(first.db).active ==> CountersOf(first.db).healthyCount < 2
    ensures Verify(first, again, v.alarms, acknowledged, response, expected).Ok? <==>
              && Healthy(first, response)
              && ReadSnapshot(again) == ReadSnapshot(first)
              && (expected.Consistent? || expected == StageOf(ReadSnapshot(first).value.cmmsStatus))
  {
    VerifyMeansPasses(first, again, v.alarms, acknowledged, response, expected);
    if ReadSnapshot(first).Ok? && ReadSnapshot(again) == ReadSnapshot(first) {
      var s := ReadSnapshot(first).value;
      LocalIdentityExact(first);
      assert s.desiredActive ==> s.healthyCount < 2;
      if RequireSettled(s.counts).None? {
        AlarmFacts(first, v, again, acknowledged);
      }
      PassesExact(first, v.alarms, acknowledged, response, expected);
    }
  }

  /** The stage CLEARED, which the documentation offers, cannot be verified in any reachable world. */
  lemma ClearedNeverVerifies(key: Key, before: seq<Move>, during: seq<Move>, after: seq<Move>, others: seq<Event>,
                             othersLater: seq<Event>, mapping: Option<Mapping>, mappingLater: Option<Mapping>,
                             acknowledged: bool, response: Option<Response>)
    ensures var w := Play(Start(key), before);
            var v := Play(w, during);
            Verify(Local(w.db, others, mapping), Local(Play(v, after).db, othersLater, mappingLater), v.alarms,
                   acknowledged, response, ClearedStage).Err?
  {
    VerifierIsExact(key, before, during, after, others, othersLater, mapping, mappingLater, acknowledged, response,
                    ClearedStage);
  }
}
