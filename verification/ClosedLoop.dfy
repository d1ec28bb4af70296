/**
  The closed loop of one risk key: its risk row, alert episodes, cached alarm projection,
  work orders, operator actions and transactional outbox, and what each transaction does to them.
  Every transaction locks the risk row first, so each is one atomic step of the aggregate.
 */
module ClosedLoop {
  import opened Basics
  import opened RiskStates

  const MAX_ATTEMPTS: nat := 8
  const LEASE_SECONDS: nat := 30
  const POLL_SECONDS: nat := 300

  datatype Key = Key(tenantId: Uuid, equipmentId: Uuid, measCode: string)

  // ---------------------------------------------------------------- rows

  datatype Direction = Above | Below

  datatype Threshold = Threshold(direction: Direction, value: real, unit: string)

  /** The columns of an alert that are copied from the pinned run and its binding at creation. */
  datatype Provenance = Provenance(
    correlationId: Uuid,
    modelProfileId: string,
    modelInfoId: string,
    policyVersion: string,
    threshold: Threshold)

  datatype Forecast = Forecast(minimum: real, maximum: real, mean: real, crossings: nat)

  datatype RunInfo = RunInfo(runId: Uuid, provenance: Provenance, forecast: Forecast, risky: bool)

  datatype Phase = RiskActive | RiskCleared | RiskManuallyClosed

  datatype Maintenance =
    | PendingApproval
    | Approved
    | WorkOrderCreating
    | WorkOrderOpen
    | WorkOrderInProgress
    | WorkOrderOnHold
    | WorkOrderComplete
    | WorkOrderCreateFailed
    | SuppressedActiveWorkOrder

  predicate IsOpen(m: Maintenance) {
    m.WorkOrderCreating? || m.WorkOrderOpen? || m.WorkOrderInProgress? || m.WorkOrderOnHold?
  }

  /** `_maintenance_state`: None is the RuntimeError for a status the dictionary does not know. */
  function MaintenanceOf(status: string): Option<Maintenance> {
    if status == "OPEN" then Some(WorkOrderOpen)
    else if status == "IN_PROGRESS" then Some(WorkOrderInProgress)
    else if status == "ON_HOLD" then Some(WorkOrderOnHold)
    else if status == "COMPLETE" then Some(WorkOrderComplete)
    else None
  }

  datatype Alert = Alert(
    episode: nat,
    runId: Uuid,
    provenance: Provenance,
    forecast: Forecast,
    phase: Phase,
    maintenance: Maintenance,
    actionAllowed: bool,
    version: nat)

  datatype OrderDetails = OrderDetails(
    cmmsId: Option<nat>, status: Option<string>, eventVersion: Option<nat>, updatedAt: Option<Time>)

  datatype Details = Details(
    key: Key,
    alertId: Uuid,
    runId: Uuid,
    provenance: Provenance,
    forecast: Forecast,
    phase: Phase,
    maintenance: Maintenance,
    alertVersion: nat,
    actionAllowed: bool,
    order: Option<OrderDetails>)

  datatype Projection = Projection(
    alertId: Uuid,
    deviceId: Uuid,
    alarmId: Option<Uuid>,
    desiredActive: bool,
    version: nat,
    details: Details)

  /** `_work_order_request`; title and description are fixed texts over the key, threshold and correlation. */
  datatype RequestBody = RequestBody(
    key: Key,
    alertId: Uuid,
    alarmId: Uuid,
    assetId: nat,
    provenance: Provenance)

  /** Keyed by alert id, which is unique and is also the external reference. */
  datatype WorkOrder = WorkOrder(
    body: RequestBody,
    cmmsId: Option<nat>,
    status: Option<string>,
    eventVersion: Option<nat>,
    updatedAt: Option<Time>,
    maintenance: Maintenance,
    nextPollAt: Option<Time>,
    pollOwner: Option<string>,
    pollExpires: Option<Time>)

  datatype EventKind = AlarmSync | WorkOrderCreate

  datatype EventStatus = Pending | InFlight | RetryWait | Delivered | Superseded | DeadLetter

  datatype Event = Event(
    kind: EventKind,
    alertId: Uuid,
    version: nat,
    status: EventStatus,
    attempt: nat,
    owner: Option<string>,
    expires: Option<Time>,
    availableAt: Time)

  datatype ActionKind = CreateAction | CloseAction

  datatype ActionKey = ActionKey(alertId: Uuid, kind: ActionKind)

  datatype ActionResult = ActionResult(actionId: Uuid, key: ActionKey, correlationId: Uuid)

  datatype ActionRow = ActionRow(
    actorId: Uuid, requestDigest: string, expectedVersion: int, result: ActionResult)

  /** `slots` is the immutable scheduled_at column of the runs of this series. */
  datatype Aggregate = Aggregate(
    key: Key,
    slots: map<Uuid, Time>,
    risk: Option<RiskRow>,
    alerts: seq<Alert>,
    projection: Option<Projection>,
    workOrders: map<Uuid, WorkOrder>,
    outbox: seq<Event>,
    actions: map<ActionKey, ActionRow>)

  function Empty(key: Key): Aggregate {
    Aggregate(key, map[], None, [], None, map[], [], map[])
  }

  // ---------------------------------------------------------------- projection and outbox

  function OrderDetailsOf(wo: WorkOrder): OrderDetails {
    OrderDetails(wo.cmmsId, wo.status, wo.eventVersion, wo.updatedAt)
  }

  /** `_details`: the cached picture of an alert and its work order. */
  function DetailsOf(key: Key, id: Uuid, alert: Alert, workOrders: map<Uuid, WorkOrder>): Details {
    Details(key, id, alert.runId, alert.provenance, alert.forecast, alert.phase, alert.maintenance,
            alert.version, alert.actionAllowed,
            if id in workOrders then Some(OrderDetailsOf(workOrders[id])) else None)
  }

  predicate IsWaiting(e: Event) { e.status.Pending? || e.status.RetryWait? }

  function SupersedeEvent(e: Event, ids: set<Uuid>): Event {
    if e.kind.AlarmSync? && e.alertId in ids && IsWaiting(e)
    then e.(status := Superseded, owner := None, expires := None)
    else e
  }

  /** The UPDATE that supersedes every waiting alarm event of the given alerts. */
  function SupersedeWaiting(outbox: seq<Event>, ids: set<Uuid>): (r: seq<Event>)
    ensures |r| == |outbox|
    ensures forall i :: 0 <= i < |r| ==> r[i] == SupersedeEvent(outbox[i], ids)
  {
    seq(|outbox|, i requires 0 <= i < |outbox| => SupersedeEvent(outbox[i], ids))
  }

  function NewEvent(kind: EventKind, alertId: Uuid, version: nat, now: Time): Event {
    Event(kind, alertId, version, Pending, 0, None, None, now)
  }

  predicate HasProjection(a: Aggregate, id: Uuid) {
    a.projection.Some? && a.projection.value.alertId == id
  }

  /** Bump the aggregate version, refresh the cached details, retire waiting events and queue a new one. */
  function Requeue(a: Aggregate, p: Projection, ids: set<Uuid>, now: Time): Aggregate
    requires a.risk.Some? && p.alertId < |a.alerts|
  {
    var v := a.risk.value.alarmVersion + 1;
    a.(risk := Some(a.risk.value.(alarmVersion := v)),
       projection := Some(p.(version := v, details := DetailsOf(a.key, p.alertId, a.alerts[p.alertId], a.workOrders))),
       outbox := SupersedeWaiting(a.outbox, ids) + [NewEvent(AlarmSync, p.alertId, v, now)])
  }

  /** `_replace_projection`. */
  function ReplaceProjection(a: Aggregate, id: Uuid, deviceId: Uuid, desired: bool, now: Time): Aggregate
    requires a.risk.Some? && id < |a.alerts|
  {
    var blank := Projection(id, deviceId, None, desired, 0, DetailsOf(a.key, id, a.alerts[id], a.workOrders));
    match a.projection
    case None => Requeue(a, blank, {id}, now)
    case Some(p) =>
      if p.alertId == id then Requeue(a, p.(desiredActive := desired), {id}, now)
      else Requeue(a, blank, {id, p.alertId}, now)
  }

  /** `_queue_alarm_details`: silent when the alert no longer owns the projection. */
  function QueueDetails(a: Aggregate, id: Uuid, now: Time): Aggregate
    requires a.risk.Some? && id < |a.alerts|
  {
    if HasProjection(a, id) then Requeue(a, a.projection.value, {id}, now) else a
  }

  // ---------------------------------------------------------------- rounds

  function EnsureRow(a: Aggregate): Aggregate {
    if a.risk.Some? then a else a.(risk := Some(NEW_ROW))
  }

  function MaxEpisode(alerts: seq<Alert>): nat {
    if alerts == [] then 0
    else
      var rest := MaxEpisode(alerts[..|alerts| - 1]);
      var last := alerts[|alerts| - 1].episode;
      if last > rest then last else rest
  }

  predicate OpenAt(orders: map<Uuid, WorkOrder>, id: Uuid) {
    id in orders && IsOpen(orders[id].maintenance)
  }

  predicate HasOpenOrder(a: Aggregate) {
    exists id :: id in a.workOrders && OpenAt(a.workOrders, id)
  }

  datatype Mapping = Mapping(deviceId: Uuid, assetId: Option<nat>, enabled: bool, active: bool)

  function NewAlert(a: Aggregate, run: RunInfo, pilot: Option<Uuid>): Alert {
    var suppressed := HasOpenOrder(a);
    Alert(MaxEpisode(a.alerts) + 1, run.runId, run.provenance, run.forecast, RiskActive,
          if suppressed then SuppressedActiveWorkOrder else PendingApproval,
          pilot == Some(a.key.equipmentId) && !suppressed,
          1)
  }

  /** The alert of a new episode, inserted and made the row's current alert. */
  function OpenEpisode(a: Aggregate, run: RunInfo, pilot: Option<Uuid>): Aggregate
    requires a.risk.Some?
  {
    a.(alerts := a.alerts + [NewAlert(a, run, pilot)], risk := Some(a.risk.value.(alertId := Some(|a.alerts|))))
  }

  /** Alert `id` takes the newest evidence, and is cleared when the row no longer is active. */
  function RefreshAlert(a: Aggregate, id: Uuid, run: RunInfo, active: bool): Aggregate
    requires id < |a.alerts|
  {
    var alert := a.alerts[id];
    a.(alerts := a.alerts[id := alert.(runId := run.runId, forecast := run.forecast, version := alert.version + 1,
                                       phase := if active then alert.phase else RiskCleared)])
  }

  /** `ClosedLoopTransitionService.apply`; None is the rolled-back RuntimeError. */
  function Apply(a: Aggregate, run: RunInfo, wasActive: bool, mapping: Option<Mapping>, pilot: Option<Uuid>,
                 now: Time): Option<Aggregate>
    requires a.risk.Some?
  {
    var row := a.risk.value;
    var active := row.counters.active;
    if !active && !wasActive then Some(a)
    else if active && !wasActive then
      if mapping.None? then None
      else Some(ReplaceProjection(OpenEpisode(a, run, pilot), |a.alerts|, mapping.value.deviceId, active, now))
    else if row.alertId.None? || row.alertId.value >= |a.alerts| then Some(a)
    else if mapping.None? then None
    else
      var id := row.alertId.value;
      Some(ReplaceProjection(RefreshAlert(a, id, run, active), id, mapping.value.deviceId, active, now))
  }

  /** The closed-loop half of `succeed`: an accepted round advances the counters and is projected. */
  function RoundSucceeded(a: Aggregate, run: RunInfo, mapping: Option<Mapping>, pilot: Option<Uuid>,
                          now: Time): Aggregate
    requires run.runId in a.slots
  {
    var b := EnsureRow(a);
    var row := b.risk.value;
    if !IsNewest(b.slots, row, run.runId) then b
    else
      match Apply(b.(risk := Some(RecordRound(row, run.runId, run.risky))), run, row.counters.active,
                  mapping, pilot, now)
      case Some(c) => c
      case None => a
  }

  /** `_reset_risk_counters_for_run` and stale reconcile; only the former inserts a missing row. */
  function RoundFailed(a: Aggregate, run: Uuid, upsert: bool): Aggregate
    requires run in a.slots
  {
    var b := if upsert then EnsureRow(a) else a;
    if b.risk.None? || !IsNewest(b.slots, b.risk.value, run) then b
    else b.(risk := Some(ResetCounters(b.risk.value, run)))
  }

  // ---------------------------------------------------------------- operator actions

  datatype AlarmView = AlarmView(alarmId: Uuid, deviceId: Uuid, statusActive: bool)

  datatype Tenant = Tenant(tbTenantId: Uuid, companyId: nat, enabled: bool)

  /** What `_authorize` established before the transaction. */
  datatype Authorized = Authorized(alertId: Uuid, userId: Uuid, userTenantId: Uuid, alarm: AlarmView)

  datatype PlanIdentity = PlanIdentity(
    tenantId: Uuid,
    tbTenantId: Uuid,
    companyId: nat,
    alertId: Uuid,
    alertVersion: nat,
    approverId: Uuid,
    alarmId: Uuid,
    workOrder: RequestBody)

  /** A collision-free SHA-256: a digest of a plan remembers its preimage; any other text is not a plan's digest. */
  datatype PlanHash = Sha256(preimage: PlanIdentity) | OtherText(text: string)

  datatype ActionError =
    | IdempotencyKeyInvalid
    | ReasonRequired
    | ProjectionNotReady
    | AlertNotFound
    | IdempotencyConflict
    | PlanDrift
    | NotActionable
    | AssetMappingMissing
    | VersionStale

  datatype ActionCall = ActionCall(
    auth: Authorized,
    key: ActionKey,
    requestDigest: string,
    expectedVersion: int,
    confirmed: PlanHash,
    reason: string,
    mapping: Option<Mapping>,
    tenant: Option<Tenant>,
    actionId: Uuid,
    now: Time)

  datatype Reply = Reply(result: ActionResult, replayed: bool)

  datatype ActionOutcome = ActionOutcome(after: Aggregate, reply: Result<Reply, ActionError>)

  function Refused(a: Aggregate, e: ActionError): ActionOutcome { ActionOutcome(a, Err(e)) }

  /** `_require_actionable`: None means the alert may be acted on. */
  function ActionableError(alert: Alert, alarm: AlarmView, mapping: Mapping): Option<ActionError> {
    if !alert.phase.RiskActive? || !alert.maintenance.PendingApproval? || !alert.actionAllowed || !alarm.statusActive
    then Some(NotActionable)
    else if mapping.assetId.None? then Some(AssetMappingMissing)
    else None
  }

  function RequestOf(key: Key, id: Uuid, alert: Alert, alarm: AlarmView, mapping: Mapping): RequestBody
    requires mapping.assetId.Some?
  {
    RequestBody(key, id, alarm.alarmId, mapping.assetId.value, alert.provenance)
  }

  /** The identity `_plan` hashes. */
  function PlanOf(key: Key, auth: Authorized, alert: Alert, tenant: Tenant, mapping: Mapping): PlanIdentity
    requires mapping.assetId.Some?
  {
    PlanIdentity(key.tenantId, tenant.tbTenantId, tenant.companyId, auth.alertId, alert.version, auth.userId,
                 auth.alarm.alarmId, RequestOf(key, auth.alertId, alert, auth.alarm, mapping))
  }

  /** `preview`: the plan hash shown to the approver. */
  function Preview(a: Aggregate, auth: Authorized, tenant: Tenant, mapping: Mapping): Result<PlanHash, ActionError> {
    if auth.alertId >= |a.alerts| then Err(AlertNotFound)
    else if !HasProjection(a, auth.alertId) || a.projection.value.alarmId != Some(auth.alarm.alarmId)
    then Err(ProjectionNotReady)
    else
      var alert := a.alerts[auth.alertId];
      match ActionableError(alert, auth.alarm, mapping)
      case Some(e) => Err(e)
      case None => Ok(Sha256(PlanOf(a.key, auth, alert, tenant, mapping)))
  }

  function ResultOf(call: ActionCall, alert: Alert): ActionResult {
    ActionResult(call.actionId, call.key, alert.provenance.correlationId)
  }

  function ActionOf(call: ActionCall, alert: Alert): ActionRow {
    ActionRow(call.auth.userId, call.requestDigest, call.expectedVersion, ResultOf(call, alert))
  }

  function Replay(a: Aggregate, call: ActionCall): ActionOutcome
    requires call.key in a.actions
  {
    var row := a.actions[call.key];
    if row.requestDigest != call.requestDigest || row.actorId != call.auth.userId
    then Refused(a, IdempotencyConflict)
    else ActionOutcome(a, Ok(Reply(row.result, true)))
  }

  predicate Drifted(a: Aggregate, call: ActionCall)
  {
    || !HasProjection(a, call.auth.alertId)
    || a.projection.value.alarmId != Some(call.auth.alarm.alarmId)
    || call.mapping.None?
    || !call.mapping.value.enabled
    || !call.mapping.value.active
    || call.mapping.value.deviceId != call.auth.alarm.deviceId
    || call.tenant.None?
    || !call.tenant.value.enabled
    || call.tenant.value.tbTenantId != call.auth.userTenantId
  }

  function NewWorkOrder(body: RequestBody): WorkOrder {
    WorkOrder(body, None, None, None, None, WorkOrderCreating, None, None, None)
  }

  /** What an accepted create writes before the alarm refresh. */
  function AcceptCreate(a: Aggregate, call: ActionCall): Aggregate
    requires call.auth.alertId < |a.alerts| && call.mapping.Some? && call.mapping.value.assetId.Some?
  {
    var id := call.auth.alertId;
    var alert := a.alerts[id];
    a.(actions := a.actions[call.key := ActionOf(call, alert)],
       workOrders := a.workOrders[id := NewWorkOrder(RequestOf(a.key, id, alert, call.auth.alarm, call.mapping.value))],
       outbox := a.outbox + [NewEvent(WorkOrderCreate, id, 1, call.now)],
       alerts := a.alerts[id := alert.(maintenance := WorkOrderCreating, actionAllowed := false,
                                       version := alert.version + 1)])
  }

  /** `_queue_alarm_refresh` of a projection known to exist. */
  function QueueRefresh(a: Aggregate, id: Uuid, now: Time): Aggregate
    requires a.risk.Some? && id < |a.alerts| && HasProjection(a, id)
  {
    Requeue(a, a.projection.value.(desiredActive := a.alerts[id].phase.RiskActive?), {id}, now)
  }

  /** `_create_work_order`. */
  function CreateWorkOrder(a: Aggregate, call: ActionCall): ActionOutcome {
    var id := call.auth.alertId;
    if call.key != ActionKey(id, CreateAction) then Refused(a, IdempotencyKeyInvalid)
    else if a.risk.None? then Refused(a, ProjectionNotReady)
    else if id >= |a.alerts| then Refused(a, AlertNotFound)
    else if call.key in a.actions then Replay(a, call)
    else if Drifted(a, call) then Refused(a, PlanDrift)
    else
      var alert, mapping := a.alerts[id], call.mapping.value;
      match ActionableError(alert, call.auth.alarm, mapping)
      case Some(e) => Refused(a, e)
      case None =>
        if call.expectedVersion != alert.version then Refused(a, VersionStale)
        else if call.confirmed != Sha256(PlanOf(a.key, call.auth, alert, call.tenant.value, mapping))
        then Refused(a, PlanDrift)
        else ActionOutcome(QueueRefresh(AcceptCreate(a, call), id, call.now), Ok(Reply(ResultOf(call, alert), false)))
  }

  predicate IsSpace(c: char) { c in " \t\n\r" }

  predicate ReasonGiven(reason: string) {
    |reason| <= 500 && exists i :: 0 <= i < |reason| && !IsSpace(reason[i])
  }

  /** What an accepted close writes before the alarm refresh. */
  function AcceptClose(a: Aggregate, call: ActionCall): Aggregate
    requires call.auth.alertId < |a.alerts| && a.risk.Some?
  {
    var id := call.auth.alertId;
    var alert := a.alerts[id];
    a.(actions := a.actions[call.key := ActionOf(call, alert)],
       alerts := a.alerts[id := alert.(phase := RiskManuallyClosed, actionAllowed := false, version := alert.version + 1)],
       risk := Some(CloseRow(a.risk.value)))
  }

  /** `_close_risk`; its refresh passes `desired_active=False`, which is what the closed phase gives as well. */
  function CloseRisk(a: Aggregate, call: ActionCall): ActionOutcome {
    var id := call.auth.alertId;
    if !ReasonGiven(call.reason) then Refused(a, ReasonRequired)
    else if call.key != ActionKey(id, CloseAction) then Refused(a, IdempotencyKeyInvalid)
    else if a.risk.None? then Refused(a, ProjectionNotReady)
    else if id >= |a.alerts| then Refused(a, AlertNotFound)
    else if call.key in a.actions then Replay(a, call)
    else
      var alert := a.alerts[id];
      if call.expectedVersion != alert.version || !alert.phase.RiskActive? then Refused(a, VersionStale)
      else if !HasProjection(a, id) then Refused(a, ProjectionNotReady)
      else ActionOutcome(QueueRefresh(AcceptClose(a, call), id, call.now), Ok(Reply(ResultOf(call, alert), false)))
  }

  // ---------------------------------------------------------------- outbox delivery

  function ExpireEvent(e: Event, kind: EventKind, now: Time): Event {
    if e.kind == kind && e.status.InFlight? && e.expires.Some? && e.expires.value < now
    then e.(status := RetryWait, owner := None, expires := None, availableAt := now)
    else e
  }

  function ExpireLeases(outbox: seq<Event>, kind: EventKind, now: Time): (r: seq<Event>)
    ensures |r| == |outbox|
    ensures forall i :: 0 <= i < |r| ==> r[i] == ExpireEvent(outbox[i], kind, now)
  {
    seq(|outbox|, i requires 0 <= i < |outbox| => ExpireEvent(outbox[i], kind, now))
  }

  predicate Claimable(e: Event, kind: EventKind, now: Time) {
    e.kind == kind && IsWaiting(e) && e.availableAt <= now && e.attempt < MAX_ATTEMPTS
  }

  /** What a claim of `kind` may take at `now`: a waiting event whose time has come, or one whose lease has expired. */
  predicate Due(e: Event, kind: EventKind, now: Time) {
    && e.kind == kind && e.attempt < 8
    && (((e.status.Pending? || e.status.RetryWait?) && e.availableAt <= now)
        || (e.status.InFlight? && e.expires.Some? && e.expires.value < now))
  }

  function ClaimEvent(e: Event, owner: string, now: Time): Event {
    e.(status := InFlight, attempt := e.attempt + 1, owner := Some(owner), expires := Some(now + LEASE_SECONDS))
  }

  /** `claim_outbox` taking row `pick`: rows locked elsewhere are skipped, so any claimable row may be the one. */
  function ClaimOutbox(a: Aggregate, kind: EventKind, pick: nat, owner: string, now: Time): Aggregate {
    var outbox := ExpireLeases(a.outbox, kind, now);
    if pick < |outbox| && Claimable(outbox[pick], kind, now)
    then a.(outbox := outbox[pick := ClaimEvent(outbox[pick], owner, now)])
    else a.(outbox := outbox)
  }

  /** The lease check every finishing transaction repeats. */
  predicate Holds(a: Aggregate, event: nat, owner: string) {
    event < |a.outbox| && a.outbox[event].status.InFlight? && a.outbox[event].owner == Some(owner)
  }

  function SetEvent(a: Aggregate, event: nat, e: Event): Aggregate
    requires event < |a.outbox|
  {
    a.(outbox := a.outbox[event := e])
  }

  /** `_finish_event`. */
  function FinishEvent(a: Aggregate, event: nat, owner: string, status: EventStatus): Aggregate {
    if !Holds(a, event, owner) then a
    else SetEvent(a, event, a.outbox[event].(status := status, owner := None, expires := None))
  }

  function Min(x: nat, y: nat): nat { if x < y then x else y }

  function Pow2(n: nat): nat { if n == 0 then 1 else 2 * Pow2(n - 1) }

  /** `retry`: dead-letter at the eighth attempt, otherwise back off exponentially up to 300 seconds. */
  function RetryEvent(a: Aggregate, event: nat, owner: string, now: Time): Aggregate {
    if !Holds(a, event, owner) then a
    else
      var e := a.outbox[event].(owner := None, expires := None);
      SetEvent(a, event,
               if e.attempt >= MAX_ATTEMPTS then e.(status := DeadLetter)
               else e.(status := RetryWait, availableAt := now + Min(300, Pow2(Min(e.attempt, 8)))))
  }

  /** `alarm_delivery`: the projection the alarm worker is about to send, read under its claim. */
  function AlarmDelivery(a: Aggregate, event: nat, owner: string): Option<Projection> {
    if Holds(a, event, owner) && HasProjection(a, a.outbox[event].alertId) then a.projection else None
  }

  /** `save_alarm_id`; an identity conflict raises and rolls back. */
  function SaveAlarmId(a: Aggregate, event: nat, owner: string, alertId: Uuid, alarmId: Uuid): Aggregate {
    if !Holds(a, event, owner) || !HasProjection(a, alertId) then a
    else if a.projection.value.alarmId.Some? && a.projection.value.alarmId.value != alarmId then a
    else
      SetEvent(a.(projection := Some(a.projection.value.(alarmId := Some(alarmId)))), event,
               a.outbox[event].(status := Delivered, owner := None, expires := None))
  }

  datatype CmmsReply = CmmsReply(id: nat, status: string, eventVersion: nat, updatedAt: Time)

  function NextPoll(m: Maintenance, now: Time): Option<Time> {
    if m.WorkOrderComplete? then None else Some(now + POLL_SECONDS)
  }

  function SetOrder(a: Aggregate, id: Uuid, wo: WorkOrder): Aggregate {
    a.(workOrders := a.workOrders[id := wo])
  }

  /** The work order is stored and its alert takes over the maintenance state. */
  function Followed(a: Aggregate, id: Uuid, wo: WorkOrder): Aggregate
    requires id < |a.alerts|
  {
    var alert := a.alerts[id];
    a.(workOrders := a.workOrders[id := wo],
       alerts := a.alerts[id := alert.(maintenance := wo.maintenance, version := alert.version + 1)])
  }

  function FollowOrder(a: Aggregate, id: Uuid, wo: WorkOrder, now: Time): Aggregate
    requires a.risk.Some? && id < |a.alerts|
  {
    QueueDetails(Followed(a, id, wo), id, now)
  }

  /** `save_created_work_order`; an unknown status raises and rolls back. */
  function SaveCreated(a: Aggregate, event: nat, owner: string, reply: CmmsReply, now: Time): Aggregate {
    if !Holds(a, event, owner) then a
    else
      var id := a.outbox[event].alertId;
      if id >= |a.alerts| || a.risk.None? || id !in a.workOrders || MaintenanceOf(reply.status).None? then a
      else
        var m := MaintenanceOf(reply.status).value;
        var wo := a.workOrders[id].(cmmsId := Some(reply.id), status := Some(reply.status),
                                    eventVersion := Some(reply.eventVersion), updatedAt := Some(reply.updatedAt),
                                    maintenance := m, nextPollAt := NextPoll(m, now));
        var done := a.outbox[event].(status := Delivered, owner := None, expires := None);
        FollowOrder(SetEvent(a, event, done), id, wo, now)
  }

  // ---------------------------------------------------------------- CMMS status polling

  function ExpirePoll(wo: WorkOrder, now: Time): WorkOrder {
    if wo.pollExpires.Some? && wo.pollExpires.value < now then wo.(pollOwner := None, pollExpires := None) else wo
  }

  function ExpirePolls(orders: map<Uuid, WorkOrder>, now: Time): map<Uuid, WorkOrder> {
    map id | id in orders :: ExpirePoll(orders[id], now)
  }

  predicate Pollable(wo: WorkOrder, now: Time) {
    && wo.cmmsId.Some?
    && !wo.maintenance.WorkOrderComplete?
    && wo.nextPollAt.Some? && wo.nextPollAt.value <= now
    && wo.pollOwner.None?
  }

  /** `claim_status_poll` taking work order `id`. */
  function ClaimPoll(a: Aggregate, id: Uuid, owner: string, now: Time): Aggregate {
    var orders := ExpirePolls(a.workOrders, now);
    if id in orders && Pollable(orders[id], now)
    then a.(workOrders := orders[id := orders[id].(pollOwner := Some(owner), pollExpires := Some(now + LEASE_SECONDS))])
    else a.(workOrders := orders)
  }

  datatype PollResult = LeaseLost | StaleIgnored | VersionConflict | Duplicate | Applied | StatusInvalid

  /** The decision `apply_status` takes on a polled status; `StatusInvalid` raises and rolls back. */
  function PollDecision(a: Aggregate, id: Uuid, owner: string, reply: CmmsReply): PollResult {
    if id >= |a.alerts| || a.risk.None? || id !in a.workOrders || a.workOrders[id].pollOwner != Some(owner)
    then LeaseLost
    else
      var wo := a.workOrders[id];
      if wo.eventVersion.Some? && reply.eventVersion < wo.eventVersion.value then StaleIgnored
      else if wo.eventVersion == Some(reply.eventVersion) then
        if wo.status != Some(reply.status) then VersionConflict else Duplicate
      else if MaintenanceOf(reply.status).None? then StatusInvalid
      else Applied
  }

  /** `apply_status`. */
  function ApplyStatus(a: Aggregate, id: Uuid, owner: string, reply: CmmsReply, now: Time): Aggregate {
    var decision := PollDecision(a, id, owner, reply);
    if decision.LeaseLost? || decision.StatusInvalid? then a
    else
      var wo := a.workOrders[id].(pollOwner := None, pollExpires := None);
      if !decision.Applied? then SetOrder(a, id, wo.(nextPollAt := NextPoll(wo.maintenance, now)))
      else
        var m := MaintenanceOf(reply.status).value;
        FollowOrder(a, id,
                    wo.(eventVersion := Some(reply.eventVersion), status := Some(reply.status),
                        updatedAt := Some(reply.updatedAt), maintenance := m, nextPollAt := NextPoll(m, now)),
                    now)
  }

  /** `fail_status_poll`. */
  function FailPoll(a: Aggregate, id: Uuid, owner: string, now: Time): Aggregate {
    if id !in a.workOrders || a.workOrders[id].pollOwner != Some(owner) then a
    else
      SetOrder(a, id, a.workOrders[id].(nextPollAt := Some(now + POLL_SECONDS), pollOwner := None, pollExpires := None))
  }

  // ---------------------------------------------------------------- runs of the aggregate

  datatype Txn =
    | NewSlot(run: Uuid, at: Time)
    | SucceedRound(info: RunInfo, mapping: Option<Mapping>, pilot: Option<Uuid>, now: Time)
    | FailRound(run: Uuid, upsert: bool)
    | Create(call: ActionCall)
    | Close(call: ActionCall)
    | Claim(kind: EventKind, pick: nat, owner: string, now: Time)
    | Discard(event: nat, owner: string)
    | MarkCleared(event: nat, owner: string)
    | Retry(event: nat, owner: string, now: Time)
    | GiveUp(event: nat, owner: string)
    | SaveAlarm(event: nat, owner: string, alarmId: Uuid)
    | SaveOrder(event: nat, owner: string, reply: CmmsReply, now: Time)
    | StartPoll(id: Uuid, owner: string, now: Time)
    | FinishPoll(id: Uuid, owner: string, reply: CmmsReply, now: Time)
    | AbandonPoll(id: Uuid, owner: string, now: Time)

  predicate IsAlarmEvent(a: Aggregate, event: nat) { event < |a.outbox| && a.outbox[event].kind.AlarmSync? }

  predicate IsCreateEvent(a: Aggregate, event: nat) { event < |a.outbox| && a.outbox[event].kind.WorkOrderCreate? }

  /**
    Which transactions the workers issue: rounds belong to scheduled runs, an event is discarded only by
    the alarm worker and only after its delivery was found missing, and each worker finishes its own kind.
   */
  predicate Enabled(a: Aggregate, t: Txn) {
    match t
    case NewSlot(run, _) => run !in a.slots
    case SucceedRound(info, _, _, _) => info.runId in a.slots
    case FailRound(run, _) => run in a.slots
    case Discard(event, owner) => IsAlarmEvent(a, event) && AlarmDelivery(a, event, owner).None?
    case MarkCleared(event, _) => IsAlarmEvent(a, event)
    case SaveAlarm(event, _, _) => IsAlarmEvent(a, event)
    case SaveOrder(event, _, _, _) => IsCreateEvent(a, event)
    case _ => true
  }

  /** One committed (or rolled back) transaction. */
  function Step(a: Aggregate, t: Txn): Aggregate {
    if !Enabled(a, t) then a
    else
      match t
      case NewSlot(run, at) => a.(slots := a.slots[run := at])
      case SucceedRound(info, mapping, pilot, now) => RoundSucceeded(a, info, mapping, pilot, now)
      case FailRound(run, upsert) => RoundFailed(a, run, upsert)
      case Create(call) => CreateWorkOrder(a, call).after
      case Close(call) => CloseRisk(a, call).after
      case Claim(kind, pick, owner, now) => ClaimOutbox(a, kind, pick, owner, now)
      case Discard(event, owner) => FinishEvent(a, event, owner, Superseded)
      case MarkCleared(event, owner) => FinishEvent(a, event, owner, Delivered)
      case Retry(event, owner, now) => RetryEvent(a, event, owner, now)
      case GiveUp(event, owner) => FinishEvent(a, event, owner, DeadLetter)
      case SaveAlarm(event, owner, alarmId) => SaveAlarmId(a, event, owner, a.outbox[event].alertId, alarmId)
      case SaveOrder(event, owner, reply, now) => SaveCreated(a, event, owner, reply, now)
      case StartPoll(id, owner, now) => ClaimPoll(a, id, owner, now)
      case FinishPoll(id, owner, reply, now) => ApplyStatus(a, id, owner, reply, now)
      case AbandonPoll(id, owner, now) => FailPoll(a, id, owner, now)
  }

  function Run(a: Aggregate, ts: seq<Txn>): Aggregate {
    if ts == [] then a else Step(Run(a, ts[..|ts| - 1]), ts[|ts| - 1])
  }
}
