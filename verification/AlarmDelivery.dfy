/**
  The alarm delivery worker against ThingsBoard: claim, read, look up, write and finish are separate steps, and any
  other transaction, a crash or a lost response may fall between them. One worker serves the risk key, every claim has
  its own owner, only the worker writes these alarms, and a write takes effect when it is sent or never.
 */
module AlarmDelivery {
  import opened Basics
  import opened RiskStates
  import opened ClosedLoop
  import opened ClosedLoopInvariant
  import opened ClosedLoopHistory

  // ---------------------------------------------------------------- the provider

  /** A PDM_FORECAST_RISK alarm; its id is its position. */
  datatype TbAlarm = TbAlarm(deviceId: Uuid, active: bool, details: Details)

  predicate Matches(alarm: TbAlarm, sent: Projection) {
    && alarm.active
    && alarm.deviceId == sent.deviceId
    && alarm.details.key == sent.details.key
    && alarm.details.alertId == sent.alertId
  }

  function MatchesAmong(alarms: seq<TbAlarm>, n: nat, sent: Projection): (r: seq<Uuid>)
    requires n <= |alarms|
    ensures forall k :: 0 <= k < |r| ==> r[k] < n && Matches(alarms[r[k]], sent)
    ensures forall i :: 0 <= i < n && Matches(alarms[i], sent) ==> i in r
    ensures forall k, l :: 0 <= k < l < |r| ==> r[k] < r[l]
  {
    if n == 0 then []
    else
      var rest := MatchesAmong(alarms, n - 1, sent);
      if Matches(alarms[n - 1], sent) then rest + [n - 1] else rest
  }

  /** `find_pdm_alarm`; Err is the rejected response with more than one match. */
  function FindAlarm(alarms: seq<TbAlarm>, sent: Projection): Result<Option<Uuid>, ()> {
    var found := MatchesAmong(alarms, |alarms|, sent);
    if |found| > 1 then Err(()) else if found == [] then Ok(None) else Ok(Some(found[0]))
  }

  function ActiveAlarm(sent: Projection): TbAlarm { TbAlarm(sent.deviceId, true, sent.details) }

  // ---------------------------------------------------------------- the worker

  datatype Ticket = Ticket(event: nat, owner: string)

  datatype Worker =
    | Idle
    | Claimed(ticket: Ticket)
    | Discarding(ticket: Ticket)
    | Read(ticket: Ticket, sent: Projection)
    | Found(ticket: Ticket, sent: Projection, existing: Option<Uuid>)
    | Written(ticket: Ticket, sent: Projection, alarmId: Uuid)
    | Cleared(ticket: Ticket, sent: Projection)
    | Failing(ticket: Ticket)

  datatype World = World(db: Aggregate, alarms: seq<TbAlarm>, worker: Worker)

  function Start(key: Key): World { World(Empty(key), [], Idle) }

  datatype Move =
    | Other(t: Txn)
    | Take(pick: nat, owner: string, now: Time)
    | ReadProjection
    | Drop
    | LookUp(reached: bool)
    | Send(effective: bool, answered: bool)
    | Finish
    | Backoff(now: Time)
    | Crash

  /** Transactions of the rounds, the operators, the work-order worker and the poll worker. */
  predicate ByOthers(a: Aggregate, t: Txn) {
    match t
    case Claim(kind, _, _, _) => kind.WorkOrderCreate?
    case Discard(_, _) => false
    case MarkCleared(_, _) => false
    case SaveAlarm(_, _, _) => false
    case Retry(event, _, _) => !IsAlarmEvent(a, event)
    case GiveUp(event, _) => !IsAlarmEvent(a, event)
    case _ => true
  }

  predicate CanTake(a: Aggregate, pick: nat, now: Time) {
    pick < |a.outbox| && Claimable(ExpireEvent(a.outbox[pick], AlarmSync, now), AlarmSync, now)
  }

  /** The upsert or clear call of `run_once`; a refused or unanswered call is retried later. */
  function SendTo(w: World, effective: bool, answered: bool): World
    requires w.worker.Found?
  {
    var sent, existing, n := w.worker.sent, w.worker.existing, |w.alarms|;
    var failed := w.(worker := Failing(w.worker.ticket));
    if sent.desiredActive then
      var id := if existing.Some? then existing.value else n;
      if !effective || id > n then failed
      else
        var alarms := if id == n then w.alarms + [ActiveAlarm(sent)] else w.alarms[id := ActiveAlarm(sent)];
        w.(alarms := alarms, worker := if answered then Written(w.worker.ticket, sent, id) else Failing(w.worker.ticket))
    else
      var target := if existing.Some? then existing else sent.alarmId;
      if target.None? then w.(worker := Cleared(w.worker.ticket, sent))
      else if !effective || target.value >= n then failed
      else
        var alarms := w.alarms[target.value := w.alarms[target.value].(active := false)];
        w.(alarms := alarms, worker := if answered then Cleared(w.worker.ticket, sent) else Failing(w.worker.ticket))
  }

  function Act(w: World, m: Move): World {
    match m
    case Other(t) => if ByOthers(w.db, t) then w.(db := Step(w.db, t)) else w
    case Take(pick, owner, now) =>
      if !w.worker.Idle? then w
      else
        w.(db := ClaimOutbox(w.db, AlarmSync, pick, owner, now),
           worker := if CanTake(w.db, pick, now) then Claimed(Ticket(pick, owner)) else Idle)
    case ReadProjection =>
      if !w.worker.Claimed? then w
      else
        var t := w.worker.ticket;
        var delivery := AlarmDelivery(w.db, t.event, t.owner);
        w.(worker := if delivery.Some? then Read(t, delivery.value) else Discarding(t))
    case Drop =>
      if !w.worker.Discarding? then w
      else w.(db := FinishEvent(w.db, w.worker.ticket.event, w.worker.ticket.owner, Superseded), worker := Idle)
    case LookUp(reached) =>
      if !w.worker.Read? then w
      else
        var found := FindAlarm(w.alarms, w.worker.sent);
        w.(worker := if reached && found.Ok? then Found(w.worker.ticket, w.worker.sent, found.value)
                     else Failing(w.worker.ticket))
    case Send(effective, answered) => if !w.worker.Found? then w else SendTo(w, effective, answered)
    case Finish =>
      if w.worker.Written? then
        var t, id := w.worker.ticket, w.worker.alarmId;
        w.(db := SaveAlarmId(w.db, t.event, t.owner, w.worker.sent.alertId, id), worker := Idle)
      else if w.worker.Cleared? then
        w.(db := FinishEvent(w.db, w.worker.ticket.event, w.worker.ticket.owner, Delivered), worker := Idle)
      else w
    case Backoff(now) =>
      if !w.worker.Failing? then w
      else w.(db := RetryEvent(w.db, w.worker.ticket.event, w.worker.ticket.owner, now), worker := Idle)
    case Crash => w.(worker := Idle)
  }

  function Play(w: World, moves: seq<Move>): World {
    if moves == [] then w else Act(Play(w, moves[..|moves| - 1]), moves[|moves| - 1])
  }

  lemma PlaySnoc(w: World, moves: seq<Move>, m: Move)
    ensures Play(w, moves + [m]) == Act(Play(w, moves), m)
  {
    assert (moves + [m])[..|moves + [m]| - 1] == moves;
  }

  lemma PlayOne(w: World, m: Move)
    ensures Play(w, [m]) == Act(w, m)
  {
    assert [m][..0] == [];
  }

  lemma {:induction false} PlayConcat(w: World, before: seq<Move>, after: seq<Move>)
    ensures Play(w, before + after) == Play(Play(w, before), after)
  {
    if after == [] {
      assert before + after == before;
    } else {
      var n := |after| - 1;
      PlayConcat(w, before, after[..n]);
      assert (before + after)[..|before + after| - 1] == before + after[..n];
    }
  }

  /** Transactions that anyone but the alarm worker may commit in any state. */
  predicate Plain(t: Txn) {
    t.NewSlot? || t.SucceedRound? || t.FailRound? || t.Create? || t.Close? || t.SaveOrder? || (t.Claim? && t.kind.WorkOrderCreate?)
  }

  function Others(ts: seq<Txn>): (r: seq<Move>)
    ensures |r| == |ts| && forall i :: 0 <= i < |ts| ==> r[i] == Other(ts[i])
  {
    seq(|ts|, i requires 0 <= i < |ts| => Other(ts[i]))
  }

  lemma {:induction false} OthersPlay(w: World, ts: seq<Txn>)
    requires forall i :: 0 <= i < |ts| ==> Plain(ts[i])
    ensures Play(w, Others(ts)) == w.(db := Run(w.db, ts))
  {
    if ts != [] {
      var n := |ts| - 1;
      OthersPlay(w, ts[..n]);
      assert Others(ts)[..n] == Others(ts[..n]);
    }
  }

  // ---------------------------------------------------------------- what the other transactions leave alone

  ghost predicate AlarmsRest(x: seq<Event>, y: seq<Event>) {
    && |x| <= |y|
    && (forall i :: 0 <= i < |x| && x[i].kind.AlarmSync? ==>
          y[i] == x[i] || (IsWaiting(x[i]) && y[i].kind.AlarmSync? && y[i].status.Superseded?))
    && (forall i :: 0 <= i < |x| && y[i].kind.AlarmSync? ==> x[i].kind.AlarmSync?)
    && (forall i :: |x| <= i < |y| ==> y[i].status.Pending?)
  }

  lemma SavedRest(a: Aggregate, t: Txn)
    requires t.SaveOrder?
    ensures AlarmsRest(a.outbox, Step(a, t).outbox)
  {
    var b := Step(a, t);
    if Enabled(a, t) {
      SaveRests(a, t, t.event);
      forall i | 0 <= i < |a.outbox|
        ensures b.outbox[i].kind == a.outbox[i].kind
        ensures a.outbox[i].kind.AlarmSync? ==>
                  b.outbox[i] == a.outbox[i] || (IsWaiting(a.outbox[i]) && b.outbox[i].status.Superseded?)
      {
        SaveRests(a, t, i);
      }
    }
  }

  lemma OthersRest(a: Aggregate, t: Txn)
    requires ByOthers(a, t)
    ensures AlarmsRest(a.outbox, Step(a, t).outbox)
  {
    var b := Step(a, t);
    if t.Claim? {
      var outbox := ExpireLeases(a.outbox, t.kind, t.now);
      forall i | 0 <= i < |a.outbox|
        ensures b.outbox[i].kind == a.outbox[i].kind && (a.outbox[i].kind.AlarmSync? ==> b.outbox[i] == a.outbox[i])
      {
        assert outbox[i] == ExpireEvent(a.outbox[i], t.kind, t.now);
      }
    } else if t.Retry? || t.GiveUp? {
    } else if t.SaveOrder? {
      SavedRest(a, t);
    } else {
      StepRests(a, t);
      forall i | 0 <= i < |a.outbox|
        ensures b.outbox[i].kind == a.outbox[i].kind
        ensures a.outbox[i].kind.AlarmSync? ==>
                  b.outbox[i] == a.outbox[i] || (IsWaiting(a.outbox[i]) && b.outbox[i].status.Superseded?)
      {
        assert EventRests(a.outbox[i], b.outbox[i]);
      }
    }
  }

  predicate SameIdentity(p: Projection, q: Projection) {
    p.alertId == q.alertId && p.deviceId == q.deviceId && p.alarmId == q.alarmId
  }

  /** The projection only changes together with its version, keeps its identity, and a new one belongs to a new alert. */
  ghost predicate ProjectionFrame(a: Aggregate, b: Aggregate) {
    && AlarmVersion(a) <= AlarmVersion(b)
    && (AlarmVersion(b) == AlarmVersion(a) ==> b.projection == a.projection)
    && (b.projection.Some? ==>
          || (a.projection.Some? && SameIdentity(b.projection.value, a.projection.value))
          || (b.projection.value.alertId >= |a.alerts| && b.projection.value.alarmId.None?))
  }

  lemma ReplaceFrames(a: Aggregate, b: Aggregate, id: Uuid, deviceId: Uuid, desired: bool, now: Time)
    requires b.risk.Some? && id < |b.alerts| && b.projection == a.projection && AlarmVersion(b) == AlarmVersion(a)
    requires HasProjection(a, id) || id >= |a.alerts|
    ensures ProjectionFrame(a, ReplaceProjection(b, id, deviceId, desired, now))
  {}

  /** The projection belongs to the alert the row names. */
  predicate OwnsProjection(a: Aggregate, row: RiskRow) {
    row.alertId.Some? && row.alertId.value < |a.alerts| ==> HasProjection(a, row.alertId.value)
  }

  lemma ApplyFrames(a: Aggregate, row: RiskRow, run: RunInfo, wasActive: bool, mapping: Option<Mapping>,
                    pilot: Option<Uuid>, now: Time)
    requires a.risk.Some? && OwnsProjection(a, row) && row.alarmVersion == a.risk.value.alarmVersion
    ensures var r := Apply(a.(risk := Some(row)), run, wasActive, mapping, pilot, now);
            r.Some? ==> ProjectionFrame(a, r.value)
  {
    var b, active := a.(risk := Some(row)), row.counters.active;
    if mapping.Some? && active && !wasActive {
      ReplaceFrames(a, OpenEpisode(b, run, pilot), |a.alerts|, mapping.value.deviceId, active, now);
    } else if mapping.Some? && wasActive && row.alertId.Some? && row.alertId.value < |a.alerts| {
      var id := row.alertId.value;
      ReplaceFrames(a, RefreshAlert(b, id, run, active), id, mapping.value.deviceId, active, now);
    }
  }

  lemma EnsuredRow(a: Aggregate)
    requires Inv(a)
    ensures var b := EnsureRow(a);
            && OwnsProjection(b, b.risk.value) && AlarmVersion(b) == AlarmVersion(a)
            && b.projection == a.projection && b.alerts == a.alerts
  {}

  lemma RoundFrames(a: Aggregate, run: RunInfo, mapping: Option<Mapping>, pilot: Option<Uuid>, now: Time)
    requires Inv(a) && run.runId in a.slots
    ensures ProjectionFrame(a, RoundSucceeded(a, run, mapping, pilot, now))
  {
    var b := EnsureRow(a);
    var row := b.risk.value;
    EnsuredRow(a);
    if IsNewest(b.slots, row, run.runId) {
      ApplyFrames(b, RecordRound(row, run.runId, run.risky), run, row.counters.active, mapping, pilot, now);
    }
  }

  lemma CreateFrames(a: Aggregate, call: ActionCall)
    ensures ProjectionFrame(a, CreateWorkOrder(a, call).after)
  {}

  lemma CloseFrames(a: Aggregate, call: ActionCall)
    ensures ProjectionFrame(a, CloseRisk(a, call).after)
  {}

  lemma SaveCreatedFrames(a: Aggregate, event: nat, owner: string, reply: CmmsReply, now: Time)
    ensures ProjectionFrame(a, SaveCreated(a, event, owner, reply, now))
  {}

  lemma PollFrames(a: Aggregate, id: Uuid, owner: string, reply: CmmsReply, now: Time)
    ensures ProjectionFrame(a, ApplyStatus(a, id, owner, reply, now))
  {}

  lemma RowsFrame(a: Aggregate, t: Txn)
    requires t.NewSlot? || t.FailRound? || t.Claim? || t.Retry? || t.GiveUp? || t.StartPoll? || t.AbandonPoll?
    ensures ProjectionFrame(a, Step(a, t))
  {}

  lemma ActionsFrame(a: Aggregate, t: Txn)
    requires t.Create? || t.Close?
    ensures ProjectionFrame(a, Step(a, t))
  {
    if t.Create? {
      CreateFrames(a, t.call);
    } else {
      CloseFrames(a, t.call);
    }
  }

  lemma CmmsFrames(a: Aggregate, t: Txn)
    requires Enabled(a, t) && (t.SaveOrder? || t.FinishPoll?)
    ensures ProjectionFrame(a, Step(a, t))
  {
    if t.SaveOrder? {
      SaveCreatedFrames(a, t.event, t.owner, t.reply, t.now);
    } else {
      PollFrames(a, t.id, t.owner, t.reply, t.now);
    }
  }

  lemma OthersFrame(a: Aggregate, t: Txn)
    requires Inv(a) && ByOthers(a, t)
    ensures ProjectionFrame(a, Step(a, t))
  {
    if !Enabled(a, t) {
    } else if t.SucceedRound? {
      RoundFrames(a, t.info, t.mapping, t.pilot, t.now);
    } else if t.Create? || t.Close? {
      ActionsFrame(a, t);
    } else if t.SaveOrder? || t.FinishPoll? {
      CmmsFrames(a, t);
    } else {
      RowsFrame(a, t);
    }
  }
}
