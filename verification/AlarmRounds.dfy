/** One undisturbed round of the alarm worker, and what it leaves behind under the given weather. */
module AlarmRounds {
  import opened Basics
  import opened ClosedLoop
  import opened ClosedLoopInvariant
  import opened ClosedLoopTheorems
  import opened ClosedLoopHistory
  import opened AlarmDelivery
  import opened AlarmConvergence

  /** Which of the calls of a round get through. */
  datatype Weather = Weather(reached: bool, effective: bool, answered: bool)

  /** What follows a claim; a move that does not fit what the worker knows by then changes nothing. */
  function RestOfRound(w: World, now: Time, weather: Weather): World {
    AfterRead(Act(Act(w, ReadProjection), Drop), now, weather)
  }

  function AfterRead(w: World, now: Time, weather: Weather): World {
    AfterLookUp(Act(w, LookUp(weather.reached)), now, weather)
  }

  function AfterLookUp(w: World, now: Time, weather: Weather): World {
    Act(Act(Act(w, Send(weather.effective, weather.answered)), Finish), Backoff(now))
  }

  /** `AlarmDeliveryWorker.run_once` on event `pick`. */
  function AlarmRound(w: World, pick: nat, owner: string, now: Time, weather: Weather): World {
    RestOfRound(Act(w, Take(pick, owner, now)), now, weather)
  }

  // ---------------------------------------------------------------- what a round leaves behind

  /** The alarm is the one the projection asks for, column by column. */
  predicate IsAlarmOf(alarm: TbAlarm, p: Projection) {
    alarm.active && alarm.deviceId == p.deviceId && alarm.details == p.details
  }

  /** Neither ThingsBoard nor the projection knows of an alarm to clear. */
  ghost predicate NothingToClear(alarms: seq<TbAlarm>, p: Projection) {
    && !p.desiredActive && p.alarmId.None?
    && forall i :: 0 <= i < |alarms| && alarms[i].details.alertId == p.alertId ==> !alarms[i].active
  }

  /** Only alarms of the projection's alert change, and at most one is added. */
  ghost predicate OnlyItsAlarm(before: seq<TbAlarm>, after: seq<TbAlarm>, alertId: Uuid) {
    && |before| <= |after| <= |before| + 1
    && (forall i :: 0 <= i < |before| && before[i].details.alertId != alertId ==> after[i] == before[i])
    && (|after| > |before| ==> after[|before|].details.alertId == alertId)
  }

  /** ThingsBoard holds what the projection asks for: its alarm, or no active alarm of the alert. */
  ghost predicate Holding(alarms: seq<TbAlarm>, p: Projection) {
    if p.desiredActive then exists i :: 0 <= i < |alarms| && IsAlarmOf(alarms[i], p)
    else forall i :: 0 <= i < |alarms| && alarms[i].details.alertId == p.alertId ==> !alarms[i].active
  }

  /** The event of a settled round: one more attempt, no lease, and the status the weather leads to. */
  ghost predicate EventSettled(before: Event, after: Event, owned: bool, through: bool, now: Time) {
    && after.kind == before.kind && after.alertId == before.alertId && after.version == before.version
    && after.attempt == before.attempt + 1 && after.owner.None? && after.expires.None?
    && (after.status.Superseded? <==> !owned)
    && (after.status.Delivered? <==> owned && through)
    && (after.status.DeadLetter? <==> owned && !through && before.attempt == 7)
    && (after.status.RetryWait? <==> owned && !through && before.attempt < 7)
    && (after.status.RetryWait? ==> after.availableAt == now + Pow2(before.attempt + 1))
  }

  /** The provider after a round that owned the projection `p`. */
  ghost predicate AlarmsSettled(before: seq<TbAlarm>, after: seq<TbAlarm>, p: Projection, weather: Weather) {
    && OnlyItsAlarm(before, after, p.alertId)
    && (!weather.reached || !weather.effective ==> after == before)
    && (weather.reached && weather.effective ==> Holding(after, p))
  }

  /** The projection stays; a delivered round of a desired alarm records the id under which ThingsBoard shows it. */
  ghost predicate ProjectionSettled(before: Projection, after: Projection, alarms: seq<TbAlarm>, delivered: bool) {
    && after == before.(alarmId := after.alarmId)
    && (!delivered || !before.desiredActive ==> after == before)
    && (delivered && before.desiredActive ==>
          after.alarmId.Some? && after.alarmId.value < |alarms| && IsAlarmOf(alarms[after.alarmId.value], after))
    && (delivered && !before.desiredActive ==> Holding(alarms, before))
  }

  /** The call got through: it was not needed, or it took effect and was answered. */
  ghost predicate Through(alarms: seq<TbAlarm>, p: Projection, weather: Weather) {
    weather.reached && (NothingToClear(alarms, p) || (weather.effective && weather.answered))
  }

  /** What a round that claimed `event` has done to the store and to ThingsBoard. */
  ghost predicate RoundSettled(w: World, v: World, event: nat, now: Time, weather: Weather)
    requires event < |w.db.outbox|
  {
    var e := w.db.outbox[event];
    var owned := w.db.projection.Some? && w.db.projection.value.alertId == e.alertId;
    && v.worker.Idle? && v.db == w.db.(projection := v.db.projection, outbox := v.db.outbox)
    && |v.db.outbox| == |w.db.outbox|
    && (forall i :: 0 <= i < |w.db.outbox| && i != event ==> v.db.outbox[i] == ExpireEvent(w.db.outbox[i], AlarmSync, now))
    && EventSettled(e, v.db.outbox[event], owned, owned && Through(w.alarms, w.db.projection.value, weather), now)
    && (!owned ==> v.db.projection == w.db.projection && v.alarms == w.alarms)
    && (owned ==>
          && v.db.projection.Some? && AlarmsSettled(w.alarms, v.alarms, w.db.projection.value, weather)
          && ProjectionSettled(w.db.projection.value, v.db.projection.value, v.alarms, v.db.outbox[event].status.Delivered?))
  }

  // ---------------------------------------------------------------- the stages of a round

  /** The claim: only the queue changes, stale claims expire, and the event has one more attempt. */
  ghost predicate ClaimShape(w: World, v: World, t: Ticket, now: Time)
    requires t.event < |w.db.outbox|
  {
    var e := w.db.outbox[t.event];
    && v.worker == Claimed(t) && v.alarms == w.alarms && v.db == w.db.(outbox := v.db.outbox)
    && |v.db.outbox| == |w.db.outbox|
    && (forall i :: 0 <= i < |w.db.outbox| && i != t.event ==> v.db.outbox[i] == ExpireEvent(w.db.outbox[i], AlarmSync, now))
    && (var f := v.db.outbox[t.event];
        f.kind == e.kind && f.alertId == e.alertId && f.version == e.version && f.attempt == e.attempt + 1 && e.attempt < 8)
  }

  lemma TakenShape(w: World, event: nat, owner: string, now: Time)
    requires w.worker.Idle? && CanTake(w.db, event, now)
    ensures ClaimShape(w, Act(w, Take(event, owner, now)), Ticket(event, owner), now)
  {
    assert ExpireLeases(w.db.outbox, AlarmSync, now)[event] == ExpireEvent(w.db.outbox[event], AlarmSync, now);
  }

  /** The claim ends: `event` takes its last status, and nothing changes beside it and the projection. */
  ghost predicate EndShape(w: World, v: World, event: nat)
    requires event < |w.db.outbox|
  {
    && v.worker.Idle? && v.db == w.db.(projection := v.db.projection, outbox := v.db.outbox)
    && |v.db.outbox| == |w.db.outbox|
    && (forall i :: 0 <= i < |w.db.outbox| && i != event ==> v.db.outbox[i] == w.db.outbox[i])
    && (var e, f := w.db.outbox[event], v.db.outbox[event];
        && f == e.(status := f.status, owner := None, expires := None, availableAt := f.availableAt))
  }

  lemma DiscardedEnds(w: World, now: Time, weather: Weather)
    requires w.worker.Claimed? && Holds(w.db, w.worker.ticket.event, w.worker.ticket.owner)
    requires !HasProjection(w.db, w.db.outbox[w.worker.ticket.event].alertId)
    ensures var v, event := RestOfRound(w, now, weather), w.worker.ticket.event;
            && EndShape(w, v, event) && v.alarms == w.alarms && v.db.projection == w.db.projection
            && v.db.outbox[event].status.Superseded?
  {}

  lemma FailureEnds(w: World, weather: Weather, now: Time)
    requires w.worker.Failing? && Holds(w.db, w.worker.ticket.event, w.worker.ticket.owner)
    requires 1 <= w.db.outbox[w.worker.ticket.event].attempt <= 8
    ensures var v, event := Act(Act(w, Finish), Backoff(now)), w.worker.ticket.event;
            && EndShape(w, v, event) && v.alarms == w.alarms && v.db.projection == w.db.projection
            && var e, f := w.db.outbox[event], v.db.outbox[event];
               if e.attempt == 8 then f.status.DeadLetter?
               else f.status.RetryWait? && f.availableAt == now + Pow2(e.attempt)
  {
    if w.db.outbox[w.worker.ticket.event].attempt < 8 {
      BackoffRange(w.db.outbox[w.worker.ticket.event].attempt);
    }
  }

  lemma WrittenEnds(w: World, now: Time)
    requires w.worker.Written? && w.db.projection == Some(w.worker.sent)
    requires Holds(w.db, w.worker.ticket.event, w.worker.ticket.owner)
    requires w.worker.sent.alarmId.None? || w.worker.sent.alarmId == Some(w.worker.alarmId)
    ensures var v, event := Act(Act(w, Finish), Backoff(now)), w.worker.ticket.event;
            && EndShape(w, v, event) && v.alarms == w.alarms && v.db.outbox[event].status.Delivered?
            && v.db.projection == Some(w.worker.sent.(alarmId := Some(w.worker.alarmId)))
  {}

  lemma ClearedEnds(w: World, now: Time)
    requires w.worker.Cleared? && Holds(w.db, w.worker.ticket.event, w.worker.ticket.owner)
    ensures var v, event := Act(Act(w, Finish), Backoff(now)), w.worker.ticket.event;
            && EndShape(w, v, event) && v.alarms == w.alarms && v.db.outbox[event].status.Delivered?
            && v.db.projection == w.db.projection
  {}

  /** The call to ThingsBoard: what becomes of its alarms, and whether the worker learns of it. */
  ghost predicate SentShape(w: World, v: World, weather: Weather)
    requires w.worker.Read?
  {
    var t, sent := w.worker.ticket, w.worker.sent;
    && v.db == w.db && AlarmsSettled(w.alarms, v.alarms, sent, weather)
    && if Through(w.alarms, sent, weather) then
         if sent.desiredActive then
           v.worker.Written? && v.worker.ticket == t && v.worker.sent == sent
           && v.worker.alarmId < |v.alarms| && IsAlarmOf(v.alarms[v.worker.alarmId], sent)
         else v.worker == Cleared(t, sent) && Holding(v.alarms, sent)
       else v.worker == Failing(t)
  }

  /** The alarm an upsert writes: the alert's own, or a new one when it has none. */
  ghost predicate WriteTarget(alarms: seq<TbAlarm>, sent: Projection, found: Option<Uuid>) {
    && sent.details.alertId == sent.alertId
    && (found.Some? ==> found.value < |alarms| && alarms[found.value].details.alertId == sent.alertId)
    && (found.None? ==> forall i :: 0 <= i < |alarms| ==> alarms[i].details.alertId != sent.alertId)
  }

  lemma WriteTargetIsExact(w: World)
    requires WorldInv(w) && w.worker.Read? && w.worker.sent.desiredActive
    ensures FindAlarm(w.alarms, w.worker.sent).Ok?
    ensures WriteTarget(w.alarms, w.worker.sent, FindAlarm(w.alarms, w.worker.sent).value)
  {
    LookUpIsExact(w);
    assert SentOk(w.db, w.db.outbox[w.worker.ticket.event], w.worker.sent);
  }

  lemma WrittenShape(alarms: seq<TbAlarm>, sent: Projection, found: Option<Uuid>, weather: Weather)
    requires WriteTarget(alarms, sent, found) && sent.desiredActive && weather.reached && weather.effective
    ensures var id := if found.Some? then found.value else |alarms|;
            && id <= |alarms| && AlarmsSettled(alarms, Upserted(alarms, sent, id), sent, weather)
            && IsAlarmOf(Upserted(alarms, sent, id)[id], sent)
  {
    var id := if found.Some? then found.value else |alarms|;
    assert IsAlarmOf(Upserted(alarms, sent, id)[id], sent);
  }

  lemma UpsertShape(w: World, weather: Weather)
    requires w.worker.Read? && w.worker.sent.desiredActive && weather.reached
    requires FindAlarm(w.alarms, w.worker.sent).Ok?
    requires WriteTarget(w.alarms, w.worker.sent, FindAlarm(w.alarms, w.worker.sent).value)
    ensures SentShape(w, Act(Act(w, LookUp(weather.reached)), Send(weather.effective, weather.answered)), weather)
  {
    if weather.effective {
      WrittenShape(w.alarms, w.worker.sent, FindAlarm(w.alarms, w.worker.sent).value, weather);
    }
  }

  /** The alarm a clear has to reach, if there is one. */
  ghost predicate ClearTarget(alarms: seq<TbAlarm>, sent: Projection, target: Option<Uuid>) {
    && (target.None? <==> NothingToClear(alarms, sent))
    && (target.Some? ==> target.value < |alarms| && alarms[target.value].details.alertId == sent.alertId)
  }

  lemma ClearTargetIsExact(w: World)
    requires WorldInv(w) && w.worker.Read? && !w.worker.sent.desiredActive
    ensures FindAlarm(w.alarms, w.worker.sent).Ok? && OneAlarmPerAlert(w.alarms)
    ensures var found := FindAlarm(w.alarms, w.worker.sent).value;
            ClearTarget(w.alarms, w.worker.sent, if found.Some? then found else w.worker.sent.alarmId)
  {
    LookUpIsExact(w);
    var found := FindAlarm(w.alarms, w.worker.sent).value;
    if found.Some? {
      assert Matches(w.alarms[found.value], w.worker.sent);
    }
  }

  lemma DeactivatedShape(alarms: seq<TbAlarm>, sent: Projection, id: nat, weather: Weather)
    requires OneAlarmPerAlert(alarms) && !sent.desiredActive && weather.reached && weather.effective
    requires id < |alarms| && alarms[id].details.alertId == sent.alertId
    ensures AlarmsSettled(alarms, Deactivated(alarms, id), sent, weather)
  {
    var after := Deactivated(alarms, id);
    forall i | 0 <= i < |after| && after[i].details.alertId == sent.alertId ensures !after[i].active {
      assert alarms[i].details.alertId == alarms[id].details.alertId;
    }
  }

  lemma ClearShape(w: World, weather: Weather)
    requires w.worker.Read? && !w.worker.sent.desiredActive && weather.reached
    requires FindAlarm(w.alarms, w.worker.sent).Ok? && OneAlarmPerAlert(w.alarms)
    requires var found := FindAlarm(w.alarms, w.worker.sent).value;
             ClearTarget(w.alarms, w.worker.sent, if found.Some? then found else w.worker.sent.alarmId)
    ensures SentShape(w, Act(Act(w, LookUp(weather.reached)), Send(weather.effective, weather.answered)), weather)
  {
    var found := FindAlarm(w.alarms, w.worker.sent).value;
    var target := if found.Some? then found else w.worker.sent.alarmId;
    if target.Some? && weather.effective {
      DeactivatedShape(w.alarms, w.worker.sent, target.value, weather);
    }
  }

  lemma SendShape(w: World, weather: Weather)
    requires WorldInv(w) && w.worker.Read?
    ensures SentShape(w, Act(Act(w, LookUp(weather.reached)), Send(weather.effective, weather.answered)), weather)
  {
    if !weather.reached {
      UnreachedShape(w, weather);
    } else if w.worker.sent.desiredActive {
      WriteTargetIsExact(w);
      UpsertShape(w, weather);
    } else {
      ClearTargetIsExact(w);
      ClearShape(w, weather);
    }
  }

  lemma UnreachedShape(w: World, weather: Weather)
    requires w.worker.Read? && !weather.reached
    ensures SentShape(w, Act(Act(w, LookUp(weather.reached)), Send(weather.effective, weather.answered)), weather)
  {}

  /** What is left of a round once the projection is read. */
  ghost predicate ReadSettled(w: World, v: World, now: Time, weather: Weather)
    requires w.worker.Read? && w.worker.ticket.event < |w.db.outbox|
  {
    var event, sent := w.worker.ticket.event, w.worker.sent;
    var through := Through(w.alarms, sent, weather);
    && EndShape(w, v, event) && AlarmsSettled(w.alarms, v.alarms, sent, weather)
    && v.db.projection.Some? && ProjectionSettled(sent, v.db.projection.value, v.alarms, through)
    && (var e, f := w.db.outbox[event], v.db.outbox[event];
        if through then f.status.Delivered?
        else if e.attempt == 8 then f.status.DeadLetter?
        else f.status.RetryWait? && f.availableAt == now + Pow2(e.attempt))
  }

  lemma SentSettles(w: World, v: World, now: Time, weather: Weather)
    requires w.worker.Read? && SentShape(w, v, weather) && WorldInv(v) && w.db.projection == Some(w.worker.sent)
    requires Holds(w.db, w.worker.ticket.event, w.worker.ticket.owner)
    requires 1 <= w.db.outbox[w.worker.ticket.event].attempt <= 8
    ensures ReadSettled(w, Act(Act(v, Finish), Backoff(now)), now, weather)
  {
    if v.worker.Failing? {
      FailureEnds(v, weather, now);
    } else if v.worker.Written? {
      NoIdentityConflict(v);
      WrittenEnds(v, now);
    } else {
      ClearedEnds(v, now);
    }
  }

  lemma ReadSettles(w: World, now: Time, weather: Weather)
    requires WorldInv(w) && w.worker.Read? && w.db.projection == Some(w.worker.sent)
    requires w.db.outbox[w.worker.ticket.event].attempt >= 1
    ensures ReadSettled(w, AfterRead(w, now, weather), now, weather)
  {
    var u := Act(w, LookUp(weather.reached));
    assert LeaseOk(w.db.outbox[w.worker.ticket.event]);
    ActKeepsWorld(w, LookUp(weather.reached));
    ActKeepsWorld(u, Send(weather.effective, weather.answered));
    SendShape(w, weather);
    SentSettles(w, Act(u, Send(weather.effective, weather.answered)), now, weather);
  }

  lemma OwnedIsRead(w: World)
    requires w.worker.Claimed? && Holds(w.db, w.worker.ticket.event, w.worker.ticket.owner)
    requires HasProjection(w.db, w.db.outbox[w.worker.ticket.event].alertId)
    ensures Act(Act(w, ReadProjection), Drop) == w.(worker := Read(w.worker.ticket, w.db.projection.value))
  {}

  lemma OwnedSettles(w: World, u: World, v: World, t: Ticket, now: Time, weather: Weather)
    requires t.event < |w.db.outbox| && ClaimShape(w, u, t, now)
    requires HasProjection(w.db, w.db.outbox[t.event].alertId)
    requires ReadSettled(u.(worker := Read(t, w.db.projection.value)), v, now, weather)
    ensures RoundSettled(w, v, t.event, now, weather)
  {}

  lemma DiscardedSettles(w: World, u: World, v: World, t: Ticket, now: Time, weather: Weather)
    requires t.event < |w.db.outbox| && ClaimShape(w, u, t, now)
    requires !HasProjection(w.db, w.db.outbox[t.event].alertId)
    requires EndShape(u, v, t.event) && v.alarms == u.alarms && v.db.projection == u.db.projection
    requires v.db.outbox[t.event].status.Superseded?
    ensures RoundSettled(w, v, t.event, now, weather)
  {}

  lemma RoundKeepsWorld(w: World, pick: nat, owner: string, now: Time, weather: Weather)
    requires WorldInv(w)
    ensures WorldInv(AlarmRound(w, pick, owner, now, weather))
  {
    var a := Act(w, Take(pick, owner, now));
    ActKeepsWorld(w, Take(pick, owner, now));
    var b := Act(a, ReadProjection);
    ActKeepsWorld(a, ReadProjection);
    var c := Act(b, Drop);
    ActKeepsWorld(b, Drop);
    var d := Act(c, LookUp(weather.reached));
    ActKeepsWorld(c, LookUp(weather.reached));
    var e := Act(d, Send(weather.effective, weather.answered));
    ActKeepsWorld(d, Send(weather.effective, weather.answered));
    ActKeepsWorld(e, Finish);
    ActKeepsWorld(Act(e, Finish), Backoff(now));
  }

  /**
    A round on a claimable event ends it: superseded exactly when its alert does not own the projection, delivered
    exactly when the call got through, and otherwise it waits or, after eight attempts, is given up. A delivered event
    means that ThingsBoard shows the projection; a lost answer means it holds what was sent all the same.
   */
  lemma RoundSettles(w: World, event: nat, owner: string, now: Time, weather: Weather)
    requires WorldInv(w) && w.worker.Idle? && CanTake(w.db, event, now)
    ensures WorldInv(AlarmRound(w, event, owner, now, weather))
    ensures RoundSettled(w, AlarmRound(w, event, owner, now, weather), event, now, weather)
  {
    var t := Ticket(event, owner);
    var u := Act(w, Take(event, owner, now));
    RoundKeepsWorld(w, event, owner, now, weather);
    TakenShape(w, event, owner, now);
    ActKeepsWorld(w, Take(event, owner, now));
    var v := AlarmRound(w, event, owner, now, weather);
    if HasProjection(w.db, w.db.outbox[event].alertId) {
      OwnedIsRead(u);
      ActKeepsWorld(u, ReadProjection);
      ActKeepsWorld(Act(u, ReadProjection), Drop);
      ReadSettles(Act(Act(u, ReadProjection), Drop), now, weather);
      OwnedSettles(w, u, v, t, now, weather);
    } else {
      DiscardedEnds(u, now, weather);
      DiscardedSettles(w, u, v, t, now, weather);
    }
  }
}
