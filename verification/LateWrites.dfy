/**
  Alarm writes that land late: a call whose answer was lost may still be under way when the worker goes on. What it
  writes is then decided by the look-up before it, and lands on whatever ThingsBoard holds by then.
 */
module LateWrites {
  import opened Basics
  import opened RiskStates
  import opened ClosedLoop
  import opened ClosedLoopTheorems
  import opened AlarmDelivery
  import opened AlarmConvergence
  import opened ClosedLoopExamples

  /** A write under way, as it was sent. */
  datatype Orphan = Orphan(ticket: Ticket, sent: Projection, existing: Option<Uuid>)

  datatype LateWorld = LateWorld(w: World, orphans: seq<Orphan>)

  datatype LateMove =
    | Now(m: Move)
    | Strand
    | Land(i: nat)
    | Vanish(i: nat)

  /** The alarms once the write has landed. */
  function Landed(alarms: seq<TbAlarm>, o: Orphan): seq<TbAlarm> {
    if o.sent.desiredActive then
      var id := if o.existing.Some? then o.existing.value else |alarms|;
      if id > |alarms| then alarms
      else if id == |alarms| then alarms + [ActiveAlarm(o.sent)] else alarms[id := ActiveAlarm(o.sent)]
    else
      var target := if o.existing.Some? then o.existing else o.sent.alarmId;
      if target.None? || target.value >= |alarms| then alarms
      else alarms[target.value := alarms[target.value].(active := false)]
  }

  function Without(orphans: seq<Orphan>, i: nat): seq<Orphan>
    requires i < |orphans|
  {
    orphans[..i] + orphans[i + 1..]
  }

  function LateAct(l: LateWorld, m: LateMove): LateWorld {
    match m
    case Now(m) => l.(w := Act(l.w, m))
    case Strand =>
      if !l.w.worker.Found? then l
      else
        var f := l.w.worker;
        LateWorld(l.w.(worker := Failing(f.ticket)), l.orphans + [Orphan(f.ticket, f.sent, f.existing)])
    case Land(i) =>
      if i >= |l.orphans| then l
      else LateWorld(l.w.(alarms := Landed(l.w.alarms, l.orphans[i])), Without(l.orphans, i))
    case Vanish(i) => if i >= |l.orphans| then l else l.(orphans := Without(l.orphans, i))
  }

  function LatePlay(l: LateWorld, moves: seq<LateMove>): LateWorld {
    if moves == [] then l else LateAct(LatePlay(l, moves[..|moves| - 1]), moves[|moves| - 1])
  }

  function LateStart(key: Key): LateWorld { LateWorld(Start(key), []) }

  // ---------------------------------------------------------------- patient workers

  /** The worker claims nothing while a write of its own may still land. */
  predicate IsPatient(l: LateWorld, m: LateMove) { m.Now? && m.m.Take? ==> l.orphans == [] }

  ghost predicate AllPatient(l: LateWorld, moves: seq<LateMove>) {
    moves == [] ||
    (AllPatient(l, moves[..|moves| - 1]) && IsPatient(LatePlay(l, moves[..|moves| - 1]), moves[|moves| - 1]))
  }

  /** Whether or not the one write under way has landed, the world is one that immediate writes could have led to. */
  ghost predicate LateInv(l: LateWorld) {
    && WorldInv(l.w) && |l.orphans| <= 1
    && (l.orphans != [] ==>
          (l.w.worker.Idle? || l.w.worker.Failing?) && WorldInv(l.w.(alarms := Landed(l.w.alarms, l.orphans[0]))))
  }

  lemma StrandIsSend(w: World)
    requires w.worker.Found?
    requires w.worker.sent.desiredActive && w.worker.existing.Some? ==> w.worker.existing.value < |w.alarms|
    ensures var f := w.worker;
            var o := Orphan(f.ticket, f.sent, f.existing);
            SendTo(w, true, false).alarms == Landed(w.alarms, o)
            && (SendTo(w, true, false).worker.Failing? || Landed(w.alarms, o) == w.alarms)
            && SendTo(w, true, false).db == w.db
  {}

  lemma StrandKeepsLate(l: LateWorld)
    requires LateInv(l)
    ensures LateInv(LateAct(l, Strand))
  {
    if l.w.worker.Found? {
      var f, w := l.w.worker, l.w;
      var o, failing := Orphan(f.ticket, f.sent, f.existing), w.(worker := Failing(f.ticket));
      WorkerMoves(w, Failing(f.ticket));
      LookUpIsExact(w);
      StrandIsSend(w);
      SendKeepsWorld(w, true, false);
      SendActs(w, true, false);
      var sent := SendTo(w, true, false);
      if sent.worker.Failing? {
        assert failing.(alarms := Landed(w.alarms, o)) == sent;
      } else {
        assert failing.(alarms := Landed(w.alarms, o)) == failing;
      }
      assert (l.orphans + [o])[0] == o;
    }
  }

  /** A worker without a claim to work on neither reads nor writes alarms. */
  lemma RestingAct(w: World, m: Move, alarms: seq<TbAlarm>)
    requires (w.worker.Idle? || w.worker.Failing?) && !m.Take?
    ensures Act(w, m).alarms == w.alarms && (Act(w, m).worker.Idle? || Act(w, m).worker.Failing?)
    ensures Act(w.(alarms := alarms), m) == Act(w, m).(alarms := alarms)
  {}

  lemma NowKeepsLate(l: LateWorld, m: Move)
    requires LateInv(l) && IsPatient(l, Now(m))
    ensures LateInv(LateAct(l, Now(m)))
  {
    ActKeepsWorld(l.w, m);
    if l.orphans != [] {
      var alarms := Landed(l.w.alarms, l.orphans[0]);
      RestingAct(l.w, m, alarms);
      ActKeepsWorld(l.w.(alarms := alarms), m);
    }
  }

  lemma LateActKeepsLate(l: LateWorld, m: LateMove)
    requires LateInv(l) && IsPatient(l, m)
    ensures LateInv(LateAct(l, m))
  {
    match m
    case Now(m) => NowKeepsLate(l, m);
    case Strand => StrandKeepsLate(l);
    case Land(i) =>
    case Vanish(i) =>
  }

  lemma {:induction false} LatePlayKeepsLate(l: LateWorld, moves: seq<LateMove>)
    requires LateInv(l) && AllPatient(l, moves)
    ensures LateInv(LatePlay(l, moves))
  {
    if moves != [] {
      LatePlayKeepsLate(l, moves[..|moves| - 1]);
      LateActKeepsLate(LatePlay(l, moves[..|moves| - 1]), moves[|moves| - 1]);
    }
  }

  /** Each alert has at most one alarm, and a delivered current event means that ThingsBoard shows the projection. */
  ghost predicate Converged(db: Aggregate, alarms: seq<TbAlarm>) {
    && OneAlarmPerAlert(alarms)
    && forall event: nat :: DeliveredAt(db, event) ==> db.projection.Some? && Shows(alarms, db.projection.value)
  }

  lemma WorldConverges(w: World)
    requires WorldInv(w)
    ensures Converged(w.db, w.alarms)
  {
    assert Synced(w.db, w.alarms, w.worker);
  }

  /**
    With a patient worker late writes do no harm: at every moment ThingsBoard has converged, and it stays so when the
    write under way lands.
   */
  lemma PatientConverges(key: Key, moves: seq<LateMove>)
    requires AllPatient(LateStart(key), moves)
    ensures var l := LatePlay(LateStart(key), moves);
            && Converged(l.w.db, l.w.alarms)
            && (l.orphans != [] ==> Converged(l.w.db, Landed(l.w.alarms, l.orphans[0])))
  {
    var l := LatePlay(LateStart(key), moves);
    StartInv(key);
    LatePlayKeepsLate(LateStart(key), moves);
    WorldConverges(l.w);
    if l.orphans != [] {
      WorldConverges(l.w.(alarms := Landed(l.w.alarms, l.orphans[0])));
    }
  }

  // ---------------------------------------------------------------- impatient workers

  function Nows(moves: seq<Move>): (r: seq<LateMove>)
    ensures |r| == |moves| && forall i :: 0 <= i < |r| ==> r[i] == Now(moves[i])
  {
    seq(|moves|, i requires 0 <= i < |moves| => Now(moves[i]))
  }

  lemma {:induction false} NowsPlay(l: LateWorld, moves: seq<Move>)
    ensures LatePlay(l, Nows(moves)) == l.(w := Play(l.w, moves))
  {
    if moves != [] {
      var n := |moves| - 1;
      NowsPlay(l, moves[..n]);
      assert Nows(moves)[..n] == Nows(moves[..n]);
    }
  }

  lemma LateOne(l: LateWorld, m: LateMove)
    ensures LatePlay(l, [m]) == LateAct(l, m)
  {
    assert [m][..0] == [];
  }

  lemma {:induction false} LateConcat(l: LateWorld, before: seq<LateMove>, after: seq<LateMove>)
    ensures LatePlay(l, before + after) == LatePlay(LatePlay(l, before), after)
  {
    if after == [] {
      assert before + after == before;
    } else {
      var n := |after| - 1;
      LateConcat(l, before, after[..n]);
      assert (before + after)[..|before + after| - 1] == before + after[..n];
    }
  }

  /** Some moves, a send whose answer is lost, further moves, and the landing of what was sent. */
  function Overtaken(before: seq<Move>, after: seq<Move>): seq<LateMove> {
    Nows(before) + [Strand] + Nows(after) + [Land(0)]
  }

  lemma OvertakenPlay(w: World, before: seq<Move>, after: seq<Move>)
    requires Play(w, before).worker.Found?
    ensures var v := Play(w, before);
            var o := Orphan(v.worker.ticket, v.worker.sent, v.worker.existing);
            var u := Play(v.(worker := Failing(v.worker.ticket)), after);
            LatePlay(LateWorld(w, []), Overtaken(before, after)) == LateWorld(u.(alarms := Landed(u.alarms, o)), [])
  {
    var l, v := LateWorld(w, []), Play(w, before);
    var o := Orphan(v.worker.ticket, v.worker.sent, v.worker.existing);
    var failing := v.(worker := Failing(v.worker.ticket));
    NowsPlay(l, before);
    LateOne(LateWorld(v, []), Strand);
    LateConcat(l, Nows(before), [Strand]);
    assert [] + [o] == [o];
    NowsPlay(LateWorld(failing, [o]), after);
    LateConcat(l, Nows(before) + [Strand], Nows(after));
    LateOne(LateWorld(Play(failing, after), [o]), Land(0));
    LateConcat(l, Nows(before) + [Strand] + Nows(after), [Land(0)]);
    assert Without([o], 0) == [];
  }

  /** The claim, the read and the look-up of a round. */
  function Ask(event: nat, owner: string, now: Time): seq<Move> { [Take(event, owner, now), ReadProjection] + [LookUp(true)] }

  lemma AskPlay(w: World, event: nat, owner: string, now: Time)
    ensures Play(w, Ask(event, owner, now)) == Act(Act(Act(w, Take(event, owner, now)), ReadProjection), LookUp(true))
  {
    PlayTwo(w, Take(event, owner, now), ReadProjection);
    PlaySnoc(w, [Take(event, owner, now), ReadProjection], LookUp(true));
  }

  // ---------------------------------------------------------------- two alarms for one alert

  const HELD := RISEN.(outbox := [ClaimEvent(NewEvent(AlarmSync, 0, 1, 1900), "w", 1900)])
  const WAITING := RISEN.(outbox := [Event(AlarmSync, 0, 1, RetryWait, 1, None, None, 1903)])
  const RETRIED := SHOWN.(outbox := [Event(AlarmSync, 0, 1, Delivered, 2, None, None, 1903)])

  lemma FirstIsAsked()
    ensures Play(World(RISEN, [], Idle), Ask(0, "w", 1900)) ==
              World(HELD, [], Found(Ticket(0, "w"), RISEN.projection.value, None))
  {
    AskPlay(World(RISEN, [], Idle), 0, "w", 1900);
    assert ExpireLeases(RISEN.outbox, AlarmSync, 1900)[0] == RISEN.outbox[0];
    assert Act(World(RISEN, [], Idle), Take(0, "w", 1900)).db.outbox == HELD.outbox;
  }

  lemma FirstIsRetried()
    ensures Play(World(HELD, [], Failing(Ticket(0, "w"))), [Backoff(1901)]) == World(WAITING, [], Idle)
  {
    PlayOne(World(HELD, [], Failing(Ticket(0, "w"))), Backoff(1901));
    assert Pow2(1) == 2;
    assert Act(World(HELD, [], Failing(Ticket(0, "w"))), Backoff(1901)).db.outbox == WAITING.outbox;
  }

  lemma RetryRaises()
    ensures Play(World(WAITING, [], Idle), Deliver(0, "x", 1910)) == World(RETRIED, [ALARM], Idle)
  {
    var w := World(WAITING, [], Idle);
    DeliverPlay(w, 0, "x", 1910);
    assert ExpireLeases(WAITING.outbox, AlarmSync, 1910)[0] == WAITING.outbox[0];
    var w1 := Act(w, Take(0, "x", 1910));
    assert w1.db.outbox == [ClaimEvent(WAITING.outbox[0], "x", 1910)] && w1.worker == Claimed(Ticket(0, "x"));
    var w3 := Act(Act(w1, ReadProjection), LookUp(true));
    assert w3.worker == Found(Ticket(0, "x"), RISEN.projection.value, None);
    var w4 := Act(w3, Send(true, true));
    assert w4.alarms == [ALARM] && w4.worker == Written(Ticket(0, "x"), RISEN.projection.value, 0);
    assert Act(w4, Finish).db.outbox == RETRIED.outbox;
  }

  /** The first write is stranded, the retry finds no alarm and creates one, and then the first one lands as well. */
  const DOUBLING: seq<LateMove> :=
    Overtaken(Others(RISE) + Ask(0, "w", 1900), [Backoff(1901)] + Deliver(0, "x", 1910))

  /**
    An impatient worker can leave two alarms for one alert, within the lease of the first claim, and every later look-up
    is then rejected as ambiguous.
   */
  lemma LateWriteDoubles()
    ensures var l := LatePlay(LateStart(KEY), DOUBLING);
            && l.orphans == [] && l.w.alarms == [ALARM, ALARM] && !OneAlarmPerAlert(l.w.alarms)
            && l.w.db.projection.Some? && FindAlarm(l.w.alarms, l.w.db.projection.value).Err?
  {
    var before, after := Others(RISE) + Ask(0, "w", 1900), [Backoff(1901)] + Deliver(0, "x", 1910);
    OthersPlay(Start(KEY), RISE);
    RiskArises();
    FirstIsAsked();
    PlayConcat(Start(KEY), Others(RISE), Ask(0, "w", 1900));
    FirstIsRetried();
    RetryRaises();
    PlayConcat(World(HELD, [], Failing(Ticket(0, "w"))), [Backoff(1901)], Deliver(0, "x", 1910));
    OvertakenPlay(Start(KEY), before, after);
    var alarms := [ALARM, ALARM];
    assert alarms[0].details.alertId == alarms[1].details.alertId;
    TwoAreFound(RETRIED.projection.value);
  }

  lemma TwoAreFound(sent: Projection)
    requires Matches(ALARM, sent)
    ensures FindAlarm([ALARM, ALARM], sent).Err?
  {
    assert MatchesAmong([ALARM, ALARM], 0, sent) == [];
    assert MatchesAmong([ALARM, ALARM], 1, sent) == [0];
    assert MatchesAmong([ALARM, ALARM], 2, sent) == [0, 1];
  }

  // ---------------------------------------------------------------- an alarm that comes back

  const WORSE := ALERT.(runId := 3, version := 2)
  const SECOND: Event := NewEvent(AlarmSync, 0, 2, 2800)

  const AGAIN :=
    SHOWN.(slots := SLOTS[3 := 2700], risk := Some(RiskRow(Counters(3, 0, true), Some(3), Some(0), 2, 3)), alerts := [WORSE],
           projection := Some(Pictured(WORSE, map[], Some(0), true, 2)), outbox := [SENT, SECOND])

  lemma RiskGoesOn()
    ensures Run(SHOWN, [NewSlot(3, 2700), Succeed(3, true, 2800)]) == AGAIN
  {
    var a := Step(SHOWN, NewSlot(3, 2700));
    RunTwo(SHOWN, NewSlot(3, 2700), Succeed(3, true, 2800));
    assert a.alerts[0 := WORSE] == [WORSE] && SupersedeWaiting(a.outbox, {0}) == [SENT];
  }

  const HELD2 := AGAIN.(outbox := [SENT, ClaimEvent(SECOND, "x", 2800)])
  const WAITING2 := AGAIN.(outbox := [SENT, Event(AlarmSync, 0, 2, RetryWait, 1, None, None, 2803)])

  lemma SecondIsAsked()
    ensures Play(World(AGAIN, [ALARM], Idle), Ask(1, "x", 2800)) ==
              World(HELD2, [ALARM], Found(Ticket(1, "x"), AGAIN.projection.value, Some(0)))
  {
    var sent := AGAIN.projection.value;
    AskPlay(World(AGAIN, [ALARM], Idle), 1, "x", 2800);
    assert ExpireLeases(AGAIN.outbox, AlarmSync, 2800) == AGAIN.outbox;
    assert AGAIN.outbox[1 := ClaimEvent(SECOND, "x", 2800)] == HELD2.outbox;
    OneIsFound(sent);
  }

  lemma OneIsFound(sent: Projection)
    requires Matches(ALARM, sent)
    ensures FindAlarm([ALARM], sent) == Ok(Some(0))
  {
    assert MatchesAmong([ALARM], 0, sent) == [] && MatchesAmong([ALARM], 1, sent) == [0];
  }

  lemma SecondIsRetried()
    ensures Play(World(HELD2, [ALARM], Failing(Ticket(1, "x"))), [Backoff(2801)]) == World(WAITING2, [ALARM], Idle)
  {
    PlayOne(World(HELD2, [ALARM], Failing(Ticket(1, "x"))), Backoff(2801));
    assert Pow2(1) == 2;
    assert HELD2.outbox[1 := WAITING2.outbox[1]] == WAITING2.outbox;
  }

  /** The operator closes the risk at alert version 2. */
  const CLOSING :=
    ActionCall(Authorized(0, 21, 31, AlarmView(0, 5, true)), ActionKey(0, CloseAction), "digest", 2, OtherText(""),
               "repaired", None, None, 52, 2805)

  const ENDED := WORSE.(phase := RiskManuallyClosed, actionAllowed := false, version := 3)
  const OVERTAKEN: Event := Event(AlarmSync, 0, 2, Superseded, 1, None, None, 2803)
  const THIRD: Event := NewEvent(AlarmSync, 0, 3, 2805)

  const CLOSED :=
    AGAIN.(risk := Some(RiskRow(Counters(0, 0, false), Some(3), Some(0), 3, 4)), alerts := [ENDED],
           projection := Some(Pictured(ENDED, map[], Some(0), false, 3)),
           actions := map[ActionKey(0, CloseAction) := ActionOf(CLOSING, WORSE)], outbox := [SENT, OVERTAKEN, THIRD])

  lemma RiskIsClosed()
    ensures Run(WAITING2, [Close(CLOSING)]) == CLOSED
  {
    RunOne(WAITING2, Close(CLOSING));
    assert !IsSpace(CLOSING.reason[0]) && ReasonGiven(CLOSING.reason);
    assert WAITING2.alerts[0 := ENDED] == [ENDED];
    assert SupersedeWaiting(WAITING2.outbox, {0}) == [SENT, OVERTAKEN];
  }

  const TAKEN3 := CLOSED.(outbox := [SENT, OVERTAKEN, ClaimEvent(THIRD, "y", 2810)])
  const SETTLED := CLOSED.(outbox := [SENT, OVERTAKEN, Event(AlarmSync, 0, 3, Delivered, 1, None, None, 2805)])

  lemma ThirdIsRead()
    ensures Act(Act(World(CLOSED, [ALARM], Idle), Take(2, "y", 2810)), ReadProjection) ==
              World(TAKEN3, [ALARM], Read(Ticket(2, "y"), CLOSED.projection.value))
  {
    assert ExpireLeases(CLOSED.outbox, AlarmSync, 2810) == CLOSED.outbox;
    assert CLOSED.outbox[2 := ClaimEvent(THIRD, "y", 2810)] == TAKEN3.outbox;
  }

  lemma ThirdIsCleared()
    ensures Play(World(CLOSED, [ALARM], Idle), Deliver(2, "y", 2810)) == World(SETTLED, [ALARM.(active := false)], Idle)
  {
    DeliverPlay(World(CLOSED, [ALARM], Idle), 2, "y", 2810);
    ThirdIsRead();
    OneIsFound(CLOSED.projection.value);
    assert TAKEN3.outbox[2 := SETTLED.outbox[2]] == SETTLED.outbox;
  }

  const RISKY_AGAIN: seq<Move> := RAISING + Others([NewSlot(3, 2700), Succeed(3, true, 2800)]) + Ask(1, "x", 2800)
  const CLOSED_MEANWHILE: seq<Move> := [Backoff(2801)] + Others([Close(CLOSING)]) + Deliver(2, "y", 2810)

  lemma RiskyAgainEnds()
    ensures Play(Start(KEY), RISKY_AGAIN) == World(HELD2, [ALARM], Found(Ticket(1, "x"), AGAIN.projection.value, Some(0)))
  {
    var more := Others([NewSlot(3, 2700), Succeed(3, true, 2800)]);
    RaisingEnds();
    OthersPlay(World(SHOWN, [ALARM], Idle), [NewSlot(3, 2700), Succeed(3, true, 2800)]);
    RiskGoesOn();
    PlayConcat(Start(KEY), RAISING, more);
    SecondIsAsked();
    PlayConcat(Start(KEY), RAISING + more, Ask(1, "x", 2800));
  }

  lemma ClosedMeanwhileEnds(w: World)
    requires w == World(HELD2, [ALARM], Failing(Ticket(1, "x")))
    ensures Play(w, CLOSED_MEANWHILE) == World(SETTLED, [ALARM.(active := false)], Idle)
  {
    SecondIsRetried();
    OthersPlay(World(WAITING2, [ALARM], Idle), [Close(CLOSING)]);
    RiskIsClosed();
    PlayConcat(w, [Backoff(2801)], Others([Close(CLOSING)]));
    ThirdIsCleared();
    PlayConcat(w, [Backoff(2801)] + Others([Close(CLOSING)]), Deliver(2, "y", 2810));
  }

  /**
    And it can leave an active alarm for a closed risk: the alarm is cleared and its event delivered, and then an upsert
    from before, still within its lease, raises it again.
   */
  lemma LateWriteReturns()
    ensures var l := LatePlay(LateStart(KEY), Overtaken(RISKY_AGAIN, CLOSED_MEANWHILE));
            && l.orphans == [] && DeliveredAt(l.w.db, 2)
            && l.w.db.projection.Some? && !l.w.db.projection.value.desiredActive
            && l.w.alarms == [ActiveAlarm(AGAIN.projection.value)] && !Shows(l.w.alarms, l.w.db.projection.value)
  {
    RiskyAgainEnds();
    var w := World(HELD2, [ALARM], Failing(Ticket(1, "x")));
    ClosedMeanwhileEnds(w);
    OvertakenPlay(Start(KEY), RISKY_AGAIN, CLOSED_MEANWHILE);
    assert DeliveredAt(SETTLED, 2);
    var alarms := [ActiveAlarm(AGAIN.projection.value)];
    assert alarms[0].details.alertId == 0 && alarms[0].active;
  }

  // ---------------------------------------------------------------- patience is what it takes

  ghost predicate Allowed(patient: bool, l: LateWorld, moves: seq<LateMove>) { patient ==> AllPatient(l, moves) }

  ghost predicate ConvergesIn(key: Key, moves: seq<LateMove>) {
    var l := LatePlay(LateStart(key), moves); Converged(l.w.db, l.w.alarms)
  }

  /** Late writes leave ThingsBoard converged in every play exactly under the rule that the worker is patient. */
  lemma PatienceIsNeeded(patient: bool)
    ensures (forall key, moves :: Allowed(patient, LateStart(key), moves) ==> ConvergesIn(key, moves)) <==> patient
  {
    if patient {
      forall key, moves | Allowed(patient, LateStart(key), moves) ensures ConvergesIn(key, moves) {
        PatientConverges(key, moves);
      }
    } else {
      LateWriteDoubles();
      assert Allowed(patient, LateStart(KEY), DOUBLING) && !ConvergesIn(KEY, DOUBLING);
    }
  }
}
