/** Two runs that meet what the loop does not promise: an event that no claim can start, and a verifier that refuses. */
module ClosedLoopExamples {
  import opened Basics
  import opened RiskStates
  import opened ClosedLoop
  import opened ClosedLoopTheorems
  import opened ClosedLoopHistory
  import opened AlarmDelivery
  import opened WorkOrderDelivery
  import opened Acceptance

  lemma RunTwo(a: Aggregate, t: Txn, u: Txn)
    ensures Run(a, [t, u]) == Step(Step(a, t), u)
  {
    assert [t, u][..1] == [t];
    RunOne(a, t);
  }

  // ---------------------------------------------------------------- a risk arises

  const KEY := Key(1, 2, "vibration_rms")
  const PROVENANCE := Provenance(11, "profile", "model", "policy", Threshold(Above, 5.0, "mm/s"))
  const FORECAST := Forecast(4.0, 6.0, 5.0, 3)
  const MAPPING := Mapping(5, Some(8), true, true)

  function Info(run: Uuid, risky: bool): RunInfo { RunInfo(run, PROVENANCE, FORECAST, risky) }

  function Succeed(run: Uuid, risky: bool, now: Time): Txn {
    SucceedRound(Info(run, risky), Some(MAPPING), Some(2), now)
  }

  /** Two slots on the quarter hour, and a risky round in each. */
  const RISE: seq<Txn> := [NewSlot(1, 900), Succeed(1, true, 1000)] + [NewSlot(2, 1800), Succeed(2, true, 1900)]

  const SLOTS: map<Uuid, Time> := map[1 := 900, 2 := 1800]
  const ALERT := Alert(1, 2, PROVENANCE, FORECAST, RiskActive, PendingApproval, true, 1)

  function Pictured(alert: Alert, orders: map<Uuid, WorkOrder>, alarmId: Option<Uuid>, active: bool, version: nat): Projection {
    Projection(0, 5, alarmId, active, version, DetailsOf(KEY, 0, alert, orders))
  }

  const RISEN :=
    Aggregate(KEY, SLOTS, Some(RiskRow(Counters(2, 0, true), Some(2), Some(0), 1, 2)), [ALERT],
              Some(Pictured(ALERT, map[], None, true, 1)), map[], [NewEvent(AlarmSync, 0, 1, 1900)], map[])

  const ONCE: Aggregate :=
    Empty(KEY).(slots := map[1 := 900], risk := Some(RiskRow(Counters(1, 0, false), Some(1), None, 0, 1)))

  lemma FirstRound()
    ensures Run(Empty(KEY), [NewSlot(1, 900), Succeed(1, true, 1000)]) == ONCE
  {
    RunTwo(Empty(KEY), NewSlot(1, 900), Succeed(1, true, 1000));
    assert Step(Empty(KEY), NewSlot(1, 900)) == Empty(KEY).(slots := map[1 := 900]);
  }

  lemma SecondRound(a: Aggregate)
    requires a == ONCE.(slots := SLOTS)
    ensures Step(a, Succeed(2, true, 1900)) == RISEN
  {
    assert !HasOpenOrder(a);
    assert SupersedeWaiting([], {0}) == [];
    assert [NewEvent(AlarmSync, 0, 1, 1900)] == [] + [NewEvent(AlarmSync, 0, 1, 1900)];
  }

  lemma RiskArises()
    ensures Run(Empty(KEY), RISE) == RISEN
  {
    RunSplits(Empty(KEY), [NewSlot(1, 900), Succeed(1, true, 1000)], [NewSlot(2, 1800), Succeed(2, true, 1900)]);
    FirstRound();
    RunTwo(ONCE, NewSlot(2, 1800), Succeed(2, true, 1900));
    assert ONCE.slots[2 := 1800] == SLOTS;
    SecondRound(Step(ONCE, NewSlot(2, 1800)));
  }

  // ---------------------------------------------------------------- eight claims are lost

  /** Eight claims of the alarm event, each lost to its lease, and a ninth attempt to claim. */
  const LOSSES: seq<Txn> :=
    [Claim(AlarmSync, 0, "a", 2000), Claim(AlarmSync, 0, "b", 2040)] + [Claim(AlarmSync, 0, "c", 2080), Claim(AlarmSync, 0, "d", 2120)]
    + ([Claim(AlarmSync, 0, "e", 2160), Claim(AlarmSync, 0, "f", 2200)] + [Claim(AlarmSync, 0, "g", 2240), Claim(AlarmSync, 0, "h", 2280)])
    + [Claim(AlarmSync, 0, "i", 2320)]

  /** The only event is an alarm event, claimed `n` times and leased until `expires`. */
  predicate Leased(a: Aggregate, n: nat, expires: Time) {
    |a.outbox| == 1 && a.outbox[0].kind.AlarmSync? && a.outbox[0].status.InFlight?
    && a.outbox[0].attempt == n && a.outbox[0].expires == Some(expires)
  }

  lemma ClaimedAgain(a: Aggregate, n: nat, expires: Time, owner: string, now: Time)
    requires Leased(a, n, expires) && expires < now && n < MAX_ATTEMPTS
    ensures Leased(Step(a, Claim(AlarmSync, 0, owner, now)), n + 1, now + LEASE_SECONDS)
  {
    assert ExpireLeases(a.outbox, AlarmSync, now)[0] == ExpireEvent(a.outbox[0], AlarmSync, now);
  }

  lemma ClaimedTwice(a: Aggregate, n: nat, expires: Time, owner: string, other: string, now: Time)
    requires Leased(a, n, expires) && expires < now && n + 2 <= MAX_ATTEMPTS
    ensures Leased(Run(a, [Claim(AlarmSync, 0, owner, now), Claim(AlarmSync, 0, other, now + 40)]), n + 2, now + 70)
  {
    RunTwo(a, Claim(AlarmSync, 0, owner, now), Claim(AlarmSync, 0, other, now + 40));
    ClaimedAgain(a, n, expires, owner, now);
    ClaimedAgain(Step(a, Claim(AlarmSync, 0, owner, now)), n + 1, now + LEASE_SECONDS, other, now + 40);
  }

  lemma FirstTwoClaims()
    ensures Leased(Run(RISEN, [Claim(AlarmSync, 0, "a", 2000), Claim(AlarmSync, 0, "b", 2040)]), 2, 2070)
  {
    RunTwo(RISEN, Claim(AlarmSync, 0, "a", 2000), Claim(AlarmSync, 0, "b", 2040));
    var b := Step(RISEN, Claim(AlarmSync, 0, "a", 2000));
    assert ExpireLeases(RISEN.outbox, AlarmSync, 2000)[0] == RISEN.outbox[0];
    assert Leased(b, 1, 2030);
    ClaimedAgain(b, 1, 2030, "b", 2040);
  }

  lemma LastClaimFails(a: Aggregate)
    requires Leased(a, MAX_ATTEMPTS, 2310)
    ensures var e := Step(a, Claim(AlarmSync, 0, "i", 2320)).outbox[0];
            |Step(a, Claim(AlarmSync, 0, "i", 2320)).outbox| == 1 && e.status.RetryWait? && e.attempt == MAX_ATTEMPTS
  {
    assert ExpireLeases(a.outbox, AlarmSync, 2320)[0] == ExpireEvent(a.outbox[0], AlarmSync, 2320);
  }

  /** The state of the exhausted event is reached: eight lost claims leave the event waiting with no attempt left. */
  lemma ExhaustionHappens()
    ensures var a := Run(Empty(KEY), RISE + LOSSES);
            |a.outbox| == 1 && a.outbox[0].status.RetryWait? && a.outbox[0].attempt == MAX_ATTEMPTS
  {
    var ab, cd := [Claim(AlarmSync, 0, "a", 2000), Claim(AlarmSync, 0, "b", 2040)], [Claim(AlarmSync, 0, "c", 2080), Claim(AlarmSync, 0, "d", 2120)];
    var ef, gh := [Claim(AlarmSync, 0, "e", 2160), Claim(AlarmSync, 0, "f", 2200)], [Claim(AlarmSync, 0, "g", 2240), Claim(AlarmSync, 0, "h", 2280)];
    var a2 := Run(RISEN, ab);
    var a4 := Run(a2, cd);
    var a6 := Run(a4, ef);
    var a8 := Run(a6, gh);
    FirstTwoClaims();
    ClaimedTwice(a2, 2, 2070, "c", "d", 2080);
    ClaimedTwice(a4, 4, 2150, "e", "f", 2160);
    ClaimedTwice(a6, 6, 2230, "g", "h", 2240);
    LastClaimFails(a8);
    RunOne(a8, Claim(AlarmSync, 0, "i", 2320));
    RunSplits(RISEN, ab, cd);
    RunSplits(a4, ef, gh);
    RunSplits(RISEN, ab + cd, ef + gh);
    RunSplits(RISEN, ab + cd + (ef + gh), [Claim(AlarmSync, 0, "i", 2320)]);
    RiskArises();
    RunSplits(Empty(KEY), RISE, LOSSES);
  }

  /** And it stays that way: the provider's alarm of this event is never reported as delivered. */
  lemma NeverDelivered(us: seq<Txn>)
    ensures var b := Run(Empty(KEY), RISE + LOSSES + us);
            b.outbox != [] && (b.outbox[0].status.RetryWait? || b.outbox[0].status.Superseded?)
  {
    ExhaustionHappens();
    ExhaustedEventIsStuck(Run(Empty(KEY), RISE + LOSSES), us, 0);
    RunSplits(Empty(KEY), RISE + LOSSES, us);
  }

  // ---------------------------------------------------------------- a loop runs to its end

  /** One undisturbed round of the alarm worker. */
  function Deliver(event: nat, owner: string, now: Time): seq<Move> {
    [Take(event, owner, now), ReadProjection] + [LookUp(true), Send(true, true)] + [Finish]
  }

  lemma PlayTwo(w: World, m: Move, n: Move)
    ensures Play(w, [m, n]) == Act(Act(w, m), n)
  {
    PlayOne(w, m);
    PlaySnoc(w, [m], n);
    assert [m] + [n] == [m, n];
  }

  lemma DeliverPlay(w: World, event: nat, owner: string, now: Time)
    ensures Play(w, Deliver(event, owner, now)) ==
              Act(Act(Act(Act(Act(w, Take(event, owner, now)), ReadProjection), LookUp(true)), Send(true, true)), Finish)
  {
    var read, sent := [Take(event, owner, now), ReadProjection], [LookUp(true), Send(true, true)];
    PlayTwo(w, Take(event, owner, now), ReadProjection);
    PlayTwo(Play(w, read), LookUp(true), Send(true, true));
    PlayConcat(w, read, sent);
    PlaySnoc(w, read + sent, Finish);
  }

  const SENT: Event := Event(AlarmSync, 0, 1, Delivered, 1, None, None, 1900)
  const ALARM := TbAlarm(5, true, DetailsOf(KEY, 0, ALERT, map[]))
  const SHOWN := RISEN.(projection := Some(Pictured(ALERT, map[], Some(0), true, 1)), outbox := [SENT])

  lemma AlarmIsRaised()
    ensures Play(World(RISEN, [], Idle), Deliver(0, "w", 1900)) == World(SHOWN, [ALARM], Idle)
  {
    var w := World(RISEN, [], Idle);
    DeliverPlay(w, 0, "w", 1900);
    assert ExpireLeases(RISEN.outbox, AlarmSync, 1900)[0] == RISEN.outbox[0];
    var w1 := Act(w, Take(0, "w", 1900));
    assert w1.db.outbox == [ClaimEvent(RISEN.outbox[0], "w", 1900)] && w1.worker == Claimed(Ticket(0, "w"));
    var w2 := Act(w1, ReadProjection);
    assert w2.worker == Read(Ticket(0, "w"), RISEN.projection.value);
    var w3 := Act(w2, LookUp(true));
    assert w3.worker == Found(Ticket(0, "w"), RISEN.projection.value, None);
    var w4 := Act(w3, Send(true, true));
    assert w4.alarms == [ALARM] && w4.worker == Written(Ticket(0, "w"), RISEN.projection.value, 0);
    assert Act(w4, Finish).db.outbox == [SENT];
  }

  const BODY := RequestBody(KEY, 0, 0, 8, PROVENANCE)

  /** The approval of the previewed plan at alert version 1. */
  const CALL :=
    ActionCall(Authorized(0, 21, 31, AlarmView(0, 5, true)), ActionKey(0, CreateAction), "digest", 1,
               Sha256(PlanIdentity(1, 31, 41, 0, 1, 21, 0, BODY)), "", Some(MAPPING), Some(Tenant(31, 41, true)), 51, 1950)

  const APPROVED := ALERT.(maintenance := WorkOrderCreating, actionAllowed := false, version := 2)
  const RECORD: map<ActionKey, ActionRow> := map[ActionKey(0, CreateAction) := ActionOf(CALL, ALERT)]
  const COMMAND := NewEvent(WorkOrderCreate, 0, 1, 1950)

  const ORDERED :=
    Aggregate(KEY, SLOTS, Some(RiskRow(Counters(2, 0, true), Some(2), Some(0), 2, 2)), [APPROVED],
              Some(Pictured(APPROVED, map[0 := NewWorkOrder(BODY)], Some(0), true, 2)), map[0 := NewWorkOrder(BODY)],
              [SENT, COMMAND, NewEvent(AlarmSync, 0, 2, 1950)], RECORD)

  lemma OrderIsApproved()
    ensures Step(SHOWN, Create(CALL)) == ORDERED
  {
    var outbox := [SENT, COMMAND];
    assert AcceptCreate(SHOWN, CALL).outbox == outbox;
    assert SupersedeWaiting(outbox, {0}) == outbox;
  }

  const REPLY := CmmsReply(0, "COMPLETE", 0, 1970)
  const ORDER :=
    NewWorkOrder(BODY).(cmmsId := Some(0), status := Some("COMPLETE"), eventVersion := Some(0), updatedAt := Some(1970),
                        maintenance := WorkOrderComplete)
  const WORKED := APPROVED.(maintenance := WorkOrderComplete, version := 3)
  const DONE: Event := Event(WorkOrderCreate, 0, 1, Delivered, 1, None, None, 1950)
  const RETIRED: Event := NewEvent(AlarmSync, 0, 2, 1950).(status := Superseded)

  const COMPLETED :=
    Aggregate(KEY, SLOTS, Some(RiskRow(Counters(2, 0, true), Some(2), Some(0), 3, 2)), [WORKED],
              Some(Pictured(WORKED, map[0 := ORDER], Some(0), true, 3)), map[0 := ORDER],
              [SENT, DONE, RETIRED, NewEvent(AlarmSync, 0, 3, 1980)], RECORD)

  lemma CommandIsClaimed()
    ensures Step(ORDERED, Claim(WorkOrderCreate, 1, "c", 1960)) ==
              ORDERED.(outbox := [SENT, ClaimEvent(COMMAND, "c", 1960), NewEvent(AlarmSync, 0, 2, 1950)])
  {
    assert ExpireLeases(ORDERED.outbox, WorkOrderCreate, 1960) == ORDERED.outbox;
  }

  lemma OrderIsSaved(a: Aggregate)
    requires a == ORDERED.(outbox := [SENT, ClaimEvent(COMMAND, "c", 1960), NewEvent(AlarmSync, 0, 2, 1950)])
    ensures Step(a, SaveOrder(1, "c", REPLY, 1980)) == COMPLETED
  {
    assert a.workOrders[0 := ORDER] == map[0 := ORDER];
    var outbox := [SENT, DONE, NewEvent(AlarmSync, 0, 2, 1950)];
    assert a.outbox[1 := DONE] == outbox;
    assert SupersedeWaiting(outbox, {0}) == [SENT, DONE, RETIRED];
  }

  lemma OrderIsCompleted()
    ensures Run(SHOWN, [Create(CALL)] + [Claim(WorkOrderCreate, 1, "c", 1960), SaveOrder(1, "c", REPLY, 1980)]) == COMPLETED
  {
    RunSplits(SHOWN, [Create(CALL)], [Claim(WorkOrderCreate, 1, "c", 1960), SaveOrder(1, "c", REPLY, 1980)]);
    RunOne(SHOWN, Create(CALL));
    OrderIsApproved();
    RunTwo(ORDERED, Claim(WorkOrderCreate, 1, "c", 1960), SaveOrder(1, "c", REPLY, 1980));
    CommandIsClaimed();
    OrderIsSaved(Step(ORDERED, Claim(WorkOrderCreate, 1, "c", 1960)));
  }

  const EASED := WORKED.(runId := 3, version := 4)
  const RETIRED3: Event := NewEvent(AlarmSync, 0, 3, 1980).(status := Superseded)
  const RETIRED4: Event := NewEvent(AlarmSync, 0, 4, 2800).(status := Superseded)

  const CALMER :=
    COMPLETED.(slots := SLOTS[3 := 2700], risk := Some(RiskRow(Counters(0, 1, true), Some(3), Some(0), 4, 3)), alerts := [EASED],
               projection := Some(Pictured(EASED, map[0 := ORDER], Some(0), true, 4)),
               outbox := [SENT, DONE, RETIRED, RETIRED3, NewEvent(AlarmSync, 0, 4, 2800)])

  const OVER := EASED.(runId := 4, version := 5, phase := RiskCleared)

  const CALM :=
    CALMER.(slots := SLOTS[3 := 2700][4 := 3600], risk := Some(RiskRow(Counters(0, 2, false), Some(4), Some(0), 5, 4)), alerts := [OVER],
            projection := Some(Pictured(OVER, map[0 := ORDER], Some(0), false, 5)),
            outbox := [SENT, DONE, RETIRED, RETIRED3, RETIRED4, NewEvent(AlarmSync, 0, 5, 3700)])

  lemma RiskEases()
    ensures Run(COMPLETED, [NewSlot(3, 2700), Succeed(3, false, 2800)]) == CALMER
  {
    var a := Step(COMPLETED, NewSlot(3, 2700));
    RunTwo(COMPLETED, NewSlot(3, 2700), Succeed(3, false, 2800));
    assert a.slots == SLOTS[3 := 2700] && a.alerts[0 := EASED] == [EASED];
    assert SupersedeWaiting(a.outbox, {0}) == [SENT, DONE, RETIRED, RETIRED3];
  }

  lemma RiskEnds()
    ensures Run(CALMER, [NewSlot(4, 3600), Succeed(4, false, 3700)]) == CALM
  {
    var a := Step(CALMER, NewSlot(4, 3600));
    RunTwo(CALMER, NewSlot(4, 3600), Succeed(4, false, 3700));
    assert a.slots == SLOTS[3 := 2700][4 := 3600] && a.alerts[0 := OVER] == [OVER];
    assert SupersedeWaiting(a.outbox, {0}) == [SENT, DONE, RETIRED, RETIRED3, RETIRED4];
  }

  const CLEARED: Event := Event(AlarmSync, 0, 5, Delivered, 1, None, None, 3700)
  const QUIETED := CALM.(outbox := [SENT, DONE, RETIRED, RETIRED3, RETIRED4, CLEARED])

  const LAST: Event := ClaimEvent(NewEvent(AlarmSync, 0, 5, 3700), "x", 3700)
  const TAKEN := CALM.(outbox := [SENT, DONE, RETIRED, RETIRED3, RETIRED4, LAST])

  lemma LastIsRead()
    ensures Act(Act(World(CALM, [ALARM], Idle), Take(5, "x", 3700)), ReadProjection) ==
              World(TAKEN, [ALARM], Read(Ticket(5, "x"), CALM.projection.value))
  {
    assert ExpireLeases(CALM.outbox, AlarmSync, 3700) == CALM.outbox;
    assert CALM.outbox[5 := LAST] == TAKEN.outbox;
  }

  lemma LastIsSent()
    ensures var sent := CALM.projection.value;
            Act(Act(World(TAKEN, [ALARM], Read(Ticket(5, "x"), sent)), LookUp(true)), Send(true, true)) ==
              World(TAKEN, [ALARM.(active := false)], AlarmDelivery.Cleared(Ticket(5, "x"), sent))
  {
    var sent := CALM.projection.value;
    assert Matches(ALARM, sent) && MatchesAmong([ALARM], 0, sent) == [];
    assert MatchesAmong([ALARM], 1, sent) == [0];
  }

  lemma AlarmIsCleared()
    ensures Play(World(CALM, [ALARM], Idle), Deliver(5, "x", 3700)) == World(QUIETED, [ALARM.(active := false)], Idle)
  {
    DeliverPlay(World(CALM, [ALARM], Idle), 5, "x", 3700);
    LastIsRead();
    LastIsSent();
    assert TAKEN.outbox[5 := CLEARED] == QUIETED.outbox;
  }

  const RAISING: seq<Move> := Others(RISE) + Deliver(0, "w", 1900)
  const ORDERING: seq<Move> := Others([Create(CALL)] + [Claim(WorkOrderCreate, 1, "c", 1960), SaveOrder(1, "c", REPLY, 1980)])
  const EASING: seq<Move> :=
    Others([NewSlot(3, 2700), Succeed(3, false, 2800)] + [NewSlot(4, 3600), Succeed(4, false, 3700)]) + Deliver(5, "x", 3700)

  /** A risk and its alarm, an approved and completed work order, two healthy rounds and the cleared alarm. */
  const LOOP: seq<Move> := RAISING + ORDERING + EASING

  lemma RaisingEnds()
    ensures Play(Start(KEY), RAISING) == World(SHOWN, [ALARM], Idle)
  {
    OthersPlay(Start(KEY), RISE);
    RiskArises();
    AlarmIsRaised();
    PlayConcat(Start(KEY), Others(RISE), Deliver(0, "w", 1900));
  }

  lemma OrderingEnds()
    ensures Play(World(SHOWN, [ALARM], Idle), ORDERING) == World(COMPLETED, [ALARM], Idle)
  {
    OthersPlay(World(SHOWN, [ALARM], Idle), [Create(CALL)] + [Claim(WorkOrderCreate, 1, "c", 1960), SaveOrder(1, "c", REPLY, 1980)]);
    OrderIsCompleted();
  }

  lemma EasingEnds()
    ensures Play(World(COMPLETED, [ALARM], Idle), EASING) == World(QUIETED, [ALARM.(active := false)], Idle)
  {
    var eased, over := [NewSlot(3, 2700), Succeed(3, false, 2800)], [NewSlot(4, 3600), Succeed(4, false, 3700)];
    OthersPlay(World(COMPLETED, [ALARM], Idle), eased + over);
    RunSplits(COMPLETED, eased, over);
    RiskEases();
    RiskEnds();
    AlarmIsCleared();
    PlayConcat(World(COMPLETED, [ALARM], Idle), Others(eased + over), Deliver(5, "x", 3700));
  }

  lemma LoopEnds()
    ensures Play(Start(KEY), LOOP) == World(QUIETED, [ALARM.(active := false)], Idle)
  {
    RaisingEnds();
    OrderingEnds();
    EasingEnds();
    PlayConcat(Start(KEY), RAISING, ORDERING);
    PlayConcat(Start(KEY), RAISING + ORDERING, EASING);
  }

  // ---------------------------------------------------------------- and is refused

  const RESPONSE := Response(0, BODY, REPLY)

  lemma OutboxIsSettled()
    ensures RequireSettled(Tally(QUIETED.outbox)).None?
  {
    SettledMeansQuiet(QUIETED.outbox);
  }

  const END := Local(QUIETED, [], Some(MAPPING))

  lemma EndIsRead()
    ensures ReadSnapshot(END) ==
              Ok(Snapshot(KEY, 5, 8, 0, false, 2, 5, 0, OVER, 0, false, 5, DetailsOf(KEY, 0, OVER, map[0 := ORDER]), BODY,
                          0, "COMPLETE", 0, WorkOrderComplete, Tally(QUIETED.outbox)))
  {
    assert QUIETED.outbox + [] == QUIETED.outbox;
  }

  /** Everything asked of the stage CLEARED holds, and yet the answer is that the alarm does not match. */
  predicate RefusedAtCleared(l: Local, alarms: seq<TbAlarm>, acknowledged: bool) {
    && ReadSnapshot(l).Ok?
    && var s := ReadSnapshot(l).value;
       && ValidateLocalIdentity(s).None? && RequireSettled(s.counts).None?
       && ValidateWorkOrder(s, RESPONSE).None?
       && s.alarmId < |alarms| && !alarms[s.alarmId].active
       && ObservedStage(s, true) == ClearedStage && ValidateStage(s, true, ClearedStage).None?
       && Verify(l, l, alarms, acknowledged, Some(RESPONSE), ClearedStage) == Err(AlarmMismatch)
  }

  lemma EndIsConsistent()
    ensures ReadSnapshot(END).Ok?
    ensures var s := ReadSnapshot(END).value;
            && ValidateLocalIdentity(s).None? && ValidateWorkOrder(s, RESPONSE).None?
            && ObservedStage(s, true) == ClearedStage && ValidateStage(s, true, ClearedStage).None?
  {
    EndIsRead();
  }

  lemma EndIsRefused(acknowledged: bool)
    ensures RefusedAtCleared(END, [ALARM.(active := false)], acknowledged)
  {
    OutboxIsSettled();
    EndIsRead();
    EndIsConsistent();
  }

  /**
    At the end of the loop the aggregate is readable and consistent, the outbox settled, the work order complete and
    confirmed, the risk and the alarm cleared. Yet the verifier refuses the stage CLEARED, because the details of the
    alarm are those of the last upsert.
   */
  lemma ClearedLoopIsRefused(acknowledged: bool)
    ensures var w := Play(Start(KEY), LOOP); RefusedAtCleared(Local(w.db, [], Some(MAPPING)), w.alarms, acknowledged)
  {
    LoopEnds();
    EndIsRefused(acknowledged);
  }
}
