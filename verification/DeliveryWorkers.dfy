/** The three workers of closed_loop_delivery.py, each as one undisturbed round over the store and its provider. */
module DeliveryWorkers {
  import opened Basics
  import opened ClosedLoop
  import opened ClosedLoopStore
  import opened AlarmDelivery
  import opened AlarmConvergence
  import opened AlarmRounds
  import opened ClosedLoopOutcomes
  import opened WorkOrderDelivery
  import opened WorkOrderFeedback
  import opened WorkOrderRounds

  // ---------------------------------------------------------------- alarms

  class ThingsBoard {
    var alarms: seq<TbAlarm>

    constructor ()
      ensures alarms == []
    {
      alarms := [];
    }

    /** Writes the alarm, over the one given or as a new one. */
    method Upsert(sent: Projection, existing: Option<Uuid>) returns (id: Uuid)
      requires existing.Some? ==> existing.value < |alarms|
      modifies this
      ensures id == if existing.Some? then existing.value else old(|alarms|)
      ensures alarms == if existing.Some? then old(alarms)[id := ActiveAlarm(sent)] else old(alarms) + [ActiveAlarm(sent)]
    {
      if existing.Some? {
        id := existing.value;
        alarms := alarms[id := ActiveAlarm(sent)];
      } else {
        id := |alarms|;
        alarms := alarms + [ActiveAlarm(sent)];
      }
    }

    /** Clears the alarm and leaves its details alone. */
    method Clear(id: Uuid)
      requires id < |alarms|
      modifies this
      ensures alarms == old(alarms)[id := old(alarms)[id].(active := false)]
    {
      alarms := alarms[id := alarms[id].(active := false)];
    }
  }

  /** The upsert or clear call; None is the exception that leads to a retry. */
  method SendAlarm(store: Store, tb: ThingsBoard, t: Ticket, sent: Projection, existing: Option<Uuid>, weather: Weather)
    returns (worker: Worker)
    modifies tb
    ensures worker.Failing? || worker.Written? || worker.Cleared?
    ensures World(store.View(), tb.alarms, worker) ==
              SendTo(World(old(store.View()), old(tb.alarms), Found(t, sent, existing)), weather.effective, weather.answered)
  {
    worker := Failing(t);
    if sent.desiredActive {
      if weather.effective && (existing.Some? ==> existing.value <= |tb.alarms|) {
        var id := tb.Upsert(sent, if existing.Some? && existing.value < |tb.alarms| then existing else None);
        if weather.answered {
          worker := Written(t, sent, id);
        }
      }
    } else {
      var target := if existing.Some? then existing else sent.alarmId;
      if target.None? {
        worker := Cleared(t, sent);
      } else if weather.effective && target.value < |tb.alarms| {
        tb.Clear(target.value);
        if weather.answered {
          worker := Cleared(t, sent);
        }
      }
    }
  }

  /**
    `AlarmDeliveryWorker.run_once`: `claimed` exactly when some alarm event is due, and then the due event that is
    available earliest has been settled as the weather allows.
   */
  method DeliverAlarm(store: Store, tb: ThingsBoard, owner: string, now: Time, weather: Weather)
    returns (claimed: bool, ghost event: nat)
    modifies store, tb
    ensures claimed <==> exists i :: 0 <= i < old(|store.outbox|) && Due(old(store.outbox)[i], AlarmSync, now)
    ensures claimed ==> IsFirst(ExpireLeases(old(store.outbox), AlarmSync, now), event, AlarmSync, now)
    ensures !claimed ==> store.View() == old(store.View()).(outbox := ExpireLeases(old(store.outbox), AlarmSync, now))
    ensures !claimed ==> tb.alarms == old(tb.alarms)
    ensures claimed ==>
              World(store.View(), tb.alarms, Idle) ==
              AlarmRound(World(old(store.View()), old(tb.alarms), Idle), event, owner, now, weather)
    ensures claimed && WorldInv(World(old(store.View()), old(tb.alarms), Idle)) ==>
              && WorldInv(World(store.View(), tb.alarms, Idle))
              && RoundSettled(World(old(store.View()), old(tb.alarms), Idle), World(store.View(), tb.alarms, Idle),
                              event, now, weather)
  {
    ghost var start := World(store.View(), tb.alarms, Idle);
    var claim := store.ClaimNextEvent(AlarmSync, owner, now);
    if claim.None? {
      return false, 0;
    }
    claimed, event := true, claim.value;
    assert World(store.View(), tb.alarms, Claimed(Ticket(event, owner))) == Act(start, Take(event, owner, now));
    FinishAlarm(store, tb, Ticket(claim.value, owner), now, weather);
    if WorldInv(start) {
      RoundSettles(start, event, owner, now, weather);
    }
  }

  method FinishAlarm(store: Store, tb: ThingsBoard, t: Ticket, now: Time, weather: Weather)
    modifies store, tb
    ensures World(store.View(), tb.alarms, Idle) ==
              RestOfRound(World(old(store.View()), old(tb.alarms), Claimed(t)), now, weather)
  {
    var delivery := store.ReadAlarm(t.event, t.owner);
    if delivery.None? {
      store.Finish(t.event, t.owner, Superseded);
      return;
    }
    var sent := delivery.value;
    assert World(store.View(), tb.alarms, Read(t, sent)) ==
           Act(Act(World(store.View(), tb.alarms, Claimed(t)), ReadProjection), Drop);
    LookUpAndSend(store, tb, t, sent, now, weather);
  }

  method LookUpAndSend(store: Store, tb: ThingsBoard, t: Ticket, sent: Projection, now: Time, weather: Weather)
    modifies store, tb
    ensures World(store.View(), tb.alarms, Idle) ==
              AfterRead(World(old(store.View()), old(tb.alarms), Read(t, sent)), now, weather)
  {
    var found := FindAlarm(tb.alarms, sent);
    var worker := Failing(t);
    if weather.reached && found.Ok? {
      worker := SendAlarm(store, tb, t, sent, found.value, weather);
    }
    EndAlarm(store, tb, worker, now);
  }

  /** Records the outcome of the round. */
  method EndAlarm(store: Store, tb: ThingsBoard, worker: Worker, now: Time)
    requires worker.Failing? || worker.Written? || worker.Cleared?
    modifies store
    ensures World(store.View(), tb.alarms, Idle) ==
              Act(Act(World(old(store.View()), old(tb.alarms), worker), Finish), Backoff(now))
  {
    match worker
    case Failing(t) => store.RetryLater(t.event, t.owner, now);
    case Written(t, sent, alarmId) =>
      var ok := store.SaveAlarmIdentity(t.event, t.owner, sent.alertId, alarmId);
    case Cleared(t, _) => store.Finish(t.event, t.owner, Delivered);
    case _ =>
  }

  // ---------------------------------------------------------------- work orders

  class Cmms {
    var orders: seq<CmmsOrder>

    constructor ()
      ensures orders == []
    {
      orders := [];
    }

    method Create(ref: Uuid, body: RequestBody, first: Entry)
      modifies this
      ensures orders == old(orders) + [CmmsOrder(ref, body, [first])]
    {
      orders := orders + [CmmsOrder(ref, body, [first])];
    }
  }

  /**
    `WorkOrderDeliveryWorker.run_once`, where a created order starts at entry `first`: `claimed` exactly when some create
    command is due, and then the due command that is available earliest has been settled as CMMS and weather allow.
   */
  method DeliverOrder(store: Store, cmms: Cmms, owner: string, expected: nat, company: Company, now: Time, weather: Weather,
                      first: Entry)
    returns (claimed: bool, ghost event: nat)
    modifies store, cmms
    ensures claimed <==> exists i :: 0 <= i < old(|store.outbox|) && Due(old(store.outbox)[i], WorkOrderCreate, now)
    ensures claimed ==> IsFirst(ExpireLeases(old(store.outbox), WorkOrderCreate, now), event, WorkOrderCreate, now)
    ensures !claimed ==> store.View() == old(store.View()).(outbox := ExpireLeases(old(store.outbox), WorkOrderCreate, now))
    ensures !claimed ==> cmms.orders == old(cmms.orders)
    ensures claimed ==>
              Plant(store.View(), cmms.orders, Free) ==
              OrderRound(Plant(old(store.View()), old(cmms.orders), Free), event, owner, expected, company, now, weather, first)
    ensures claimed && PlantInv(Plant(old(store.View()), old(cmms.orders), Free)) ==>
              && PlantInv(Plant(store.View(), cmms.orders, Free))
              && OrderSettled(Plant(old(store.View()), old(cmms.orders), Free), Plant(store.View(), cmms.orders, Free),
                              event, expected, company, now, weather, first)
  {
    ghost var start := Plant(store.View(), cmms.orders, Free);
    var claim := store.ClaimNextEvent(WorkOrderCreate, owner, now);
    if claim.None? {
      return false, 0;
    }
    claimed, event := true, claim.value;
    assert Plant(store.View(), cmms.orders, Holding(Ticket(event, owner))) == Do(start, TakeCommand(event, owner, now));
    FinishOrder(store, cmms, Ticket(claim.value, owner), expected, company, now, weather, first);
    if PlantInv(start) {
      OrderRoundSettles(start, event, owner, expected, company, now, weather, first);
    }
  }

  method FinishOrder(store: Store, cmms: Cmms, t: Ticket, expected: nat, company: Company, now: Time, weather: Weather,
                     first: Entry)
    modifies store, cmms
    ensures Plant(store.View(), cmms.orders, Free) ==
              RestOfOrder(Plant(old(store.View()), old(cmms.orders), Holding(t)), expected, company, now, weather, first)
  {
    ghost var start := Plant(store.View(), cmms.orders, Holding(t));
    EarlyEnds(start, expected, company, now, weather, first);
    var delivery := store.ReadOrder(t.event, t.owner);
    if delivery.None? {
      store.RetryLater(t.event, t.owner, now);
      return;
    }
    var (ref, body) := delivery.value;
    assert Do(start, ReadIntent) == start.(creator := Delivering(t, ref, body));
    if company.Company? && company.id != expected {
      store.Finish(t.event, t.owner, DeadLetter);
      return;
    }
    ObtainAndEnd(store, cmms, t, ref, body, company, now, weather, first);
  }

  method ObtainAndEnd(store: Store, cmms: Cmms, t: Ticket, ref: Uuid, body: RequestBody, company: Company, now: Time,
                      weather: Weather, first: Entry)
    modifies store, cmms
    ensures Plant(store.View(), cmms.orders, Free) ==
              EndOfOrder(Obtain(Plant(old(store.View()), old(cmms.orders), Delivering(t, ref, body)), company, weather, first), now)
  {
    var creator := ObtainOrder(store, cmms, t, ref, body, company, weather, first);
    EndOrder(store, cmms, creator, now);
  }

  /** Looks the order up and creates it only when it is not there. */
  method ObtainOrder(store: Store, cmms: Cmms, t: Ticket, ref: Uuid, body: RequestBody, company: Company, weather: Weather,
                     first: Entry)
    returns (creator: Creator)
    modifies cmms
    ensures creator.Answered? || creator.Retrying?
    ensures Plant(store.View(), cmms.orders, creator) ==
              Obtain(Plant(old(store.View()), old(cmms.orders), Delivering(t, ref, body)), company, weather, first)
    ensures (forall k :: 0 <= k < old(|cmms.orders|) ==> old(cmms.orders)[k].log != []) ==>
              ObtainShape(Plant(old(store.View()), old(cmms.orders), Delivering(t, ref, body)),
                          Plant(store.View(), cmms.orders, creator), company, weather, first)
  {
    ghost var start := Plant(store.View(), cmms.orders, Delivering(t, ref, body));
    var k := FindOrder(cmms.orders, ref);
    if k.None? {
      OrderIsPosted(start, company, weather, first);
    } else if cmms.orders[k.value].log != [] {
      OrderIsFound(start, company, weather, first);
    }
    if company.Unreachable? || !weather.reached || (k.Some? && cmms.orders[k.value].log == []) {
      return Retrying(t);
    }
    if k.Some? {
      return Answered(t, ref, body, ReplyOf(cmms.orders, k.value, |cmms.orders[k.value].log| - 1));
    }
    creator := Retrying(t);
    if weather.effective {
      cmms.Create(ref, body, first);
      if weather.answered {
        creator := Answered(t, ref, body, ReplyOf(cmms.orders, |cmms.orders| - 1, 0));
      }
    }
  }

  method EndOrder(store: Store, cmms: Cmms, creator: Creator, now: Time)
    requires creator.Answered? || creator.Retrying?
    modifies store
    ensures Plant(store.View(), cmms.orders, Free) == EndOfOrder(Plant(old(store.View()), old(cmms.orders), creator), now)
  {
    var t := creator.ticket;
    if creator.Retrying? {
      store.RetryLater(t.event, t.owner, now);
    } else if !IdentityMatches(creator.response, creator.ref, creator.body)
              || MaintenanceOf(creator.response.reply.status).None?
    {
      store.Finish(t.event, t.owner, DeadLetter);
    } else {
      store.SaveCreatedOrder(t.event, t.owner, creator.response.reply, now);
    }
  }

  // ---------------------------------------------------------------- status polls

  /** What the provider answers to one look-up. */
  datatype Answer = Down | NotThere | There(response: Response)

  const POLL_TRIES: nat := 3

  /** Try `i` shows the order, and every try before it failed. */
  predicate IsFirstAnswer(answers: seq<Answer>, i: nat)
    requires i < |answers|
  {
    answers[i].There? && forall j :: 0 <= j < i ==> answers[j].Down?
  }

  /** The first answer among the tries; an order that is not there ends the tries as well. */
  function FirstAnswer(answers: seq<Answer>): Option<Response> {
    if answers == [] then None
    else if answers[0].Down? then FirstAnswer(answers[1..])
    else if answers[0].There? then Some(answers[0].response)
    else None
  }

  lemma {:induction false} FirstAnswerIsFirst(answers: seq<Answer>)
    ensures FirstAnswer(answers).Some? ==> exists i :: 0 <= i < |answers| && IsFirstAnswer(answers, i)
    ensures forall i :: 0 <= i < |answers| && IsFirstAnswer(answers, i) ==> FirstAnswer(answers) == Some(answers[i].response)
  {
    if answers != [] && answers[0].Down? {
      var rest := answers[1..];
      FirstAnswerIsFirst(rest);
      if FirstAnswer(rest).Some? {
        var i :| 0 <= i < |rest| && IsFirstAnswer(rest, i);
        assert IsFirstAnswer(answers, i + 1);
      }
      forall i | 0 <= i < |answers| && IsFirstAnswer(answers, i)
        ensures FirstAnswer(answers) == Some(answers[i].response)
      {
        assert IsFirstAnswer(rest, i - 1);
      }
    } else if answers != [] && answers[0].There? {
      assert IsFirstAnswer(answers, 0);
    }
  }

  function Answers(answers: nat -> Answer): seq<Answer> { [answers(0), answers(1), answers(2)] }

  /** How a claimed poll ends: the first answer is applied if it is the order's and its status is known. */
  function PollEnds(a: Aggregate, id: Uuid, owner: string, response: Option<Response>, now: Time): Aggregate
    requires id in a.workOrders
  {
    if response.Some? && IdentityMatches(response.value, id, a.workOrders[id].body)
       && !PollDecision(a, id, owner, response.value.reply).StatusInvalid?
    then ApplyStatus(a, id, owner, response.value.reply, now)
    else FailPoll(a, id, owner, now)
  }

  /** The columns in which the CMMS must repeat what it was sent. */
  predicate SameOrder(echoed: RequestBody, body: RequestBody) {
    var p, q := echoed.provenance, body.provenance;
    && echoed.key.equipmentId == body.key.equipmentId && echoed.alarmId == body.alarmId && echoed.assetId == body.assetId
    && (p.correlationId, p.modelProfileId, p.modelInfoId, p.policyVersion) ==
       (q.correlationId, q.modelProfileId, q.modelInfoId, q.policyVersion)
  }

  /** The answer is the order's, and its status is known unless it is not newer than what is stored. */
  predicate Usable(a: Aggregate, id: Uuid, owner: string, response: Response)
    requires id in a.workOrders
  {
    && response.externalRef == id && SameOrder(response.echoed, a.workOrders[id].body)
    && (HoldsPoll(a, id, owner) && IsNewer(a.workOrders[id], response.reply) ==> IsKnown(response.reply.status))
  }

  /** A usable answer is applied; otherwise the lease is released and the next poll is five minutes away. */
  ghost predicate PollSettled(a: Aggregate, b: Aggregate, id: Uuid, owner: string, response: Option<Response>, now: Time)
    requires id in a.workOrders
  {
    if response.Some? && Usable(a, id, owner, response.value) then
      PollOutcome(a, b, id, owner, response.value.reply, now, PollDecision(a, id, owner, response.value.reply))
    else
      b == a.(workOrders := a.workOrders[id := a.workOrders[id].(nextPollAt := Some(now + 300),
                                                                 pollOwner := None, pollExpires := None)])
  }

  lemma PollIsSettled(a: Aggregate, id: Uuid, owner: string, response: Option<Response>, now: Time)
    requires id in a.workOrders && a.workOrders[id].pollOwner == Some(owner)
    ensures PollSettled(a, PollEnds(a, id, owner, response, now), id, owner, response, now)
  {
    if response.Some? {
      StatusIsText(response.value.reply.status);
      PollIsExact(a, id, owner, response.value.reply, now);
    }
  }

  /**
    `StatusPollWorker.run_once`: claims the due order with the earliest poll time, checks the company, and looks the
    order up at most three times.
   */
  method PollStatus(store: Store, owner: string, expected: nat, company: Company, answers: nat -> Answer, now: Time)
    returns (claim: Option<Uuid>, tries: nat)
    modifies store
    ensures claim.None? ==>
              && store.View() == old(store.View()).(workOrders := ExpirePolls(old(store.workOrders), now))
              && forall id :: id in old(store.workOrders) ==> !PollDue(old(store.workOrders)[id], now)
    ensures claim.Some? ==> IsFirstDue(ExpirePolls(old(store.workOrders), now), claim.value, now)
    ensures claim.Some? ==>
              var claimed := ClaimPoll(old(store.View()), claim.value, owner, now);
              && claim.value in claimed.workOrders
              && store.View() ==
                   PollEnds(claimed, claim.value, owner,
                            if company == Company(expected) then FirstAnswer(Answers(answers)) else None, now)
              && PollSettled(claimed, store.View(), claim.value, owner,
                             if company == Company(expected) then FirstAnswer(Answers(answers)) else None, now)
    ensures tries <= POLL_TRIES && (tries > 0 ==> claim.Some? && company == Company(expected))
  {
    tries := 0;
    claim := store.ClaimStatusPoll(owner, now);
    if claim.None? {
      return;
    }
    var id := claim.value;
    PollIsSettled(store.View(), id, owner, if company == Company(expected) then FirstAnswer(Answers(answers)) else None, now);
    if company != Company(expected) {
      store.FailStatusPoll(id, owner, now);
      return;
    }
    tries := PollOnce(store, id, owner, answers, now);
  }

  /** The look-ups of a claimed poll and their outcome. */
  method PollOnce(store: Store, id: Uuid, owner: string, answers: nat -> Answer, now: Time) returns (tries: nat)
    requires id in store.workOrders
    modifies store
    ensures 1 <= tries <= POLL_TRIES
    ensures store.View() == PollEnds(old(store.View()), id, owner, FirstAnswer(Answers(answers)), now)
  {
    var response: Option<Response> := None;
    ghost var all := Answers(answers);
    tries := 0;
    while tries < POLL_TRIES
      invariant tries <= POLL_TRIES && response.None?
      invariant FirstAnswer(all) == FirstAnswer(all[tries..])
      invariant store.View() == old(store.View())
    {
      var answer := answers(tries);
      assert all[tries] == answer && all[tries..][1..] == all[tries + 1..];
      tries := tries + 1;
      if !answer.Down? {
        if answer.There? {
          response := Some(answer.response);
        }
        break;
      }
    }
    if response.None? || !IdentityMatches(response.value, id, store.workOrders[id].body) {
      store.FailStatusPoll(id, owner, now);
      return;
    }
    var result := store.ApplyPolledStatus(id, owner, response.value.reply, now);
    if result.StatusInvalid? {
      store.FailStatusPoll(id, owner, now);
    }
  }
}
