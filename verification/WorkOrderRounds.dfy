/** One undisturbed round of the work-order worker, and what it leaves behind. */
module WorkOrderRounds {
  import opened Basics
  import opened ClosedLoop
  import opened ClosedLoopInvariant
  import opened ClosedLoopTheorems
  import opened ClosedLoopHistory
  import opened ClosedLoopOutcomes
  import opened AlarmDelivery
  import opened AlarmRounds
  import opened WorkOrderDelivery
  import opened WorkOrderFeedback

  /** The company the CMMS credential belongs to, if the CMMS could be asked. */
  datatype Company = Unreachable | Company(id: nat)

  /** The look-up, and the post when the order is not there. */
  function Obtain(p: Plant, company: Company, weather: Weather, first: Entry): Plant {
    Do(Do(p, Ask(company.Company? && weather.reached)), Post(weather.effective, weather.answered, first))
  }

  function EndOfOrder(p: Plant, now: Time): Plant { Do(Do(Do(p, Save(now)), Bury), BackOff(now)) }

  /** What follows a claim; a deed that does not fit what the worker knows by then changes nothing. */
  function RestOfOrder(p: Plant, expected: nat, company: Company, now: Time, weather: Weather, first: Entry): Plant {
    var read := Do(p, ReadIntent);
    var asked := if company.Company? && company.id != expected then Do(read, Refuse) else read;
    EndOfOrder(Obtain(asked, company, weather, first), now)
  }

  /** `WorkOrderDeliveryWorker.run_once` on event `pick`. */
  function OrderRound(p: Plant, pick: nat, owner: string, expected: nat, company: Company, now: Time, weather: Weather,
                      first: Entry): Plant
  {
    RestOfOrder(Do(p, TakeCommand(pick, owner, now)), expected, company, now, weather, first)
  }

  // ---------------------------------------------------------------- what a round leaves behind

  ghost predicate HasOrder(orders: seq<CmmsOrder>, id: Uuid) {
    exists k :: 0 <= k < |orders| && orders[k].externalRef == id
  }

  /** The worker learns of the order: it was there and found, or the create took effect and was answered. */
  ghost predicate Learns(p: Plant, id: Uuid, expected: nat, company: Company, weather: Weather) {
    && company == Company(expected) && weather.reached
    && (HasOrder(p.orders, id) || (weather.effective && weather.answered))
  }

  /** A new order appears exactly when none was there and the create took effect; it has the stored body. */
  ghost predicate OrdersSettled(p: Plant, q: Plant, id: Uuid, expected: nat, company: Company, weather: Weather, first: Entry)
    requires id in p.db.workOrders
  {
    q.orders ==
    if company == Company(expected) && weather.reached && weather.effective && !HasOrder(p.orders, id)
    then p.orders + [CmmsOrder(id, p.db.workOrders[id].body, [first])] else p.orders
  }

  /** The newest thing the CMMS says about its order `k`. */
  function NewestReply(orders: seq<CmmsOrder>, k: nat): CmmsReply
    requires k < |orders| && orders[k].log != []
  {
    var n := |orders[k].log| - 1;
    CmmsReply(k, orders[k].log[n].status, n, orders[k].log[n].updatedAt)
  }

  ghost predicate CommandFailed(e: Event, f: Event, buried: bool, now: Time) {
    if buried || e.attempt == 7 then f.status.DeadLetter?
    else f.status.RetryWait? && f.availableAt == now + Pow2(e.attempt + 1)
  }

  /** The queue of a round that ends well: stale claims have expired, and the command is delivered. */
  function Ended(outbox: seq<Event>, event: nat, now: Time): seq<Event>
    requires event < |outbox|
  {
    var expired := ExpireLeases(outbox, WorkOrderCreate, now);
    expired[event := expired[event].(status := Delivered, attempt := outbox[event].attempt + 1, owner := None, expires := None)]
  }

  /** The order, its alert, the command and the alarm after the CMMS answered with a known status. */
  ghost predicate IsRecorded(p: Plant, q: Plant, event: nat, reply: CmmsReply, now: Time)
    requires event < |p.db.outbox| && p.db.outbox[event].alertId in p.db.workOrders
  {
    var id := p.db.outbox[event].alertId;
    && id < |p.db.alerts| && IsFollowed(p.db, q.db, id, reply, now)
    && q.db.workOrders[id].cmmsId == Some(reply.id)
    && FollowedByAlarm(p.db, Ended(p.db.outbox, event, now), q.db, id, now)
  }

  /** The command is buried or waits, and nothing else changes but claims that have expired. */
  ghost predicate IsPutOff(p: Plant, q: Plant, event: nat, buried: bool, now: Time)
    requires event < |p.db.outbox|
  {
    && q.db == p.db.(outbox := q.db.outbox) && |q.db.outbox| == |p.db.outbox|
    && (forall i :: 0 <= i < |p.db.outbox| && i != event ==>
          q.db.outbox[i] == ExpireEvent(p.db.outbox[i], WorkOrderCreate, now))
    && (var e, f := p.db.outbox[event], q.db.outbox[event];
        && f.kind == e.kind && f.alertId == e.alertId && f.version == e.version
        && f.attempt == e.attempt + 1 && f.owner.None? && f.expires.None?
        && CommandFailed(e, f, buried, now))
  }

  /** What a round that claimed `event` has done to the store and to the CMMS. */
  ghost predicate OrderSettled(p: Plant, q: Plant, event: nat, expected: nat, company: Company, now: Time, weather: Weather,
                               first: Entry)
    requires event < |p.db.outbox|
  {
    var id := p.db.outbox[event].alertId;
    && q.creator.Free? && id in p.db.workOrders
    && OrdersSettled(p, q, id, expected, company, weather, first)
    && (Learns(p, id, expected, company, weather) ==>
          exists k :: 0 <= k < |q.orders| && q.orders[k].externalRef == id && q.orders[k].log != []
            && if IsKnown(NewestReply(q.orders, k).status) then IsRecorded(p, q, event, NewestReply(q.orders, k), now)
               else IsPutOff(p, q, event, true, now))
    && (!Learns(p, id, expected, company, weather) ==>
          IsPutOff(p, q, event, company.Company? && company.id != expected, now))
  }

  // ---------------------------------------------------------------- the stages of a round

  /** The claim: only the queue changes, stale claims expire, and the command has one more attempt. */
  ghost predicate CommandClaimed(p: Plant, q: Plant, t: Ticket, now: Time)
    requires t.event < |p.db.outbox|
  {
    && q.orders == p.orders && q.db == p.db.(outbox := q.db.outbox) && |q.db.outbox| == |p.db.outbox|
    && (forall i :: 0 <= i < |p.db.outbox| && i != t.event ==>
          q.db.outbox[i] == ExpireEvent(p.db.outbox[i], WorkOrderCreate, now))
    && (var e, f := p.db.outbox[t.event], q.db.outbox[t.event];
        && e.attempt < 8
        && f == ExpireEvent(e, WorkOrderCreate, now).(status := InFlight, attempt := e.attempt + 1, owner := Some(t.owner),
                                                      expires := f.expires))
  }

  lemma CommandIsClaimed(p: Plant, event: nat, owner: string, now: Time)
    requires p.creator.Free? && CanTakeCommand(p.db, event, now)
    ensures var q := Do(p, TakeCommand(event, owner, now));
            q.creator == Holding(Ticket(event, owner)) && CommandClaimed(p, q, Ticket(event, owner), now)
  {
    assert ExpireLeases(p.db.outbox, WorkOrderCreate, now)[event] == ExpireEvent(p.db.outbox[event], WorkOrderCreate, now);
  }

  /** The end of a claim that is put off: `c` is the plant after the claim. */
  ghost predicate PutOffShape(c: Plant, q: Plant, event: nat, buried: bool, now: Time)
    requires event < |c.db.outbox|
  {
    && q.creator.Free? && q.orders == c.orders && q.db == c.db.(outbox := q.db.outbox)
    && |q.db.outbox| == |c.db.outbox|
    && (forall i :: 0 <= i < |c.db.outbox| && i != event ==> q.db.outbox[i] == c.db.outbox[i])
    && (var e, f := c.db.outbox[event], q.db.outbox[event];
        && f == e.(status := f.status, owner := None, expires := None, availableAt := f.availableAt)
        && if buried || e.attempt == 8 then f.status.DeadLetter?
           else f.status.RetryWait? && f.availableAt == now + Pow2(e.attempt))
  }

  lemma RetryingEnds(p: Plant, now: Time)
    requires p.creator.Retrying? && Holds(p.db, p.creator.ticket.event, p.creator.ticket.owner)
    requires 1 <= p.db.outbox[p.creator.ticket.event].attempt <= 8
    ensures PutOffShape(p, EndOfOrder(p, now), p.creator.ticket.event, false, now)
  {
    if p.db.outbox[p.creator.ticket.event].attempt < 8 {
      BackoffRange(p.db.outbox[p.creator.ticket.event].attempt);
    }
  }

  lemma RejectingEnds(p: Plant, now: Time)
    requires p.creator.Rejecting? && Holds(p.db, p.creator.ticket.event, p.creator.ticket.owner)
    ensures PutOffShape(p, EndOfOrder(p, now), p.creator.ticket.event, true, now)
  {}

  lemma UnknownEnds(p: Plant, now: Time)
    requires p.creator.Answered? && IdentityMatches(p.creator.response, p.creator.ref, p.creator.body)
    requires Holds(p.db, p.creator.ticket.event, p.creator.ticket.owner) && !IsKnown(p.creator.response.reply.status)
    ensures PutOffShape(p, EndOfOrder(p, now), p.creator.ticket.event, true, now)
  {
    StatusIsText(p.creator.response.reply.status);
    RejectingEnds(Do(p, Save(now)), now);
  }

  lemma KnownEnds(p: Plant, now: Time)
    requires p.creator.Answered? && IdentityMatches(p.creator.response, p.creator.ref, p.creator.body)
    requires IsKnown(p.creator.response.reply.status)
    ensures var c, q := p.creator, EndOfOrder(p, now);
            && q.creator.Free? && q.orders == p.orders
            && SaveOutcome(p.db, q.db, c.ticket.event, c.ticket.owner, c.response.reply, now)
  {
    StatusIsText(p.creator.response.reply.status);
    SaveIsExact(p.db, p.creator.ticket.event, p.creator.ticket.owner, p.creator.response.reply, now);
  }

  lemma PutOffSettles(p: Plant, c: Plant, q: Plant, t: Ticket, buried: bool, now: Time)
    requires t.event < |p.db.outbox| && CommandClaimed(p, c, t, now) && PutOffShape(c, q, t.event, buried, now)
    ensures IsPutOff(p, q, t.event, buried, now)
  {}

  lemma SavedSettles(p: Plant, c: Plant, q: Plant, t: Ticket, reply: CmmsReply, now: Time)
    requires t.event < |p.db.outbox| && CommandClaimed(p, c, t, now) && p.db.outbox[t.event].alertId in p.db.workOrders
    requires p.db.outbox[t.event].alertId < |p.db.alerts| && p.db.risk.Some? && IsKnown(reply.status)
    requires SaveOutcome(c.db, q.db, t.event, t.owner, reply, now)
    ensures IsRecorded(p, q, t.event, reply, now)
  {
    var done := c.db.outbox[t.event].(status := Delivered, owner := None, expires := None);
    assert c.db.outbox[t.event := done] == Ended(p.db.outbox, t.event, now);
  }

  // ---------------------------------------------------------------- look-up and post

  /** The worker holds the newest entry of order `k`, which has the reference it looks for. */
  ghost predicate AnswersOrder(u: Plant, t: Ticket, id: Uuid, k: nat) {
    && u.creator.Answered? && u.creator.ticket == t
    && k < |u.orders| && u.orders[k].externalRef == id && u.orders[k].log != []
    && u.creator.response.reply == NewestReply(u.orders, k)
  }

  ghost predicate ObtainShape(d: Plant, u: Plant, company: Company, weather: Weather, first: Entry)
    requires d.creator.Delivering?
  {
    var t, id := d.creator.ticket, d.creator.ref;
    var asked := company.Company? && weather.reached;
    && u.db == d.db
    && u.orders == (if asked && weather.effective && !HasOrder(d.orders, id)
                    then d.orders + [CmmsOrder(id, d.creator.body, [first])] else d.orders)
    && if asked && (HasOrder(d.orders, id) || (weather.effective && weather.answered))
       then exists k :: AnswersOrder(u, t, id, k) else u.creator == Retrying(t)
  }

  lemma OrderIsFound(d: Plant, company: Company, weather: Weather, first: Entry)
    requires d.creator.Delivering? && FindOrder(d.orders, d.creator.ref).Some?
    requires d.orders[FindOrder(d.orders, d.creator.ref).value].log != []
    ensures ObtainShape(d, Obtain(d, company, weather, first), company, weather, first)
  {
    var k, t, id := FindOrder(d.orders, d.creator.ref).value, d.creator.ticket, d.creator.ref;
    var u := Obtain(d, company, weather, first);
    assert HasOrder(d.orders, id);
    if company.Company? && weather.reached {
      assert AnswersOrder(u, t, id, k);
    }
  }

  lemma OrderIsPosted(d: Plant, company: Company, weather: Weather, first: Entry)
    requires d.creator.Delivering? && FindOrder(d.orders, d.creator.ref).None?
    ensures ObtainShape(d, Obtain(d, company, weather, first), company, weather, first)
  {
    var t, id := d.creator.ticket, d.creator.ref;
    var u := Obtain(d, company, weather, first);
    if company.Company? && weather.reached && weather.effective && weather.answered {
      assert AnswersOrder(u, t, id, |d.orders|);
    }
  }

  lemma OrderIsSought(d: Plant, company: Company, weather: Weather, first: Entry)
    requires PlantInv(d) && d.creator.Delivering?
    ensures ObtainShape(d, Obtain(d, company, weather, first), company, weather, first)
    ensures PlantInv(Obtain(d, company, weather, first))
  {
    var asked := company.Company? && weather.reached;
    LogsAreWritten(d);
    TwoDeedsKeepPlant(d, Ask(asked), Post(weather.effective, weather.answered, first));
    if FindOrder(d.orders, d.creator.ref).Some? {
      OrderIsFound(d, company, weather, first);
    } else {
      OrderIsPosted(d, company, weather, first);
    }
  }

  /** Without an intent the command is retried; for a foreign company it is buried. */
  lemma EarlyEnds(p: Plant, expected: nat, company: Company, now: Time, weather: Weather, first: Entry)
    requires p.creator.Holding?
    ensures var t, q := p.creator.ticket, RestOfOrder(p, expected, company, now, weather, first);
            && (Intent(p.db, t.event, t.owner).None? ==>
                  q == p.(db := RetryEvent(p.db, t.event, t.owner, now), creator := Free))
            && (Intent(p.db, t.event, t.owner).Some? && company.Company? && company.id != expected ==>
                  q == p.(db := FinishEvent(p.db, t.event, t.owner, DeadLetter), creator := Free))
  {}

  // ---------------------------------------------------------------- a whole round

  lemma RefusedEnds(d: Plant, company: Company, now: Time, weather: Weather, first: Entry)
    requires d.creator.Delivering? && Holds(d.db, d.creator.ticket.event, d.creator.ticket.owner)
    ensures var q := EndOfOrder(Obtain(Do(d, Refuse), company, weather, first), now);
            PutOffShape(d, q, d.creator.ticket.event, true, now)
  {
    assert Obtain(Do(d, Refuse), company, weather, first) == d.(creator := Rejecting(d.creator.ticket));
    RejectingEnds(d.(creator := Rejecting(d.creator.ticket)), now);
  }

  /** The end of a round whose worker has the order's newest entry, known or not. */
  ghost predicate AnswerSettled(d: Plant, u: Plant, q: Plant, k: nat, now: Time)
    requires d.creator.Delivering? && k < |u.orders| && u.orders[k].log != []
  {
    var t, reply := d.creator.ticket, NewestReply(u.orders, k);
    if IsKnown(reply.status) then
      q.creator.Free? && q.orders == u.orders && SaveOutcome(u.db, q.db, t.event, t.owner, reply, now)
    else t.event < |u.db.outbox| && PutOffShape(u, q, t.event, true, now)
  }

  lemma AnswerSettles(d: Plant, u: Plant, k: nat, now: Time)
    requires PlantInv(u) && d.creator.Delivering? && AnswersOrder(u, d.creator.ticket, d.creator.ref, k)
    ensures AnswerSettled(d, u, EndOfOrder(u, now), k, now)
  {
    AnswerFits(u);
    if IsKnown(u.creator.response.reply.status) {
      KnownEnds(u, now);
    } else {
      UnknownEnds(u, now);
    }
  }

  /** The claimed plant `c`, about to deliver its order. */
  ghost predicate IsDelivering(p: Plant, c: Plant, d: Plant, t: Ticket, now: Time)
    requires t.event < |p.db.outbox|
  {
    var id := p.db.outbox[t.event].alertId;
    && CommandClaimed(p, c, t, now) && id in p.db.workOrders && id < |p.db.alerts| && p.db.risk.Some?
    && d == c.(creator := Delivering(t, id, p.db.workOrders[id].body)) && PlantInv(d) && Holds(d.db, t.event, t.owner)
  }

  lemma CommandIsDelivering(p: Plant, event: nat, owner: string, now: Time)
    requires PlantInv(p) && p.creator.Free? && CanTakeCommand(p.db, event, now)
    ensures var c := Do(p, TakeCommand(event, owner, now));
            IsDelivering(p, c, Do(c, ReadIntent), Ticket(event, owner), now)
  {
    var c := Do(p, TakeCommand(event, owner, now));
    CommandIsClaimed(p, event, owner, now);
    TwoDeedsKeepPlant(p, TakeCommand(event, owner, now), ReadIntent);
    IntentShape(c);
    CommandTarget(c.db, event, owner);
  }

  lemma RefusedSettles(p: Plant, c: Plant, d: Plant, t: Ticket, expected: nat, company: Company, now: Time, weather: Weather,
                       first: Entry)
    requires t.event < |p.db.outbox| && IsDelivering(p, c, d, t, now) && company.Company? && company.id != expected
    ensures OrderSettled(p, EndOfOrder(Obtain(Do(d, Refuse), company, weather, first), now), t.event, expected, company, now,
                         weather, first)
  {
    var q := EndOfOrder(Obtain(Do(d, Refuse), company, weather, first), now);
    RefusedEnds(d, company, now, weather, first);
    assert PutOffShape(c, q, t.event, true, now);
    PutOffSettles(p, c, q, t, true, now);
  }

  lemma SoughtSettles(p: Plant, c: Plant, d: Plant, t: Ticket, expected: nat, company: Company, now: Time, weather: Weather,
                      first: Entry)
    requires t.event < |p.db.outbox| && IsDelivering(p, c, d, t, now) && !(company.Company? && company.id != expected)
    ensures OrderSettled(p, EndOfOrder(Obtain(d, company, weather, first), now), t.event, expected, company, now, weather, first)
  {
    var u := Obtain(d, company, weather, first);
    var q, id := EndOfOrder(u, now), p.db.outbox[t.event].alertId;
    OrderIsSought(d, company, weather, first);
    if Learns(p, id, expected, company, weather) {
      var k :| AnswersOrder(u, t, id, k);
      FoundSettles(p, c, d, u, t, k, now);
    } else {
      MissedSettles(p, c, d, u, t, now);
    }
  }

  lemma FoundSettles(p: Plant, c: Plant, d: Plant, u: Plant, t: Ticket, k: nat, now: Time)
    requires t.event < |p.db.outbox| && IsDelivering(p, c, d, t, now) && u.db == d.db && PlantInv(u)
    requires AnswersOrder(u, t, p.db.outbox[t.event].alertId, k)
    ensures var q := EndOfOrder(u, now);
            && q.creator.Free? && q.orders == u.orders
            && if IsKnown(NewestReply(u.orders, k).status) then IsRecorded(p, q, t.event, NewestReply(u.orders, k), now)
               else IsPutOff(p, q, t.event, true, now)
  {
    AnswerSettles(d, u, k, now);
    LearnedSettles(p, c, d, u, EndOfOrder(u, now), t, k, now);
  }

  lemma MissedSettles(p: Plant, c: Plant, d: Plant, u: Plant, t: Ticket, now: Time)
    requires t.event < |p.db.outbox| && IsDelivering(p, c, d, t, now) && u.db == d.db && PlantInv(u)
    requires u.creator == Retrying(t)
    ensures var q := EndOfOrder(u, now);
            q.creator.Free? && q.orders == u.orders && IsPutOff(p, q, t.event, false, now)
  {
    var q := EndOfOrder(u, now);
    assert LeaseOk(u.db.outbox[t.event]);
    RetryingEnds(u, now);
    assert PutOffShape(c.(orders := u.orders), q, t.event, false, now);
    PutOffSettles(p.(orders := u.orders), c.(orders := u.orders), q, t, false, now);
  }

  lemma LearnedSettles(p: Plant, c: Plant, d: Plant, u: Plant, q: Plant, t: Ticket, k: nat, now: Time)
    requires t.event < |p.db.outbox| && IsDelivering(p, c, d, t, now) && u.db == d.db
    requires k < |u.orders| && u.orders[k].log != [] && AnswerSettled(d, u, q, k, now)
    ensures q.orders == u.orders && q.creator.Free?
    ensures if IsKnown(NewestReply(u.orders, k).status) then IsRecorded(p, q, t.event, NewestReply(u.orders, k), now)
            else IsPutOff(p, q, t.event, true, now)
  {
    if IsKnown(NewestReply(u.orders, k).status) {
      SavedSettles(p, c, q, t, NewestReply(u.orders, k), now);
    } else {
      PutOffSettles(p.(orders := u.orders), c.(orders := u.orders), q, t, true, now);
    }
  }

  lemma OrderRoundKeepsPlant(p: Plant, pick: nat, owner: string, expected: nat, company: Company, now: Time, weather: Weather,
                             first: Entry)
    requires PlantInv(p)
    ensures PlantInv(OrderRound(p, pick, owner, expected, company, now, weather, first))
  {
    TwoDeedsKeepPlant(p, TakeCommand(pick, owner, now), ReadIntent);
    var d := Do(Do(p, TakeCommand(pick, owner, now)), ReadIntent);
    DoKeepsPlant(d, Refuse);
    var a := if company.Company? && company.id != expected then Do(d, Refuse) else d;
    TwoDeedsKeepPlant(a, Ask(company.Company? && weather.reached), Post(weather.effective, weather.answered, first));
    var u := Obtain(a, company, weather, first);
    TwoDeedsKeepPlant(u, Save(now), Bury);
    DoKeepsPlant(Do(Do(u, Save(now)), Bury), BackOff(now));
  }

  /**
    A round on a claimable command ends it. The CMMS gains an order exactly when it had none and the create took effect.
    The worker that learns of the order records its newest entry with the alert, the alarm and the delivery, or buries the
    command when the entry's status is unknown; otherwise the command waits or, after eight attempts or for a foreign
    company, is buried.
   */
  lemma OrderRoundSettles(p: Plant, event: nat, owner: string, expected: nat, company: Company, now: Time, weather: Weather,
                          first: Entry)
    requires PlantInv(p) && p.creator.Free? && CanTakeCommand(p.db, event, now)
    ensures PlantInv(OrderRound(p, event, owner, expected, company, now, weather, first))
    ensures OrderSettled(p, OrderRound(p, event, owner, expected, company, now, weather, first), event, expected, company, now,
                         weather, first)
  {
    OrderRoundKeepsPlant(p, event, owner, expected, company, now, weather, first);
    CommandIsDelivering(p, event, owner, now);
    var c := Do(p, TakeCommand(event, owner, now));
    if company.Company? && company.id != expected {
      RefusedSettles(p, c, Do(c, ReadIntent), Ticket(event, owner), expected, company, now, weather, first);
    } else {
      SoughtSettles(p, c, Do(c, ReadIntent), Ticket(event, owner), expected, company, now, weather, first);
    }
  }
}
