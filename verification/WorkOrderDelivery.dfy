/**
  The work-order creation worker and the status polls against the CMMS, interleaved with every other transaction,
  crashes, lost responses and late poll replies. One creation worker serves the risk key, only it creates work orders
  for these references, and a create takes effect when it is sent or never. The CMMS keeps the status of a work order
  as a log: event version `v` is entry `v`.
 */
module WorkOrderDelivery {
  import opened Basics
  import opened ClosedLoop
  import opened AlarmDelivery

  datatype Entry = Entry(status: string, updatedAt: Time)

  /** A CMMS work order; its id is its position. */
  datatype CmmsOrder = CmmsOrder(externalRef: Uuid, body: RequestBody, log: seq<Entry>)

  datatype Response = Response(externalRef: Uuid, echoed: RequestBody, reply: CmmsReply)

  function ReplyOf(orders: seq<CmmsOrder>, k: nat, version: nat): Response
    requires k < |orders| && version < |orders[k].log|
  {
    var o := orders[k];
    Response(o.externalRef, o.body, CmmsReply(k, o.log[version].status, version, o.log[version].updatedAt))
  }

  /** `find_work_order_by_external_ref`: the position of the first order with the reference. */
  function FindOrder(orders: seq<CmmsOrder>, ref: Uuid): (r: Option<nat>)
    ensures r.Some? ==> r.value < |orders| && orders[r.value].externalRef == ref
    ensures r.None? ==> forall k :: 0 <= k < |orders| ==> orders[k].externalRef != ref
  {
    if orders == [] then None
    else
      var n := |orders| - 1;
      var earlier := FindOrder(orders[..n], ref);
      if earlier.Some? then earlier else if orders[n].externalRef == ref then Some(n) else None
  }

  /** `work_order_identity_matches`. */
  predicate IdentityMatches(r: Response, ref: Uuid, body: RequestBody) {
    && r.externalRef == ref
    && r.echoed.provenance.correlationId == body.provenance.correlationId
    && r.echoed.key.equipmentId == body.key.equipmentId
    && r.echoed.alarmId == body.alarmId
    && r.echoed.provenance.modelProfileId == body.provenance.modelProfileId
    && r.echoed.provenance.modelInfoId == body.provenance.modelInfoId
    && r.echoed.provenance.policyVersion == body.provenance.policyVersion
    && r.echoed.assetId == body.assetId
  }

  datatype Creator =
    | Free
    | Holding(ticket: Ticket)
    | Delivering(ticket: Ticket, ref: Uuid, body: RequestBody)
    | Absent(ticket: Ticket, ref: Uuid, body: RequestBody)
    | Answered(ticket: Ticket, ref: Uuid, body: RequestBody, response: Response)
    | Retrying(ticket: Ticket)
    | Rejecting(ticket: Ticket)

  datatype Plant = Plant(db: Aggregate, orders: seq<CmmsOrder>, creator: Creator)

  function Begin(key: Key): Plant { Plant(Empty(key), [], Free) }

  datatype Deed =
    | Elsewhere(t: Txn)
    | Progress(k: nat, entry: Entry)
    | Polled(id: Uuid, owner: string, version: nat, now: Time)
    | TakeCommand(pick: nat, owner: string, now: Time)
    | ReadIntent
    | Refuse
    | Ask(reached: bool)
    | Post(effective: bool, answered: bool, first: Entry)
    | Save(now: Time)
    | BackOff(now: Time)
    | Bury
    | Die

  /** Transactions of the rounds, the operators, the alarm worker and the claims and failures of polls. */
  predicate ByElse(a: Aggregate, t: Txn) {
    match t
    case Claim(kind, _, _, _) => kind.AlarmSync?
    case SaveOrder(_, _, _, _) => false
    case FinishPoll(_, _, _, _) => false
    case Retry(event, _, _) => !IsCreateEvent(a, event)
    case GiveUp(event, _) => !IsCreateEvent(a, event)
    case _ => true
  }

  predicate CanTakeCommand(a: Aggregate, pick: nat, now: Time) {
    pick < |a.outbox| && Claimable(ExpireEvent(a.outbox[pick], WorkOrderCreate, now), WorkOrderCreate, now)
  }

  /** `work_order_delivery`. */
  function Intent(a: Aggregate, event: nat, owner: string): Option<RequestBody> {
    if Holds(a, event, owner) && a.outbox[event].alertId in a.workOrders
    then Some(a.workOrders[a.outbox[event].alertId].body) else None
  }

  /** A poll reply that shows entry `version` of the referenced order, however late it arrives. */
  function PollWith(p: Plant, id: Uuid, owner: string, version: nat, now: Time): Aggregate {
    var k := FindOrder(p.orders, id);
    if k.None? || version >= |p.orders[k.value].log| || id !in p.db.workOrders then p.db
    else
      var r := ReplyOf(p.orders, k.value, version);
      if IdentityMatches(r, id, p.db.workOrders[id].body) then ApplyStatus(p.db, id, owner, r.reply, now) else p.db
  }

  /** The end of `run_once`: a foreign identity or an unknown status is dead-lettered. */
  function SaveWith(p: Plant, now: Time): Plant
    requires p.creator.Answered?
  {
    var c := p.creator;
    if !IdentityMatches(c.response, c.ref, c.body) || MaintenanceOf(c.response.reply.status).None?
    then p.(creator := Rejecting(c.ticket))
    else p.(db := SaveCreated(p.db, c.ticket.event, c.ticket.owner, c.response.reply, now), creator := Free)
  }

  /** What the look-up leads to: a failure, nothing found, or the newest state of the order. */
  function Asked(orders: seq<CmmsOrder>, c: Creator, reached: bool): Creator
    requires c.Delivering?
  {
    var k := FindOrder(orders, c.ref);
    if !reached then Retrying(c.ticket)
    else if k.None? then Absent(c.ticket, c.ref, c.body)
    else if orders[k.value].log == [] then Retrying(c.ticket)
    else Answered(c.ticket, c.ref, c.body, ReplyOf(orders, k.value, |orders[k.value].log| - 1))
  }

  function Do(p: Plant, d: Deed): Plant {
    match d
    case Elsewhere(t) => if ByElse(p.db, t) then p.(db := Step(p.db, t)) else p
    case Progress(k, entry) =>
      if k < |p.orders| then p.(orders := p.orders[k := p.orders[k].(log := p.orders[k].log + [entry])]) else p
    case Polled(id, owner, version, now) => p.(db := PollWith(p, id, owner, version, now))
    case TakeCommand(pick, owner, now) =>
      if !p.creator.Free? then p
      else
        p.(db := ClaimOutbox(p.db, WorkOrderCreate, pick, owner, now),
           creator := if CanTakeCommand(p.db, pick, now) then Holding(Ticket(pick, owner)) else Free)
    case ReadIntent =>
      if !p.creator.Holding? then p
      else
        var t := p.creator.ticket;
        var intent := Intent(p.db, t.event, t.owner);
        p.(creator := if intent.Some? then Delivering(t, p.db.outbox[t.event].alertId, intent.value) else Retrying(t))
    case Refuse => if p.creator.Delivering? then p.(creator := Rejecting(p.creator.ticket)) else p
    case Ask(reached) =>
      if p.creator.Delivering? then p.(creator := Asked(p.orders, p.creator, reached)) else p
    case Post(effective, answered, first) =>
      if !p.creator.Absent? then p
      else
        var c := p.creator;
        var orders := if effective then p.orders + [CmmsOrder(c.ref, c.body, [first])] else p.orders;
        p.(orders := orders,
           creator := if effective && answered then Answered(c.ticket, c.ref, c.body, ReplyOf(orders, |p.orders|, 0))
                      else Retrying(c.ticket))
    case Save(now) => if p.creator.Answered? then SaveWith(p, now) else p
    case BackOff(now) =>
      if !p.creator.Retrying? then p
      else p.(db := RetryEvent(p.db, p.creator.ticket.event, p.creator.ticket.owner, now), creator := Free)
    case Bury =>
      if !p.creator.Rejecting? then p
      else p.(db := FinishEvent(p.db, p.creator.ticket.event, p.creator.ticket.owner, DeadLetter), creator := Free)
    case Die => p.(creator := Free)
  }

  function DoAll(p: Plant, deeds: seq<Deed>): Plant {
    if deeds == [] then p else Do(DoAll(p, deeds[..|deeds| - 1]), deeds[|deeds| - 1])
  }

  lemma DoOne(p: Plant, d: Deed)
    ensures DoAll(p, [d]) == Do(p, d)
  {
    assert [d][..0] == [];
  }

  lemma {:induction false} DoConcat(p: Plant, before: seq<Deed>, after: seq<Deed>)
    ensures DoAll(p, before + after) == DoAll(DoAll(p, before), after)
  {
    if after == [] {
      assert before + after == before;
    } else {
      var n := |after| - 1;
      DoConcat(p, before, after[..n]);
      assert (before + after)[..|before + after| - 1] == before + after[..n];
    }
  }

  /** Transactions that anyone but the creation worker and the polls may commit in any state. */
  predicate Ordinary(t: Txn) { t.NewSlot? || t.SucceedRound? || t.FailRound? || t.Create? || t.Close? }

  function Elsewheres(ts: seq<Txn>): (r: seq<Deed>)
    ensures |r| == |ts| && forall i :: 0 <= i < |ts| ==> r[i] == Elsewhere(ts[i])
  {
    seq(|ts|, i requires 0 <= i < |ts| => Elsewhere(ts[i]))
  }

  lemma {:induction false} ElsewherePlays(p: Plant, ts: seq<Txn>)
    requires forall i :: 0 <= i < |ts| ==> Ordinary(ts[i])
    ensures DoAll(p, Elsewheres(ts)) == p.(db := Run(p.db, ts))
  {
    if ts != [] {
      var n := |ts| - 1;
      ElsewherePlays(p, ts[..n]);
      assert Elsewheres(ts)[..n] == Elsewheres(ts[..n]);
    }
  }
}

/** At most one CMMS work order per alert, the approved body in it, and only genuine statuses stored. */
module WorkOrderFeedback {
  import opened Basics
  import opened ClosedLoop
  import opened ClosedLoopInvariant
  import opened ClosedLoopEvolution
  import opened ClosedLoopTheorems
  import opened ClosedLoopHistory
  import opened AlarmDelivery
  import opened WorkOrderDelivery

  // ---------------------------------------------------------------- the invariant

  ghost predicate OrderFor(a: Aggregate, o: CmmsOrder) {
    o.log != [] && o.externalRef in a.workOrders && o.body == a.workOrders[o.externalRef].body
  }

  ghost predicate OneOrderPerAlert(orders: seq<CmmsOrder>) {
    forall i: nat, j: nat :: i < |orders| && j < |orders| && orders[i].externalRef == orders[j].externalRef ==> i == j
  }

  predicate Shown(orders: seq<CmmsOrder>, k: nat, version: nat, id: Uuid, status: string, updatedAt: Time) {
    && k < |orders| && orders[k].externalRef == id
    && version < |orders[k].log| && orders[k].log[version] == Entry(status, updatedAt)
  }

  /** What is recorded about alert `id` is an entry the CMMS really wrote for it. */
  predicate Genuine(orders: seq<CmmsOrder>, id: Uuid, record: OrderDetails) {
    record.cmmsId.Some? ==>
      && record.eventVersion.Some? && record.status.Some? && record.updatedAt.Some?
      && Shown(orders, record.cmmsId.value, record.eventVersion.value, id, record.status.value, record.updatedAt.value)
  }

  ghost predicate CmmsOk(a: Aggregate, orders: seq<CmmsOrder>) {
    && (forall k :: 0 <= k < |orders| ==> OrderFor(a, orders[k]))
    && OneOrderPerAlert(orders)
    && forall id: Uuid :: Genuine(orders, id, RecordOf(a, id))
  }

  predicate HasIntent(c: Creator) { c.Delivering? || c.Absent? || c.Answered? }

  ghost predicate IntentOk(a: Aggregate, orders: seq<CmmsOrder>, c: Creator)
    requires HasIntent(c) && IsCreateEvent(a, c.ticket.event)
  {
    && c.ref == a.outbox[c.ticket.event].alertId
    && c.ref in a.workOrders && c.body == a.workOrders[c.ref].body
    && (c.Absent? ==> forall k :: 0 <= k < |orders| ==> orders[k].externalRef != c.ref)
    && (c.Answered? ==>
          var r := c.response.reply;
          && Shown(orders, r.id, r.eventVersion, c.ref, r.status, r.updatedAt)
          && c.response.externalRef == c.ref && c.response.echoed == c.body)
  }

  ghost predicate CreatorOk(a: Aggregate, orders: seq<CmmsOrder>, c: Creator) {
    c.Free? || (
      && IsCreateEvent(a, c.ticket.event) && Holds(a, c.ticket.event, c.ticket.owner)
      && (HasIntent(c) ==> IntentOk(a, orders, c)))
  }

  ghost predicate PlantInv(p: Plant) {
    Inv(p.db) && CmmsOk(p.db, p.orders) && CreatorOk(p.db, p.orders, p.creator)
  }

  lemma BeginInv(key: Key)
    ensures PlantInv(Begin(key))
  {
    EmptyInv(key);
  }

  // ---------------------------------------------------------------- transactions elsewhere

  /** The create commands in flight and the work-order bodies stay. */
  ghost predicate ElseMove(a: Aggregate, b: Aggregate) {
    && Inv(a) && Inv(b) && Grows(a, b)
    && forall i :: 0 <= i < |a.outbox| && a.outbox[i].kind.WorkOrderCreate? && a.outbox[i].status.InFlight? ==>
         b.outbox[i] == a.outbox[i]
  }

  lemma CommandsRest(a: Aggregate, t: Txn, i: nat)
    requires ByElse(a, t)
    requires i < |a.outbox| && a.outbox[i].kind.WorkOrderCreate? && a.outbox[i].status.InFlight?
    ensures i < |Step(a, t).outbox| && Step(a, t).outbox[i] == a.outbox[i]
  {
    if t.Claim? {
      assert ExpireLeases(a.outbox, t.kind, t.now)[i] == ExpireEvent(a.outbox[i], t.kind, t.now);
    } else if EndsClaim(t) {
      EndedClaim(a, t, i);
    } else {
      StepRests(a, t);
      assert EventRests(a.outbox[i], Step(a, t).outbox[i]);
    }
  }

  lemma ElseDoes(a: Aggregate, t: Txn)
    requires Inv(a) && ByElse(a, t)
    ensures ElseMove(a, Step(a, t))
  {
    StepKeepsInv(a, t);
    StepGrows(a, t);
    forall i | 0 <= i < |a.outbox| && a.outbox[i].kind.WorkOrderCreate? && a.outbox[i].status.InFlight?
      ensures Step(a, t).outbox[i] == a.outbox[i]
    {
      CommandsRest(a, t, i);
    }
  }

  lemma ElseKeepsIntent(a: Aggregate, b: Aggregate, orders: seq<CmmsOrder>, c: Creator)
    requires Grows(a, b) && HasIntent(c) && IsCreateEvent(a, c.ticket.event) && IntentOk(a, orders, c)
    requires IsCreateEvent(b, c.ticket.event) && b.outbox[c.ticket.event].alertId == a.outbox[c.ticket.event].alertId
    ensures IntentOk(b, orders, c)
  {
    assert OrderGrows(a.workOrders[c.ref], b.workOrders[c.ref]);
  }

  lemma ElseKeepsClaim(a: Aggregate, b: Aggregate, event: nat, owner: string)
    requires ElseMove(a, b) && IsCreateEvent(a, event) && Holds(a, event, owner)
    ensures IsCreateEvent(b, event) && Holds(b, event, owner) && b.outbox[event] == a.outbox[event]
  {}

  lemma ElseKeepsCreator(a: Aggregate, b: Aggregate, orders: seq<CmmsOrder>, c: Creator)
    requires ElseMove(a, b) && CreatorOk(a, orders, c)
    ensures CreatorOk(b, orders, c)
  {
    if !c.Free? {
      ElseKeepsClaim(a, b, c.ticket.event, c.ticket.owner);
      if HasIntent(c) {
        ElseKeepsIntent(a, b, orders, c);
      }
    }
  }

  lemma ElseKeepsOrders(a: Aggregate, b: Aggregate, orders: seq<CmmsOrder>)
    requires Grows(a, b) && forall k :: 0 <= k < |orders| ==> OrderFor(a, orders[k])
    ensures forall k :: 0 <= k < |orders| ==> OrderFor(b, orders[k])
  {
    forall k | 0 <= k < |orders| ensures OrderFor(b, orders[k]) {
      assert OrderFor(a, orders[k]);
      assert OrderGrows(a.workOrders[orders[k].externalRef], b.workOrders[orders[k].externalRef]);
    }
  }

  lemma ElseKeepsPlant(p: Plant, t: Txn)
    requires PlantInv(p) && ByElse(p.db, t)
    ensures PlantInv(Do(p, Elsewhere(t)))
  {
    var b := Step(p.db, t);
    ElseDoes(p.db, t);
    ElseKeepsCreator(p.db, b, p.orders, p.creator);
    ElseKeepsOrders(p.db, b, p.orders);
    forall id: Uuid ensures Genuine(p.orders, id, RecordOf(b, id)) {
      RecordFrame(p.db, t, id);
      assert Genuine(p.orders, id, RecordOf(p.db, id));
    }
  }

  // ---------------------------------------------------------------- the CMMS moves on, and is polled

  function Logged(orders: seq<CmmsOrder>, k: nat, entry: Entry): seq<CmmsOrder>
    requires k < |orders|
  {
    orders[k := orders[k].(log := orders[k].log + [entry])]
  }

  lemma LogKeepsOrders(a: Aggregate, orders: seq<CmmsOrder>, k: nat, entry: Entry)
    requires CmmsOk(a, orders) && k < |orders|
    ensures CmmsOk(a, Logged(orders, k, entry))
  {
    var after := Logged(orders, k, entry);
    forall i | 0 <= i < |after| ensures OrderFor(a, after[i]) {
      assert OrderFor(a, orders[i]);
    }
    forall id: Uuid ensures Genuine(after, id, RecordOf(a, id)) {
      assert Genuine(orders, id, RecordOf(a, id));
    }
  }

  lemma LogKeepsCreator(a: Aggregate, orders: seq<CmmsOrder>, c: Creator, k: nat, entry: Entry)
    requires CreatorOk(a, orders, c) && k < |orders|
    ensures CreatorOk(a, Logged(orders, k, entry), c)
  {}

  lemma ProgressKeepsPlant(p: Plant, k: nat, entry: Entry)
    requires PlantInv(p)
    ensures PlantInv(Do(p, Progress(k, entry)))
  {
    if k < |p.orders| {
      LogKeepsOrders(p.db, p.orders, k, entry);
      LogKeepsCreator(p.db, p.orders, p.creator, k, entry);
      assert Do(p, Progress(k, entry)) == p.(orders := Logged(p.orders, k, entry));
    }
  }

  /** A poll under a lease only concerns an order that was created. */
  lemma PolledOrderIsCreated(a: Aggregate, id: Uuid, owner: string, reply: CmmsReply)
    requires Inv(a) && !PollDecision(a, id, owner, reply).LeaseLost?
    ensures id in a.workOrders && a.workOrders[id].cmmsId.Some?
  {
    assert OrderOk(a.key, id, a.alerts[id], a.workOrders[id]);
  }

  lemma PollRecords(a: Aggregate, id: Uuid, owner: string, reply: CmmsReply, now: Time, other: Uuid)
    ensures RecordOf(ApplyStatus(a, id, owner, reply, now), other) ==
              if other == id && PollDecision(a, id, owner, reply).Applied?
              then OrderDetails(RecordOf(a, id).cmmsId, Some(reply.status), Some(reply.eventVersion), Some(reply.updatedAt))
              else RecordOf(a, other)
  {}

  lemma PollDoes(a: Aggregate, id: Uuid, owner: string, reply: CmmsReply, now: Time)
    requires Inv(a)
    ensures ElseMove(a, ApplyStatus(a, id, owner, reply, now))
  {
    var b := ApplyStatus(a, id, owner, reply, now);
    assert Inv(b) by { ApplyStatusKeepsInv(a, id, owner, reply, now); }
    assert Grows(a, b) by { PollGrows(a, id, owner, reply, now); }
    PollRests(a, id, owner, reply, now);
    forall i | 0 <= i < |a.outbox| && a.outbox[i].kind.WorkOrderCreate? && a.outbox[i].status.InFlight?
      ensures b.outbox[i] == a.outbox[i]
    {
      assert EventRests(a.outbox[i], b.outbox[i]);
    }
  }

  lemma PolledGenuine(a: Aggregate, orders: seq<CmmsOrder>, k: nat, version: nat, id: Uuid, owner: string, now: Time,
                      other: Uuid)
    requires Inv(a) && OneOrderPerAlert(orders)
    requires k < |orders| && orders[k].externalRef == id && version < |orders[k].log|
    requires Genuine(orders, other, RecordOf(a, other)) && Genuine(orders, id, RecordOf(a, id))
    ensures Genuine(orders, other, RecordOf(ApplyStatus(a, id, owner, ReplyOf(orders, k, version).reply, now), other))
  {
    var reply := ReplyOf(orders, k, version).reply;
    PollRecords(a, id, owner, reply, now, other);
    if other == id && PollDecision(a, id, owner, reply).Applied? {
      PolledOrderIsCreated(a, id, owner, reply);
    }
  }

  lemma PolledDb(p: Plant, b: Aggregate, k: nat, version: nat, id: Uuid, owner: string, now: Time)
    requires PlantInv(p) && k < |p.orders| && p.orders[k].externalRef == id && version < |p.orders[k].log|
    requires b == ApplyStatus(p.db, id, owner, ReplyOf(p.orders, k, version).reply, now)
    ensures PlantInv(p.(db := b))
  {
    PollDoes(p.db, id, owner, ReplyOf(p.orders, k, version).reply, now);
    ElseKeepsCreator(p.db, b, p.orders, p.creator);
    ElseKeepsOrders(p.db, b, p.orders);
    forall other: Uuid ensures Genuine(p.orders, other, RecordOf(b, other)) {
      PolledGenuine(p.db, p.orders, k, version, id, owner, now, other);
    }
  }

  lemma PollIsStatus(p: Plant, id: Uuid, owner: string, version: nat, now: Time)
    ensures var b := PollWith(p, id, owner, version, now);
            b == p.db || (exists k :: 0 <= k < |p.orders| && p.orders[k].externalRef == id && version < |p.orders[k].log|
                            && b == ApplyStatus(p.db, id, owner, ReplyOf(p.orders, k, version).reply, now))
  {}

  lemma PolledKeepsPlant(p: Plant, id: Uuid, owner: string, version: nat, now: Time)
    requires PlantInv(p)
    ensures PlantInv(Do(p, Polled(id, owner, version, now)))
  {
    var b := PollWith(p, id, owner, version, now);
    assert Do(p, Polled(id, owner, version, now)) == p.(db := b);
    PollIsStatus(p, id, owner, version, now);
    if b == p.db {
      assert p.(db := b) == p;
    } else {
      var k :| 0 <= k < |p.orders| && p.orders[k].externalRef == id && version < |p.orders[k].log|
               && b == ApplyStatus(p.db, id, owner, ReplyOf(p.orders, k, version).reply, now);
      PolledDb(p, b, k, version, id, owner, now);
    }
  }

  // ---------------------------------------------------------------- the creation worker

  /** A step of the worker that leaves alerts and work orders alone. */
  lemma QueueOnlyKeepsPlant(p: Plant, outbox: seq<Event>)
    requires PlantInv(p) && Inv(p.db.(outbox := outbox))
    ensures PlantInv(p.(db := p.db.(outbox := outbox), creator := Free))
  {
    var b := p.db.(outbox := outbox);
    forall k | 0 <= k < |p.orders| ensures OrderFor(b, p.orders[k]) {
      assert OrderFor(p.db, p.orders[k]);
    }
    forall id: Uuid ensures Genuine(p.orders, id, RecordOf(b, id)) {
      assert Genuine(p.orders, id, RecordOf(p.db, id));
    }
  }

  lemma CommandTaken(a: Aggregate, pick: nat, owner: string, now: Time)
    ensures var b := ClaimOutbox(a, WorkOrderCreate, pick, owner, now);
            && b == a.(outbox := b.outbox)
            && (CanTakeCommand(a, pick, now) ==> IsCreateEvent(b, pick) && Holds(b, pick, owner))
  {
    if pick < |a.outbox| {
      assert ExpireLeases(a.outbox, WorkOrderCreate, now)[pick] == ExpireEvent(a.outbox[pick], WorkOrderCreate, now);
    }
  }

  lemma TakeCommandKeepsPlant(p: Plant, pick: nat, owner: string, now: Time)
    requires PlantInv(p)
    ensures PlantInv(Do(p, TakeCommand(pick, owner, now)))
  {
    if p.creator.Free? {
      var b := ClaimOutbox(p.db, WorkOrderCreate, pick, owner, now);
      assert Inv(b) by { ClaimKeepsInv(p.db, WorkOrderCreate, pick, owner, now); }
      CommandTaken(p.db, pick, owner, now);
      QueueOnlyKeepsPlant(p, b.outbox);
      if CanTakeCommand(p.db, pick, now) {
        CreatorMoves(p.(db := b), Holding(Ticket(pick, owner)));
      }
    }
  }

  lemma CreatorMoves(p: Plant, c: Creator)
    requires PlantInv(p) && CreatorOk(p.db, p.orders, c)
    ensures PlantInv(p.(creator := c))
  {}

  lemma IntentIsOk(a: Aggregate, orders: seq<CmmsOrder>, t: Ticket)
    requires CreatorOk(a, orders, Holding(t))
    ensures CreatorOk(a, orders, Retrying(t))
    ensures Intent(a, t.event, t.owner).Some? ==>
              CreatorOk(a, orders, Delivering(t, a.outbox[t.event].alertId, Intent(a, t.event, t.owner).value))
  {}

  lemma ReadIntentKeepsPlant(p: Plant)
    requires PlantInv(p)
    ensures PlantInv(Do(p, ReadIntent))
  {
    if p.creator.Holding? {
      IntentIsOk(p.db, p.orders, p.creator.ticket);
      CreatorMoves(p, Do(p, ReadIntent).creator);
    }
  }

  lemma AskedIsOk(a: Aggregate, orders: seq<CmmsOrder>, c: Creator, reached: bool)
    requires CreatorOk(a, orders, c) && c.Delivering?
    requires forall k :: 0 <= k < |orders| ==> OrderFor(a, orders[k])
    ensures CreatorOk(a, orders, Asked(orders, c, reached))
  {
    var k := FindOrder(orders, c.ref);
    if k.Some? {
      assert OrderFor(a, orders[k.value]);
    }
  }

  lemma AskKeepsPlant(p: Plant, reached: bool)
    requires PlantInv(p)
    ensures PlantInv(Do(p, Ask(reached)))
  {
    if p.creator.Delivering? {
      AskedIsOk(p.db, p.orders, p.creator, reached);
      CreatorMoves(p, Asked(p.orders, p.creator, reached));
    }
  }

  lemma PostKeepsOrders(a: Aggregate, orders: seq<CmmsOrder>, o: CmmsOrder)
    requires CmmsOk(a, orders) && OrderFor(a, o)
    requires forall k :: 0 <= k < |orders| ==> orders[k].externalRef != o.externalRef
    ensures CmmsOk(a, orders + [o])
  {
    var after := orders + [o];
    forall k | 0 <= k < |after| ensures OrderFor(a, after[k]) {
      if k < |orders| {
        assert OrderFor(a, orders[k]);
      }
    }
    forall id: Uuid ensures Genuine(after, id, RecordOf(a, id)) {
      assert Genuine(orders, id, RecordOf(a, id));
    }
  }

  lemma PostIsAnswered(a: Aggregate, orders: seq<CmmsOrder>, c: Creator, first: Entry)
    requires CreatorOk(a, orders, c) && c.Absent?
    ensures var after := orders + [CmmsOrder(c.ref, c.body, [first])];
            CreatorOk(a, after, Answered(c.ticket, c.ref, c.body, ReplyOf(after, |orders|, 0)))
    ensures CreatorOk(a, orders, Retrying(c.ticket))
    ensures OrderFor(a, CmmsOrder(c.ref, c.body, [first]))
    ensures forall k :: 0 <= k < |orders| ==> orders[k].externalRef != c.ref
  {}

  lemma PostKeepsPlant(p: Plant, effective: bool, answered: bool, first: Entry)
    requires PlantInv(p)
    ensures PlantInv(Do(p, Post(effective, answered, first)))
  {
    if p.creator.Absent? {
      var c, q := p.creator, Do(p, Post(effective, answered, first));
      PostIsAnswered(p.db, p.orders, c, first);
      if effective {
        PostKeepsOrders(p.db, p.orders, CmmsOrder(c.ref, c.body, [first]));
      }
      assert q.db == p.db && Inv(q.db);
      assert CreatorOk(q.db, q.orders, q.creator);
    }
  }

  lemma SaveRecords(a: Aggregate, event: nat, owner: string, reply: CmmsReply, now: Time, id: Uuid)
    requires var b := SaveCreated(a, event, owner, reply, now);
             RecordOf(b, id) != RecordOf(a, id)
    ensures Holds(a, event, owner) && id == a.outbox[event].alertId
    ensures RecordOf(SaveCreated(a, event, owner, reply, now), id) ==
              OrderDetails(Some(reply.id), Some(reply.status), Some(reply.eventVersion), Some(reply.updatedAt))
  {}

  lemma SavedKeepsPlant(p: Plant, b: Aggregate, now: Time)
    requires PlantInv(p) && p.creator.Answered?
    requires b == SaveCreated(p.db, p.creator.ticket.event, p.creator.ticket.owner, p.creator.response.reply, now)
    ensures PlantInv(p.(db := b, creator := Free))
  {
    var c := p.creator;
    assert Inv(b) by { SaveCreatedKeepsInv(p.db, c.ticket.event, c.ticket.owner, c.response.reply, now); }
    assert Grows(p.db, b) by { SaveCreatedGrows(p.db, c.ticket.event, c.ticket.owner, c.response.reply, now); }
    ElseKeepsOrders(p.db, b, p.orders);
    forall id: Uuid ensures Genuine(p.orders, id, RecordOf(b, id)) {
      assert Genuine(p.orders, id, RecordOf(p.db, id));
      if RecordOf(b, id) != RecordOf(p.db, id) {
        SaveRecords(p.db, c.ticket.event, c.ticket.owner, c.response.reply, now, id);
      }
    }
  }

  lemma RejectingIsOk(a: Aggregate, orders: seq<CmmsOrder>, c: Creator)
    requires CreatorOk(a, orders, c) && !c.Free?
    ensures CreatorOk(a, orders, Rejecting(c.ticket))
  {}

  lemma SaveKeepsPlant(p: Plant, now: Time)
    requires PlantInv(p)
    ensures PlantInv(Do(p, Save(now)))
  {
    if p.creator.Answered? {
      var c := p.creator;
      if !IdentityMatches(c.response, c.ref, c.body) || MaintenanceOf(c.response.reply.status).None? {
        RejectingIsOk(p.db, p.orders, c);
        CreatorMoves(p, Rejecting(c.ticket));
      } else {
        SavedKeepsPlant(p, SaveCreated(p.db, c.ticket.event, c.ticket.owner, c.response.reply, now), now);
      }
    }
  }

  lemma BackOffKeepsPlant(p: Plant, now: Time)
    requires PlantInv(p)
    ensures PlantInv(Do(p, BackOff(now)))
  {
    if p.creator.Retrying? {
      var b := RetryEvent(p.db, p.creator.ticket.event, p.creator.ticket.owner, now);
      assert Inv(b) by { RetryKeepsInv(p.db, p.creator.ticket.event, p.creator.ticket.owner, now); }
      QueueOnlyKeepsPlant(p, b.outbox);
    }
  }

  lemma BuryKeepsPlant(p: Plant)
    requires PlantInv(p)
    ensures PlantInv(Do(p, Bury))
  {
    if p.creator.Rejecting? {
      var b := FinishEvent(p.db, p.creator.ticket.event, p.creator.ticket.owner, DeadLetter);
      assert Inv(b) by { FinishKeepsInv(p.db, p.creator.ticket.event, p.creator.ticket.owner, DeadLetter); }
      QueueOnlyKeepsPlant(p, b.outbox);
    }
  }

  // ---------------------------------------------------------------- every deed, every history

  lemma DoKeepsPlant(p: Plant, d: Deed)
    requires PlantInv(p)
    ensures PlantInv(Do(p, d))
  {
    match d
    case Elsewhere(t) => if ByElse(p.db, t) { ElseKeepsPlant(p, t); }
    case Progress(k, entry) => ProgressKeepsPlant(p, k, entry);
    case Polled(id, owner, version, now) => PolledKeepsPlant(p, id, owner, version, now);
    case TakeCommand(pick, owner, now) => TakeCommandKeepsPlant(p, pick, owner, now);
    case ReadIntent => ReadIntentKeepsPlant(p);
    case Refuse =>
      if p.creator.Delivering? {
        RejectingIsOk(p.db, p.orders, p.creator);
        CreatorMoves(p, Rejecting(p.creator.ticket));
      }
    case Ask(reached) => AskKeepsPlant(p, reached);
    case Post(effective, answered, first) => PostKeepsPlant(p, effective, answered, first);
    case Save(now) => SaveKeepsPlant(p, now);
    case BackOff(now) => BackOffKeepsPlant(p, now);
    case Bury => BuryKeepsPlant(p);
    case Die =>
  }

  lemma {:induction false} DoAllKeepsPlant(p: Plant, deeds: seq<Deed>)
    requires PlantInv(p)
    ensures PlantInv(DoAll(p, deeds))
  {
    if deeds != [] {
      DoAllKeepsPlant(p, deeds[..|deeds| - 1]);
      DoKeepsPlant(DoAll(p, deeds[..|deeds| - 1]), deeds[|deeds| - 1]);
    }
  }

  /**
    Over every history: the CMMS holds at most one work order per alert, each with exactly the body stored when the
    create was accepted, and every recorded id, status and version was really written by the CMMS for that alert.
   */
  lemma OneGenuineOrder(key: Key, deeds: seq<Deed>)
    ensures var p := DoAll(Begin(key), deeds);
            && OneOrderPerAlert(p.orders)
            && (forall k :: 0 <= k < |p.orders| ==> OrderFor(p.db, p.orders[k]))
            && (forall id: Uuid :: Genuine(p.orders, id, RecordOf(p.db, id)))
  {
    BeginInv(key);
    DoAllKeepsPlant(Begin(key), deeds);
  }

  /** The worker always finds its intent, and a response is never rejected for a foreign identity. */
  lemma IntentIsNeverLost(key: Key, deeds: seq<Deed>)
    ensures var p := DoAll(Begin(key), deeds);
            && (p.creator.Holding? ==> Do(p, ReadIntent).creator.Delivering?)
            && (p.creator.Answered? ==> IdentityMatches(p.creator.response, p.creator.ref, p.creator.body))
  {
    BeginInv(key);
    DoAllKeepsPlant(Begin(key), deeds);
    var p := DoAll(Begin(key), deeds);
    if p.creator.Holding? {
      IntentShape(p);
    }
    if p.creator.Answered? {
      AnswerFits(p);
    }
  }

  // ---------------------------------------------------------------- an undisturbed round

  /** The round of the worker over a reachable CMMS: claim, read, look up, post if nothing was there, save or bury. */
  function Round(p: Plant, event: nat, owner: string, now: Time, first: Entry): Plant {
    Do(Do(Do(Do(Do(Do(p, TakeCommand(event, owner, now)), ReadIntent), Ask(true)), Post(true, true, first)), Save(now)), Bury)
  }

  lemma TwoDeedsKeepPlant(p: Plant, d: Deed, e: Deed)
    requires PlantInv(p)
    ensures PlantInv(Do(p, d)) && PlantInv(Do(Do(p, d), e))
  {
    DoKeepsPlant(p, d);
    DoKeepsPlant(Do(p, d), e);
  }

  lemma CommandShape(p: Plant, event: nat, owner: string, now: Time)
    requires p.creator.Free? && CanTakeCommand(p.db, event, now)
    ensures var q := Do(p, TakeCommand(event, owner, now));
            && q.orders == p.orders && q.creator == Holding(Ticket(event, owner)) && q.db.workOrders == p.db.workOrders
            && event < |q.db.outbox| && q.db.outbox[event].alertId == p.db.outbox[event].alertId
  {
    CommandTaken(p.db, event, owner, now);
    assert ExpireLeases(p.db.outbox, WorkOrderCreate, now)[event] == ExpireEvent(p.db.outbox[event], WorkOrderCreate, now);
  }

  lemma IntentShape(p: Plant)
    requires PlantInv(p) && p.creator.Holding?
    ensures var t := p.creator.ticket;
            && t.event < |p.db.outbox| && p.db.outbox[t.event].alertId in p.db.workOrders
            && var id := p.db.outbox[t.event].alertId;
               Do(p, ReadIntent) == p.(creator := Delivering(t, id, p.db.workOrders[id].body))
  {}

  lemma CommandIsRead(p: Plant, event: nat, owner: string, now: Time)
    requires PlantInv(p) && p.creator.Free? && CanTakeCommand(p.db, event, now)
    ensures var q, id := Do(Do(p, TakeCommand(event, owner, now)), ReadIntent), p.db.outbox[event].alertId;
            && q.orders == p.orders && id in p.db.workOrders
            && q.creator == Delivering(Ticket(event, owner), id, p.db.workOrders[id].body)
  {
    CommandShape(p, event, owner, now);
    TakeCommandKeepsPlant(p, event, owner, now);
    IntentShape(Do(p, TakeCommand(event, owner, now)));
  }

  lemma FindNew(orders: seq<CmmsOrder>, o: CmmsOrder)
    requires forall k :: 0 <= k < |orders| ==> orders[k].externalRef != o.externalRef
    ensures FindOrder(orders + [o], o.externalRef) == Some(|orders|)
  {
    assert (orders + [o])[..|orders|] == orders;
  }

  /** The CMMS has the worker's order, and the worker holds its newest entry. */
  ghost predicate AnswersNewest(p: Plant) {
    && p.creator.Answered? && FindOrder(p.orders, p.creator.ref).Some?
    && var k := FindOrder(p.orders, p.creator.ref).value;
       p.orders[k].log != [] && p.creator.response == ReplyOf(p.orders, k, |p.orders[k].log| - 1)
  }

  /** What the look-up and the post lead to. */
  ghost predicate Obtained(p: Plant, q: Plant, first: Entry)
    requires p.creator.Delivering?
  {
    var c := p.creator;
    && AnswersNewest(q) && q.creator.ticket == c.ticket && q.creator.ref == c.ref
    && q.orders == if FindOrder(p.orders, c.ref).Some? then p.orders
                   else p.orders + [CmmsOrder(c.ref, c.body, [first])]
  }

  lemma OrderIsObtained(p: Plant, first: Entry)
    requires p.creator.Delivering? && forall k :: 0 <= k < |p.orders| ==> p.orders[k].log != []
    ensures Obtained(p, Do(Do(p, Ask(true)), Post(true, true, first)), first)
  {
    var c := p.creator;
    if FindOrder(p.orders, c.ref).None? {
      FindNew(p.orders, CmmsOrder(c.ref, c.body, [first]));
    }
  }

  lemma SaveEnds(a: Aggregate, event: nat, owner: string, reply: CmmsReply, now: Time)
    requires Inv(a) && IsCreateEvent(a, event) && Holds(a, event, owner) && MaintenanceOf(reply.status).Some?
    ensures var b := SaveCreated(a, event, owner, reply, now);
            && event < |b.outbox| && b.outbox[event].status.Delivered?
            && RecordOf(b, a.outbox[event].alertId) ==
                 OrderDetails(Some(reply.id), Some(reply.status), Some(reply.eventVersion), Some(reply.updatedAt))
  {
    var id := a.outbox[event].alertId;
    assert id in a.workOrders;
    assert id < |a.alerts| && a.risk.Some?;
  }

  /** The order is recorded with its newest entry, or the command is buried when that entry's status is unknown. */
  ghost predicate RoundEnded(q: Plant, event: nat, id: Uuid) {
    && q.creator.Free? && event < |q.db.outbox|
    && FindOrder(q.orders, id).Some?
    && var k := FindOrder(q.orders, id).value;
       && q.orders[k].log != []
       && var n := |q.orders[k].log| - 1;
          var newest := q.orders[k].log[n];
          if MaintenanceOf(newest.status).Some? then
            && q.db.outbox[event].status.Delivered?
            && RecordOf(q.db, id) == OrderDetails(Some(k), Some(newest.status), Some(n), Some(newest.updatedAt))
          else q.db.outbox[event].status.DeadLetter?
  }

  lemma AnswerFits(p: Plant)
    requires PlantInv(p) && p.creator.Answered?
    ensures var c := p.creator;
            && IdentityMatches(c.response, c.ref, c.body) && Inv(p.db)
            && IsCreateEvent(p.db, c.ticket.event) && Holds(p.db, c.ticket.event, c.ticket.owner)
            && p.db.outbox[c.ticket.event].alertId == c.ref
  {}

  lemma AnswerEnds(p: Plant, now: Time)
    requires p.creator.Answered? && IdentityMatches(p.creator.response, p.creator.ref, p.creator.body)
    ensures var c, q := p.creator, Do(Do(p, Save(now)), Bury);
            && q.orders == p.orders && q.creator.Free?
            && q.db == if MaintenanceOf(c.response.reply.status).Some?
                       then SaveCreated(p.db, c.ticket.event, c.ticket.owner, c.response.reply, now)
                       else FinishEvent(p.db, c.ticket.event, c.ticket.owner, DeadLetter)
  {}

  lemma SavedRound(p: Plant, q: Plant)
    requires AnswersNewest(p) && MaintenanceOf(p.creator.response.reply.status).Some?
    requires q.orders == p.orders && q.creator.Free?
    requires var event, reply := p.creator.ticket.event, p.creator.response.reply;
             && event < |q.db.outbox| && q.db.outbox[event].status.Delivered?
             && RecordOf(q.db, p.creator.ref) ==
                  OrderDetails(Some(reply.id), Some(reply.status), Some(reply.eventVersion), Some(reply.updatedAt))
    ensures RoundEnded(q, p.creator.ticket.event, p.creator.ref)
  {}

  lemma BuriedRound(p: Plant, q: Plant)
    requires AnswersNewest(p) && MaintenanceOf(p.creator.response.reply.status).None?
    requires var t := p.creator.ticket;
             && Holds(p.db, t.event, t.owner)
             && q == Plant(FinishEvent(p.db, t.event, t.owner, DeadLetter), p.orders, Free)
    ensures RoundEnded(q, p.creator.ticket.event, p.creator.ref)
  {}

  lemma AnswerIsEnded(p: Plant, now: Time)
    requires PlantInv(p) && AnswersNewest(p)
    ensures var q := Do(Do(p, Save(now)), Bury); q.orders == p.orders && RoundEnded(q, p.creator.ticket.event, p.creator.ref)
  {
    AnswerFits(p);
    AnswerEnds(p, now);
    if MaintenanceOf(p.creator.response.reply.status).Some? {
      SaveEnds(p.db, p.creator.ticket.event, p.creator.ticket.owner, p.creator.response.reply, now);
      SavedRound(p, Do(Do(p, Save(now)), Bury));
    } else {
      BuriedRound(p, Do(Do(p, Save(now)), Bury));
    }
  }

  lemma LogsAreWritten(p: Plant)
    requires PlantInv(p)
    ensures forall k :: 0 <= k < |p.orders| ==> p.orders[k].log != []
  {
    forall k | 0 <= k < |p.orders| ensures p.orders[k].log != [] {
      assert OrderFor(p.db, p.orders[k]);
    }
  }

  lemma DeliveringIsEnded(p: Plant, now: Time, first: Entry)
    requires PlantInv(p) && p.creator.Delivering?
    ensures var q, c := Do(Do(Do(Do(p, Ask(true)), Post(true, true, first)), Save(now)), Bury), p.creator;
            && RoundEnded(q, c.ticket.event, c.ref)
            && q.orders == if FindOrder(p.orders, c.ref).Some? then p.orders
                           else p.orders + [CmmsOrder(c.ref, c.body, [first])]
  {
    LogsAreWritten(p);
    OrderIsObtained(p, first);
    TwoDeedsKeepPlant(p, Ask(true), Post(true, true, first));
    AnswerIsEnded(Do(Do(p, Ask(true)), Post(true, true, first)), now);
  }

  lemma RoundIsEnded(p: Plant, event: nat, owner: string, now: Time, first: Entry)
    requires PlantInv(p) && p.creator.Free? && CanTakeCommand(p.db, event, now)
    ensures var q, id := Round(p, event, owner, now, first), p.db.outbox[event].alertId;
            && RoundEnded(q, event, id) && id in p.db.workOrders
            && q.orders == if FindOrder(p.orders, id).Some? then p.orders
                           else p.orders + [CmmsOrder(id, p.db.workOrders[id].body, [first])]
  {
    TwoDeedsKeepPlant(p, TakeCommand(event, owner, now), ReadIntent);
    CommandIsRead(p, event, owner, now);
    DeliveringIsEnded(Do(Do(p, TakeCommand(event, owner, now)), ReadIntent), now, first);
  }

  /**
    Left alone, one round of the worker on a claimable create command ends it: the CMMS has exactly the order it had, or
    a new one with the stored body, and the order is recorded with its newest entry. Only an entry of unknown status has
    the command buried instead.
   */
  lemma QuietOrder(key: Key, deeds: seq<Deed>, event: nat, owner: string, now: Time, first: Entry)
    requires var p := DoAll(Begin(key), deeds); p.creator.Free? && CanTakeCommand(p.db, event, now)
    ensures var p := DoAll(Begin(key), deeds);
            var q, id := Round(p, event, owner, now, first), p.db.outbox[event].alertId;
            && RoundEnded(q, event, id) && id in p.db.workOrders
            && q.orders == if FindOrder(p.orders, id).Some? then p.orders
                           else p.orders + [CmmsOrder(id, p.db.workOrders[id].body, [first])]
  {
    var p := DoAll(Begin(key), deeds);
    BeginInv(key);
    DoAllKeepsPlant(Begin(key), deeds);
    RoundIsEnded(p, event, owner, now, first);
  }

  /** No poll meets a version conflict, and a poll that shows the newest entry brings the record up to date. */
  lemma PollCatchesUp(key: Key, deeds: seq<Deed>, id: Uuid, owner: string, version: nat, now: Time)
    requires var p := DoAll(Begin(key), deeds);
             && FindOrder(p.orders, id).Some?
             && var log := p.orders[FindOrder(p.orders, id).value].log;
                version < |log| && MaintenanceOf(log[version].status).Some?
    requires var a := DoAll(Begin(key), deeds).db;
             id in a.workOrders && a.workOrders[id].pollOwner == Some(owner)
    ensures var p := DoAll(Begin(key), deeds);
            var k := FindOrder(p.orders, id).value;
            var q := Do(p, Polled(id, owner, version, now));
            && !PollDecision(p.db, id, owner, ReplyOf(p.orders, k, version).reply).VersionConflict?
            && VersionOf(q.db, id).Some? && version <= VersionOf(q.db, id).value
            && (version == |p.orders[k].log| - 1 ==>
                  VersionOf(q.db, id) == Some(version) && StatusOf(q.db, id) == Some(p.orders[k].log[version].status))
  {
    BeginInv(key);
    DoAllKeepsPlant(Begin(key), deeds);
    PollOfPlant(DoAll(Begin(key), deeds), id, owner, version, now);
  }

  lemma PollOfPlant(p: Plant, id: Uuid, owner: string, version: nat, now: Time)
    requires PlantInv(p) && FindOrder(p.orders, id).Some?
    requires var log := p.orders[FindOrder(p.orders, id).value].log;
             version < |log| && MaintenanceOf(log[version].status).Some?
    requires id in p.db.workOrders && p.db.workOrders[id].pollOwner == Some(owner)
    ensures var k := FindOrder(p.orders, id).value;
            var q := Do(p, Polled(id, owner, version, now));
            && !PollDecision(p.db, id, owner, ReplyOf(p.orders, k, version).reply).VersionConflict?
            && VersionOf(q.db, id).Some? && version <= VersionOf(q.db, id).value
            && (version == |p.orders[k].log| - 1 ==>
                  VersionOf(q.db, id) == Some(version) && StatusOf(q.db, id) == Some(p.orders[k].log[version].status))
  {
    var k := FindOrder(p.orders, id).value;
    var r := ReplyOf(p.orders, k, version);
    assert OrderFor(p.db, p.orders[k]);
    assert OrderOk(p.db.key, id, p.db.alerts[id], p.db.workOrders[id]);
    assert Genuine(p.orders, id, RecordOf(p.db, id)) && RecordOf(p.db, id).cmmsId == Some(k);
    PollRecords(p.db, id, owner, r.reply, now, id);
    assert IdentityMatches(r, id, p.db.workOrders[id].body);
    assert p.db.risk.Some?;
  }

  // ---------------------------------------------------------------- approved is what is sent

  lemma PolledGrows(p: Plant, id: Uuid, owner: string, version: nat, now: Time)
    requires PlantInv(p)
    ensures Grows(p.db, PollWith(p, id, owner, version, now))
  {
    var b := PollWith(p, id, owner, version, now);
    PollIsStatus(p, id, owner, version, now);
    if b == p.db {
      GrowsReflexive(p.db);
    } else {
      var k :| 0 <= k < |p.orders| && p.orders[k].externalRef == id && version < |p.orders[k].log|
               && b == ApplyStatus(p.db, id, owner, ReplyOf(p.orders, k, version).reply, now);
      PollGrows(p.db, id, owner, ReplyOf(p.orders, k, version).reply, now);
    }
  }

  lemma SaveGrows(p: Plant, now: Time)
    requires PlantInv(p) && p.creator.Answered?
    ensures Grows(p.db, SaveWith(p, now).db)
  {
    GrowsReflexive(p.db);
    SaveCreatedGrows(p.db, p.creator.ticket.event, p.creator.ticket.owner, p.creator.response.reply, now);
  }

  lemma QueueGrows(p: Plant, d: Deed)
    requires d.TakeCommand? || d.BackOff? || d.Bury?
    ensures Grows(p.db, Do(p, d).db)
  {
    GrowsReflexive(p.db);
    if d.TakeCommand? {
      ClaimGrows(p.db, WorkOrderCreate, d.pick, d.owner, d.now);
    } else if d.BackOff? && p.creator.Retrying? {
      RetryGrows(p.db, p.creator.ticket.event, p.creator.ticket.owner, d.now);
    } else if d.Bury? && p.creator.Rejecting? {
      FinishGrows(p.db, p.creator.ticket.event, p.creator.ticket.owner, DeadLetter);
    }
  }

  lemma StoreStays(p: Plant, d: Deed)
    requires d.Progress? || d.ReadIntent? || d.Refuse? || d.Ask? || d.Post? || d.Die?
    ensures Do(p, d).db == p.db
  {}

  lemma DoGrows(p: Plant, d: Deed)
    requires PlantInv(p)
    ensures Grows(p.db, Do(p, d).db)
  {
    match d
    case Elsewhere(t) =>
      if ByElse(p.db, t) {
        StepGrows(p.db, t);
      } else {
        GrowsReflexive(p.db);
      }
    case Polled(id, owner, version, now) => PolledGrows(p, id, owner, version, now);
    case Save(now) =>
      if p.creator.Answered? {
        SaveGrows(p, now);
      } else {
        GrowsReflexive(p.db);
      }
    case TakeCommand(_, _, _) => QueueGrows(p, d);
    case BackOff(_) => QueueGrows(p, d);
    case Bury => QueueGrows(p, d);
    case _ =>
      StoreStays(p, d);
      GrowsReflexive(p.db);
  }

  lemma {:induction false} DoAllGrows(p: Plant, deeds: seq<Deed>)
    requires PlantInv(p)
    ensures Grows(p.db, DoAll(p, deeds).db)
  {
    if deeds == [] {
      GrowsReflexive(p.db);
    } else {
      var q := DoAll(p, deeds[..|deeds| - 1]);
      DoAllGrows(p, deeds[..|deeds| - 1]);
      DoAllKeepsPlant(p, deeds[..|deeds| - 1]);
      DoGrows(q, deeds[|deeds| - 1]);
      GrowsTransitive(p.db, q.db, DoAll(p, deeds).db);
    }
  }

  lemma CreateDeed(p: Plant, call: ActionCall)
    ensures Do(p, Elsewhere(Create(call))).db == CreateWorkOrder(p.db, call).after
  {}

  /** Whatever the CMMS holds for an alert later on has the body stored now. */
  lemma StoredIsSent(q: Plant, after: seq<Deed>, id: Uuid, k: nat)
    requires PlantInv(q) && id in q.db.workOrders
    requires k < |DoAll(q, after).orders| && DoAll(q, after).orders[k].externalRef == id
    ensures DoAll(q, after).orders[k].body == q.db.workOrders[id].body
  {
    var r := DoAll(q, after);
    assert PlantInv(r) by { DoAllKeepsPlant(q, after); }
    assert Grows(q.db, r.db) by { DoAllGrows(q, after); }
    assert OrderFor(r.db, r.orders[k]);
    assert OrderGrows(q.db.workOrders[id], r.db.workOrders[id]);
  }

  /**
    If an accepted create confirmed the hash a preview showed, then whatever the CMMS ever holds for the alert has
    exactly the body that was previewed.
   */
  lemma ApprovedIsSent(shown: Aggregate, auth: Authorized, tenant: Tenant, mapping: Mapping,
                       key: Key, before: seq<Deed>, call: ActionCall, after: seq<Deed>, k: nat)
    requires Preview(shown, auth, tenant, mapping) == Ok(call.confirmed)
    requires call.key.kind.CreateAction? && Accepts(DoAll(Begin(key), before).db, call)
    requires var q := DoAll(Do(DoAll(Begin(key), before), Elsewhere(Create(call))), after);
             k < |q.orders| && q.orders[k].externalRef == auth.alertId
    ensures auth.alertId < |shown.alerts| && mapping.assetId.Some?
    ensures var body := DoAll(Do(DoAll(Begin(key), before), Elsewhere(Create(call))), after).orders[k].body;
            && body.key == shown.key && body.alertId == auth.alertId
            && body.provenance == shown.alerts[auth.alertId].provenance
            && body.alarmId == auth.alarm.alarmId && body.assetId == mapping.assetId.value
  {
    var p := DoAll(Begin(key), before);
    assert PlantInv(p) by {
      BeginInv(key);
      DoAllKeepsPlant(Begin(key), before);
    }
    AcceptedBody(shown, auth, tenant, mapping, p.db, call);
    CreateDeed(p, call);
    assert PlantInv(Do(p, Elsewhere(Create(call)))) by { DoKeepsPlant(p, Elsewhere(Create(call))); }
    StoredIsSent(Do(p, Elsewhere(Create(call))), after, auth.alertId, k);
  }
}
