/**
  The provider worlds inside a tenancy: while the prediction workers, operators and other series of a tenant go on, the
  alarm and work-order workers of one series meet exactly the transactions its closed loop takes.
 */
module TenantWorlds {
  import opened Basics
  import opened ClosedLoop
  import opened ClosedLoopTheorems
  import opened AlarmDelivery
  import opened AlarmConvergence
  import WD = WorkOrderDelivery
  import WF = WorkOrderFeedback
  import PR = PredictionRuns
  import opened PredictionLoops

  // ---------------------------------------------------------------- what operations commit to a series

  predicate IsRound(x: Txn) { x.NewSlot? || x.SucceedRound? || x.FailRound? }

  ghost predicate AllRounds(xs: seq<Txn>) { forall k :: 0 <= k < |xs| ==> IsRound(xs[k]) }

  lemma {:induction false} ClaimTxnsAreRounds(t: PR.Tenancy, owner: string, now: Time, locked: set<Uuid>, s: PR.Series)
    ensures AllRounds(ClaimTxns(t, owner, now, locked, s))
    decreases PR.Slack(t.runs)
  {
    var pick := PR.PickEligible(t.runs, |t.runs|, now, locked);
    if pick.Some? && t.runs[pick.value].series !in t.bindings {
      PR.InactiveUsesSlack(t, pick.value, owner, now);
      ClaimTxnsAreRounds(PR.FailInactive(t, pick.value, owner, now), owner, now, locked, s);
    }
  }

  lemma {:induction false} ResetTxnsAreRounds(t: PR.Tenancy, ids: seq<nat>, s: PR.Series)
    ensures AllRounds(ResetTxns(t, ids, s))
  {
    if ids != [] {
      ResetTxnsAreRounds(t, ids[..|ids| - 1], s);
    }
  }

  /** Operations on the runs commit rounds; only the loop's own transactions are anything else. */
  lemma OpTxnsAreRounds(t: PR.Tenancy, op: PR.Op, s: PR.Series)
    requires !op.InLoop?
    ensures AllRounds(TxnsFor(t, op, s))
  {
    if op.TakeNext? {
      ClaimTxnsAreRounds(t, op.owner, op.now, op.locked, s);
    } else if op.Sweep? {
      ResetTxnsAreRounds(t, PR.StaleIds(t.runs, |t.runs|, op.now), s);
    }
  }

  // ---------------------------------------------------------------- the alarm worker in a tenancy

  /** The tenancy, with ThingsBoard's alarms of series `s` and what the alarm worker does for it. */
  datatype AlarmSide = AlarmSide(t: PR.Tenancy, alarms: seq<TbAlarm>, worker: Worker)

  datatype AlarmEvent = Operation(op: PR.Op) | OfWorker(m: Move)

  function WorldOf(x: AlarmSide, s: PR.Series): World { World(PR.LoopOf(x.t, s), x.alarms, x.worker) }

  /** Any operation of the tenancy but those of this worker. */
  predicate MayOperate(t: PR.Tenancy, op: PR.Op, s: PR.Series) {
    op.InLoop? && op.s == s ==> ByOthers(PR.LoopOf(t, s), op.t)
  }

  function Happen(x: AlarmSide, s: PR.Series, e: AlarmEvent): AlarmSide {
    match e
    case Operation(op) => if MayOperate(x.t, op, s) then x.(t := PR.Apply1(x.t, op)) else x
    case OfWorker(m) =>
      if m.Other? then x
      else
        var v := Act(WorldOf(x, s), m);
        AlarmSide(PR.SetLoop(x.t, s, v.db), v.alarms, v.worker)
  }

  function HappenAll(x: AlarmSide, s: PR.Series, es: seq<AlarmEvent>): AlarmSide {
    if es == [] then x else Happen(HappenAll(x, s, es[..|es| - 1]), s, es[|es| - 1])
  }

  /** What an event is to the world of series `s`. */
  function MovesFor(x: AlarmSide, s: PR.Series, e: AlarmEvent): seq<Move> {
    match e
    case Operation(op) => if MayOperate(x.t, op, s) then Others(TxnsFor(x.t, op, s)) else []
    case OfWorker(m) => if m.Other? then [] else [m]
  }

  lemma OperationIsMoves(x: AlarmSide, s: PR.Series, op: PR.Op)
    requires MayOperate(x.t, op, s)
    ensures WorldOf(Happen(x, s, Operation(op)), s) == Play(WorldOf(x, s), Others(TxnsFor(x.t, op, s)))
  {
    var w, txns := WorldOf(x, s), TxnsFor(x.t, op, s);
    OpIsTxns(x.t, op, s);
    if op.InLoop? {
      if txns != [] {
        assert txns == [op.t] && Others(txns) == [Other(op.t)];
        RunOne(w.db, op.t);
        PlayOne(w, Other(op.t));
      } else {
        RunOne(w.db, op.t);
      }
    } else {
      OpTxnsAreRounds(x.t, op, s);
      OthersPlay(w, txns);
    }
  }

  lemma EventIsMoves(x: AlarmSide, s: PR.Series, e: AlarmEvent)
    ensures WorldOf(Happen(x, s, e), s) == Play(WorldOf(x, s), MovesFor(x, s, e))
  {
    match e
    case Operation(op) => if MayOperate(x.t, op, s) { OperationIsMoves(x, s, op); }
    case OfWorker(m) => if !m.Other? { PlayOne(WorldOf(x, s), m); }
  }

  function AllMoves(x: AlarmSide, s: PR.Series, es: seq<AlarmEvent>): seq<Move> {
    if es == [] then []
    else
      var front := es[..|es| - 1];
      AllMoves(x, s, front) + MovesFor(HappenAll(x, s, front), s, es[|es| - 1])
  }

  /** A tenancy's history is a play of the alarm world of each of its series. */
  lemma {:induction false} HistoryIsPlay(x: AlarmSide, s: PR.Series, es: seq<AlarmEvent>)
    ensures WorldOf(HappenAll(x, s, es), s) == Play(WorldOf(x, s), AllMoves(x, s, es))
  {
    if es != [] {
      var front, e := es[..|es| - 1], es[|es| - 1];
      HistoryIsPlay(x, s, front);
      EventIsMoves(HappenAll(x, s, front), s, e);
      PlayConcat(WorldOf(x, s), AllMoves(x, s, front), MovesFor(HappenAll(x, s, front), s, e));
    }
  }

  function AlarmsBegin(tenantId: Uuid): AlarmSide { AlarmSide(PR.NewTenancy(tenantId), [], Idle) }

  /**
    In every history of a tenancy and its alarm worker, each series has at most one alarm per alert, and whenever the
    event with the current version of its projection is delivered, ThingsBoard shows the projection.
   */
  lemma TenantConverges(tenantId: Uuid, s: PR.Series, es: seq<AlarmEvent>)
    ensures var x := HappenAll(AlarmsBegin(tenantId), s, es);
            var a := PR.LoopOf(x.t, s);
            && OneAlarmPerAlert(x.alarms)
            && forall event: nat :: DeliveredAt(a, event) ==> a.projection.Some? && Shows(x.alarms, a.projection.value)
  {
    var x0 := AlarmsBegin(tenantId);
    var x, moves, key := HappenAll(x0, s, es), AllMoves(x0, s, es), PR.KeyOf(tenantId, s);
    HistoryIsPlay(x0, s, es);
    assert WorldOf(x0, s) == Start(key);
    OneAlarmEver(key, moves);
    forall event: nat | DeliveredAt(PR.LoopOf(x.t, s), event)
      ensures PR.LoopOf(x.t, s).projection.Some? && Shows(x.alarms, PR.LoopOf(x.t, s).projection.value)
    {
      Convergence(key, moves, event);
    }
  }

  // ---------------------------------------------------------------- the work-order workers in a tenancy

  /** The tenancy, with the CMMS orders of series `s` and what the creation worker does for it. */
  datatype OrderSide = OrderSide(t: PR.Tenancy, orders: seq<WD.CmmsOrder>, creator: WD.Creator)

  datatype OrderEvent = Running(op: PR.Op) | OfCmms(d: WD.Deed)

  function PlantOf(x: OrderSide, s: PR.Series): WD.Plant { WD.Plant(PR.LoopOf(x.t, s), x.orders, x.creator) }

  predicate MayRun(t: PR.Tenancy, op: PR.Op, s: PR.Series) {
    op.InLoop? && op.s == s ==> WD.ByElse(PR.LoopOf(t, s), op.t)
  }

  function Occur(x: OrderSide, s: PR.Series, e: OrderEvent): OrderSide {
    match e
    case Running(op) => if MayRun(x.t, op, s) then x.(t := PR.Apply1(x.t, op)) else x
    case OfCmms(d) =>
      if d.Elsewhere? then x
      else
        var v := WD.Do(PlantOf(x, s), d);
        OrderSide(PR.SetLoop(x.t, s, v.db), v.orders, v.creator)
  }

  function OccurAll(x: OrderSide, s: PR.Series, es: seq<OrderEvent>): OrderSide {
    if es == [] then x else Occur(OccurAll(x, s, es[..|es| - 1]), s, es[|es| - 1])
  }

  /** What an event is to the plant of series `s`. */
  function DeedsFor(x: OrderSide, s: PR.Series, e: OrderEvent): seq<WD.Deed> {
    match e
    case Running(op) => if MayRun(x.t, op, s) then WD.Elsewheres(TxnsFor(x.t, op, s)) else []
    case OfCmms(d) => if d.Elsewhere? then [] else [d]
  }

  lemma RunningIsDeeds(x: OrderSide, s: PR.Series, op: PR.Op)
    requires MayRun(x.t, op, s)
    ensures PlantOf(Occur(x, s, Running(op)), s) == WD.DoAll(PlantOf(x, s), WD.Elsewheres(TxnsFor(x.t, op, s)))
  {
    var p, txns := PlantOf(x, s), TxnsFor(x.t, op, s);
    OpIsTxns(x.t, op, s);
    if op.InLoop? {
      if txns != [] {
        assert txns == [op.t] && WD.Elsewheres(txns) == [WD.Elsewhere(op.t)];
        RunOne(p.db, op.t);
        WD.DoOne(p, WD.Elsewhere(op.t));
      } else {
        RunOne(p.db, op.t);
      }
    } else {
      OpTxnsAreRounds(x.t, op, s);
      WD.ElsewherePlays(p, txns);
    }
  }

  lemma EventIsDeeds(x: OrderSide, s: PR.Series, e: OrderEvent)
    ensures PlantOf(Occur(x, s, e), s) == WD.DoAll(PlantOf(x, s), DeedsFor(x, s, e))
  {
    match e
    case Running(op) => if MayRun(x.t, op, s) { RunningIsDeeds(x, s, op); }
    case OfCmms(d) => if !d.Elsewhere? { WD.DoOne(PlantOf(x, s), d); }
  }

  function AllDeeds(x: OrderSide, s: PR.Series, es: seq<OrderEvent>): seq<WD.Deed> {
    if es == [] then []
    else
      var front := es[..|es| - 1];
      AllDeeds(x, s, front) + DeedsFor(OccurAll(x, s, front), s, es[|es| - 1])
  }

  /** A tenancy's history is a history of the work orders of each of its series. */
  lemma {:induction false} HistoryIsDeeds(x: OrderSide, s: PR.Series, es: seq<OrderEvent>)
    ensures PlantOf(OccurAll(x, s, es), s) == WD.DoAll(PlantOf(x, s), AllDeeds(x, s, es))
  {
    if es != [] {
      var front, e := es[..|es| - 1], es[|es| - 1];
      HistoryIsDeeds(x, s, front);
      EventIsDeeds(OccurAll(x, s, front), s, e);
      WD.DoConcat(PlantOf(x, s), AllDeeds(x, s, front), DeedsFor(OccurAll(x, s, front), s, e));
    }
  }

  function OrdersBegin(tenantId: Uuid): OrderSide { OrderSide(PR.NewTenancy(tenantId), [], WD.Free) }

  /**
    In every history of a tenancy and its work-order workers, each series has at most one CMMS order per alert, with the
    stored body, and every recorded status is an entry the CMMS wrote.
   */
  lemma TenantOrdersAreGenuine(tenantId: Uuid, s: PR.Series, es: seq<OrderEvent>)
    ensures var x := OccurAll(OrdersBegin(tenantId), s, es);
            var a := PR.LoopOf(x.t, s);
            && WF.OneOrderPerAlert(x.orders)
            && (forall k :: 0 <= k < |x.orders| ==> WF.OrderFor(a, x.orders[k]))
            && (forall id: Uuid :: WF.Genuine(x.orders, id, RecordOf(a, id)))
  {
    var x0 := OrdersBegin(tenantId);
    HistoryIsDeeds(x0, s, es);
    assert PlantOf(x0, s) == WD.Begin(PR.KeyOf(tenantId, s));
    WF.OneGenuineOrder(PR.KeyOf(tenantId, s), AllDeeds(x0, s, es));
  }
}
