/** One apply as it runs when its provider calls meet the given fates, and what it leads to. */
module ProvisioningDrive {
  import opened Basics
  import opened Provisioning
  import opened ProvisioningApply
  import opened ProvisioningRecovery

  lemma StepShrinks(w: World, fate: Fate)
    requires w.applier.On? && w.applier.k < |w.targets|
    ensures var v := TargetStep(w, fate);
            && v.codec == w.codec && v.targets == w.targets && v.plan == w.plan
            && (v.applier.On? ==> Remaining(v) < Remaining(w))
            && (v.applier.Off? ==> v.applier.last.Interrupted? || v.applier.last.Conflict?)
  {}

  /** Database steps: they call no provider. */
  predicate IsLocal(phase: Phase) { phase.Reserving? || phase.Activating? }

  /** The rest of the apply; its provider calls meet `fate(tick)`, `fate(tick + 1)` and so on. */
  ghost function Drive(w: World, fate: nat -> Fate, tick: nat): World
    decreases if w.applier.On? then Remaining(w) + 1 else 0
  {
    if w.applier.Off? then w
    else if w.applier.k >= |w.targets| then
      w.(plan := w.plan.(receipt := Some(w.applier.results)), applier := Off(Completed))
    else if IsLocal(w.applier.phase) then
      StepShrinks(w, Fine);
      Drive(TargetStep(w, Fine), fate, tick)
    else
      StepShrinks(w, fate(tick));
      Drive(TargetStep(w, fate(tick)), fate, tick + 1)
  }

  lemma DriveLocal(w: World, fate: nat -> Fate, tick: nat)
    requires w.applier.On? && w.applier.k < |w.targets| && IsLocal(w.applier.phase)
    ensures Drive(w, fate, tick) == Drive(TargetStep(w, Fine), fate, tick)
  {}

  lemma DriveCall(w: World, fate: nat -> Fate, tick: nat)
    requires w.applier.On? && w.applier.k < |w.targets| && !IsLocal(w.applier.phase)
    ensures Drive(w, fate, tick) == Drive(TargetStep(w, fate(tick)), fate, tick + 1)
  {}

  // ---------------------------------------------------------------- an apply is a play

  lemma MoveFirst(w: World, v: World, m: Move, rest: seq<Move>)
    requires Act(w, m) == v
    ensures Play(w, [m] + rest) == Play(v, rest)
  {
    PlayCons(w, m, rest);
  }

  lemma {:induction false} DriveIsPlay(w: World, fate: nat -> Fate, tick: nat) returns (moves: seq<Move>)
    ensures Play(w, moves) == Drive(w, fate, tick)
    decreases if w.applier.On? then Remaining(w) + 1 else 0
  {
    if w.applier.Off? {
      moves := [];
    } else if w.applier.k >= |w.targets| {
      OneMove(w, Go(Fine));
      moves := [Go(Fine)];
    } else {
      var local := IsLocal(w.applier.phase);
      var used := if local then Fine else fate(tick);
      var v := TargetStep(w, used);
      StepShrinks(w, used);
      var rest := DriveIsPlay(v, fate, if local then tick else tick + 1);
      MoveFirst(w, v, Go(used), rest);
      moves := [Go(used)] + rest;
    }
  }

  // ---------------------------------------------------------------- how an apply ends

  /** An apply ends: completed with a receipt, or interrupted or in conflict without one. */
  lemma {:induction false} DriveEnds(w: World, fate: nat -> Fate, tick: nat)
    requires w.applier.On? && w.plan.receipt.None?
    ensures var v := Drive(w, fate, tick);
            && v.codec == w.codec && v.targets == w.targets && v.plan.expiresAt == w.plan.expiresAt
            && v.applier.Off? && !v.applier.last.NotStarted?
            && (v.applier.last.Completed? <==> v.plan.receipt.Some?)
    decreases Remaining(w)
  {
    if w.applier.k < |w.targets| {
      var local := IsLocal(w.applier.phase);
      var used := if local then Fine else fate(tick);
      StepShrinks(w, used);
      if TargetStep(w, used).applier.On? {
        DriveEnds(TargetStep(w, used), fate, if local then tick else tick + 1);
      }
    }
  }

  predicate Stumbled(fate: nat -> Fate, tick: nat) { exists n: nat :: n < tick && !fate(n).Fine? }

  /** A second look-up, and a read-back of attributes that are not there, only come after a call that did not go well. */
  predicate Excused(w: World, fate: nat -> Fate, tick: nat) {
    w.applier.On? && w.applier.k < |w.targets| ==>
      && (w.applier.phase.Refinding? ==> Stumbled(fate, tick))
      && (w.applier.phase.ReadingBack? && w.targets[w.applier.k].deviceId !in w.site.attributes ==> Stumbled(fate, tick))
  }

  lemma StepExcused(w: World, fate: nat -> Fate, tick: nat)
    requires w.applier.On? && w.applier.k < |w.targets| && Excused(w, fate, tick)
    ensures IsLocal(w.applier.phase) ==> TargetStep(w, Fine).applier != Off(Interrupted) && Excused(TargetStep(w, Fine), fate, tick)
    ensures !IsLocal(w.applier.phase) ==>
              var v := TargetStep(w, fate(tick));
              Excused(v, fate, tick + 1) && (v.applier == Off(Interrupted) ==> Stumbled(fate, tick + 1))
  {
    if Stumbled(fate, tick) {
      assert Stumbled(fate, tick + 1);
    } else if !fate(tick).Fine? {
      assert Stumbled(fate, tick + 1);
    }
  }

  /** An apply is interrupted only by a call that did not go well. */
  lemma {:induction false} InterruptionHasCause(w: World, fate: nat -> Fate, tick: nat)
    requires w.applier.On? && Excused(w, fate, tick) && Drive(w, fate, tick).applier == Off(Interrupted)
    ensures exists n: nat :: !fate(n).Fine?
    decreases Remaining(w)
  {
    if w.applier.k < |w.targets| {
      var local := IsLocal(w.applier.phase);
      var used := if local then Fine else fate(tick);
      StepShrinks(w, used);
      StepExcused(w, fate, tick);
      if TargetStep(w, used).applier.On? {
        InterruptionHasCause(TargetStep(w, used), fate, if local then tick else tick + 1);
      }
    }
  }

  /** An apply whose calls all go well completes the plan. */
  lemma {:induction false} FineDriveCompletes(l: Line, w: World, f: nat, level: nat, fate: nat -> Fate, tick: nat)
    requires GoodLine(l) && WorldOk(l, w, f, level) && Smooth(w) && forall n: nat :: fate(n).Fine?
    ensures Drive(w, fate, tick).applier == Off(Completed)
    decreases Remaining(w)
  {
    if w.applier.k < |l.ts| {
      var g, lv := SmoothMove(l, w, f, level);
      FineDriveCompletes(l, TargetStep(w, Fine), g, lv, fate, if IsLocal(w.applier.phase) then tick else tick + 1);
      assert !IsLocal(w.applier.phase) ==> fate(tick) == Fine;
    }
  }

  // ---------------------------------------------------------------- the outcome, target by target

  /** Target `t` is provisioned with asset `id`: its rows, its asset, its attributes and its result say so. */
  predicate IsProvisioned(w: World, k: nat, id: nat)
    requires k < |w.targets| && k < |w.site.mappings| && k < |w.site.bindings| && w.plan.receipt.Some?
  {
    var t, row, site := w.targets[k], w.site.mappings[k], w.site;
    && FindAsset(site.assets, t.equipmentId) == Some(id) && 1 <= id <= |site.assets|
    && site.assets[id - 1] == Asset(t.name, t.equipmentId)
    && row.deviceId == t.deviceId && row.equipmentId == t.equipmentId && row.request == AssetRequest(t.name, t.equipmentId)
    && row.assetId == Some(id) && row.active && row.enabled
    && site.bindings[k] == w.codec.write(t.equipmentId, t.measurement)
    && t.deviceId in site.attributes && site.attributes[t.deviceId] == Attribute(t.equipmentId, id)
    && t.deviceId in w.plan.receipt.value
    && w.plan.receipt.value[t.deviceId] == TargetResult(t.equipmentId, id, row.request, t.measurement)
  }

  /** Every target is provisioned, nothing else is mapped, bound or in the receipt, and other devices are untouched. */
  ghost predicate AllProvisioned(w: World, s0: Site) {
    && |w.site.mappings| == |w.targets| == |w.site.bindings| && w.plan.receipt.Some?
    && w.plan.receipt.value.Keys == DevicesOf(w.targets)
    && s0.assets <= w.site.assets
    && (forall k :: 0 <= k < |w.targets| ==> IsProvisioned(w, k, IdIn(w.site.assets, w.targets[k].equipmentId)))
    && (forall d :: d !in DevicesOf(w.targets) ==>
          (d in w.site.attributes <==> d in s0.attributes)
          && (d in s0.attributes ==> w.site.attributes[d] == s0.attributes[d]))
  }

  lemma {:induction false} OthersUntouched(l: Line, f: nat, d: Uuid)
    requires f <= |l.ts| == |l.ids| && d !in DevicesOf(l.ts[..f])
    ensures (d in AttributesAfter(l, f) <==> d in l.s0.attributes)
    ensures d in l.s0.attributes ==> AttributesAfter(l, f)[d] == l.s0.attributes[d]
  {
    if f > 0 {
      assert l.ts[..f][..f - 1] == l.ts[..f - 1];
      OthersUntouched(l, f - 1, d);
    }
  }

  lemma {:induction false} ResultHolds(l: Line, i: nat, f: nat)
    requires GoodPlan(l.c, l.ts) && |l.ts| == |l.ids| && i < f <= |l.ts|
    ensures l.ts[i].deviceId in ResultsAfter(l, f) && ResultsAfter(l, f)[l.ts[i].deviceId] == ResultFor(l.ts[i], l.ids[i])
  {
    if i < f - 1 {
      ResultHolds(l, i, f - 1);
    }
  }

  lemma TargetIsProvisioned(l: Line, w: World, k: nat)
    requires GoodLine(l) && w.codec == l.c && w.targets == l.ts && k < |l.ts|
    requires w.site == SiteAt(l, |l.ts|, 0) && w.plan.receipt == Some(ResultsAfter(l, |l.ts|))
    ensures IsProvisioned(w, k, l.ids[k])
  {
    AssetIsRight(l, k, |l.ts|);
    AttributesHold(l, k, |l.ts|);
    ResultHolds(l, k, |l.ts|);
    assert w.site.mappings[k] == ActiveRow(l.ts[k], l.ids[k]);
  }

  lemma OutcomeIsProvisioned(l: Line, w: World)
    requires GoodLine(l) && w.codec == l.c && w.targets == l.ts
    requires w.site == SiteAt(l, |l.ts|, 0) && w.plan.receipt == Some(ResultsAfter(l, |l.ts|))
    ensures AllProvisioned(w, l.s0)
  {
    var n := |l.ts|;
    assert l.ts[..n] == l.ts;
    ResultsHold(l, n);
    AssetsGrow(l.s0.assets, l.ts, 0, n);
    forall k | 0 <= k < n ensures IsProvisioned(w, k, IdIn(w.site.assets, w.targets[k].equipmentId)) {
      TargetIsProvisioned(l, w, k);
    }
    forall d | d !in DevicesOf(l.ts)
      ensures (d in w.site.attributes <==> d in l.s0.attributes)
      ensures d in l.s0.attributes ==> w.site.attributes[d] == l.s0.attributes[d]
    {
      OthersUntouched(l, n, d);
    }
  }

  // ---------------------------------------------------------------- an apply of a good start

  /** Plan and tables are what some applies of a plan that started at `s0` have left. */
  ghost predicate LeftBehind(w: World, s0: Site) {
    GoodStart(w.codec, w.targets, s0) &&
    exists expiresAt, before, last ::
      Play(Begin(w.codec, w.targets, s0, expiresAt), before) == w.(applier := Off(last))
  }

  /** The state after an apply that was neither refused as expired nor as applied already. */
  ghost predicate ApplyOutcome(w: World, v: World, halt: Halt, fate: nat -> Fate, s0: Site) {
    && LeftBehind(v, s0)
    && (halt.Completed? ==> AllProvisioned(v, s0) && v.site == SiteAt(LineOf(w.codec, w.targets, s0), |w.targets|, 0))
    && ((forall n: nat :: fate(n).Fine?) ==> halt.Completed?)
    && (halt.Conflict? ==> exists k: nat :: Foreign(LineOf(w.codec, w.targets, s0), k))
  }

  lemma StartIsBlind(w: World, last: Halt, now: Time)
    requires w.applier.Off? && w.plan.receipt.None? && now < w.plan.expiresAt
    ensures Act(w.(applier := Off(last)), Start(now)) == Act(w, Start(now))
  {}

  /** The apply of a state left behind is one more stretch of a play from the start. */
  lemma ApplyIsPlay(w: World, s0: Site, expiresAt: Time, before: seq<Move>, last: Halt, now: Time, fate: nat -> Fate)
    returns (moves: seq<Move>)
    requires w.applier.Off? && w.plan.receipt.None? && now < w.plan.expiresAt
    requires Play(Begin(w.codec, w.targets, s0, expiresAt), before) == w.(applier := Off(last))
    ensures Play(Begin(w.codec, w.targets, s0, expiresAt), moves) == Drive(Act(w, Start(now)), fate, 0)
  {
    var w0 := Begin(w.codec, w.targets, s0, expiresAt);
    StartIsBlind(w, last, now);
    var rest := DriveIsPlay(Act(w, Start(now)), fate, 0);
    PlayCons(w.(applier := Off(last)), Start(now), rest);
    PlayConcat(w0, before, [Start(now)] + rest);
    moves := before + ([Start(now)] + rest);
  }

  lemma StartedState(w: World, s0: Site, expiresAt: Time, before: seq<Move>, last: Halt, now: Time)
    returns (f: nat, level: nat)
    requires w.applier.Off? && w.plan.receipt.None? && now < w.plan.expiresAt && GoodStart(w.codec, w.targets, s0)
    requires Play(Begin(w.codec, w.targets, s0, expiresAt), before) == w.(applier := Off(last))
    ensures var l, u := LineOf(w.codec, w.targets, s0), Act(w, Start(now));
            GoodLine(l) && WorldOk(l, u, f, level) && Smooth(u)
  {
    var l := LineOf(w.codec, w.targets, s0);
    f, level := ReachedState(w.codec, w.targets, s0, expiresAt, before);
    StartOk(l, w.(applier := Off(last)), f, level, now);
    StartIsBlind(w, last, now);
  }

  lemma CompletedIsProvisioned(w: World, s0: Site, expiresAt: Time, moves: seq<Move>)
    requires GoodStart(w.codec, w.targets, s0) && Play(Begin(w.codec, w.targets, s0, expiresAt), moves) == w
    requires w.plan.receipt.Some?
    ensures AllProvisioned(w, s0) && w.site == SiteAt(LineOf(w.codec, w.targets, s0), |w.targets|, 0)
  {
    LineIsGood(w.codec, w.targets, s0);
    OneOutcome(w.codec, w.targets, s0, expiresAt, moves);
    OutcomeIsProvisioned(LineOf(w.codec, w.targets, s0), w);
  }

  /**
    An apply of a plan that earlier applies have left, before it expires: it completes if all its calls go well, and then
    every target is provisioned; it meets a conflict only if some device started with foreign attributes; and whatever
    happens, the next apply finds a state of the same kind.
   */
  lemma ApplyLeadsOn(w: World, s0: Site, now: Time, fate: nat -> Fate)
    requires w.applier.Off? && w.plan.receipt.None? && now < w.plan.expiresAt && LeftBehind(w, s0)
    ensures var v := Drive(Act(w, Start(now)), fate, 0);
            v.applier.Off? && ApplyOutcome(w, v, v.applier.last, fate, s0)
  {
    var expiresAt, before, last :| Play(Begin(w.codec, w.targets, s0, expiresAt), before) == w.(applier := Off(last));
    var f, level := StartedState(w, s0, expiresAt, before, last, now);
    var u := Act(w, Start(now));
    var v := Drive(u, fate, 0);
    DriveEnds(u, fate, 0);
    var moves := ApplyIsPlay(w, s0, expiresAt, before, last, now, fate);
    assert v == v.(applier := Off(v.applier.last));
    assert LeftBehind(v, s0);
    if v.applier.last.Completed? {
      CompletedIsProvisioned(v, s0, expiresAt, moves);
    }
    if forall n: nat :: fate(n).Fine? {
      FineDriveCompletes(LineOf(w.codec, w.targets, s0), u, f, level, fate, 0);
    }
    if v.applier.last.Conflict? {
      ConflictNeedsForeign(w.codec, w.targets, s0, expiresAt, moves);
    }
  }

  /**
    A plan that expired before it was applied can be planned again: it is the same plan for thirty minutes more, and an
    apply in that time whose calls go well completes it.
   */
  lemma RenewedPlanCompletes(w: World, s0: Site, createdAt: Time, now: Time, fate: nat -> Fate)
    requires w.applier.Off? && w.plan.receipt.None? && w.plan.expiresAt <= createdAt <= now && LeftBehind(w, s0)
    requires forall n: nat :: fate(n).Fine?
    ensures var v := Act(w, Renew(createdAt));
            && v == w.(plan := w.plan.(expiresAt := createdAt + 1800)) && LeftBehind(v, s0)
            && (now < createdAt + 1800 ==>
                  var u := Drive(Act(v, Start(now)), fate, 0); u.applier == Off(Completed) && AllProvisioned(u, s0))
  {
    var v := Act(w, Renew(createdAt));
    var expiresAt, before, last :| Play(Begin(w.codec, w.targets, s0, expiresAt), before) == w.(applier := Off(last));
    PlaySnoc(Begin(w.codec, w.targets, s0, expiresAt), before, Renew(createdAt));
    assert Play(Begin(v.codec, v.targets, s0, expiresAt), before + [Renew(createdAt)]) == v.(applier := Off(last));
    if now < createdAt + 1800 {
      ApplyLeadsOn(v, s0, now, fate);
    }
  }
}
