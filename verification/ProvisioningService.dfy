/** `apply` and `_apply_target` as they change the tables and the providers in place. */
module ProvisioningService {
  import opened Basics
  import opened Provisioning
  import opened ProvisioningApply
  import opened ProvisioningRecovery
  import opened ProvisioningDrive
  import opened ProvisioningTables

  lemma ReservingStep(w: World)
    requires w.applier.On? && w.applier.k < |w.targets| && w.applier.phase.Reserving?
    ensures var r := Reserve(w.site, w.targets[w.applier.k]);
            TargetStep(w, Fine) ==
              if r.None? then Halted(w, Conflict) else w.(site := r.value, applier := w.applier.(phase := Finding))
  {}

  lemma ActivatingStep(w: World)
    requires w.applier.On? && w.applier.k < |w.targets| && w.applier.phase.Activating?
    ensures var a, t := w.applier, w.targets[w.applier.k];
            var r := Activate(w.codec, w.site, t, a.phase.asset);
            TargetStep(w, Fine) ==
              if r.None? then Halted(w, Conflict)
              else w.(site := r.value,
                      applier := On(a.k + 1, Reserving, a.ids, a.results[t.deviceId := ResultFor(t, a.phase.asset)]))
  {}

  /** The create call for target `k`: refused, answered, or with an unknown result. */
  lemma CreatingStep(w: World, fate: nat -> Fate, tick: nat, v: World)
    requires w.applier.On? && w.applier.k < |w.targets| && w.applier.phase.Creating?
    requires var t, f := w.targets[w.applier.k], fate(tick);
             var created := w.(site := w.site.(assets := w.site.assets + [AssetFor(t)]));
             v == match f
                  case Refused => Halted(w, Interrupted)
                  case Fine => Enter(created, Writing(|w.site.assets| + 1))
                  case Unknown(effective) => Enter(if effective then created else w, Refinding)
    ensures Drive(w, fate, tick) == Drive(v, fate, tick + 1)
  {
    assert TargetStep(w, fate(tick)) == v;
    DriveCall(w, fate, tick);
  }

  /** Between `tick` and `next` some call did not go well. */
  predicate SomeFailed(fate: nat -> Fate, tick: nat, next: nat) {
    exists n: nat :: tick <= n < next && !fate(n).Fine?
  }

  class Provisioner {
    const codec: Codec
    const targets: seq<Target>
    var plan: PlanRow
    var mappings: seq<MappingRow>
    var bindings: seq<BindingRow>
    var assets: seq<Asset>
    var attributes: map<Uuid, Attribute>

    ghost function View(applier: Applier): World
      reads this
    {
      World(codec, targets, plan, Site(mappings, bindings, assets, attributes), applier)
    }

    constructor (codec: Codec, targets: seq<Target>, expiresAt: Time, assets: seq<Asset>, attributes: map<Uuid, Attribute>)
      ensures View(Off(NotStarted)) ==
                World(codec, targets, PlanRow(expiresAt, None), Site([], [], assets, attributes), Off(NotStarted))
    {
      this.codec, this.targets := codec, targets;
      plan, mappings, bindings := PlanRow(expiresAt, None), [], [];
      this.assets, this.attributes := assets, attributes;
    }

    method ReserveTarget(t: Target) returns (ok: bool)
      modifies this`mappings
      ensures var r := Reserve(old(View(Off(NotStarted)).site), t);
              ok == r.Some? && View(Off(NotStarted)).site == if ok then r.value else old(View(Off(NotStarted)).site)
      ensures ReserveOutcome(old(View(Off(NotStarted)).site), View(Off(NotStarted)).site, ok, t)
    {
      ReserveIsExact(View(Off(NotStarted)).site, t);
      var row := IndexOfDevice(mappings, t.deviceId);
      if row.Some? {
        return mappings[row.value].equipmentId == t.equipmentId && mappings[row.value].request == RequestFor(t);
      }
      if exists i :: 0 <= i < |mappings| && mappings[i].equipmentId == t.equipmentId {
        return false;
      }
      mappings := mappings + [ReservedRow(t)];
      return true;
    }

    method ActivateTarget(t: Target, assetId: nat) returns (ok: bool)
      modifies this`mappings, this`bindings
      ensures var r := Activate(codec, old(View(Off(NotStarted)).site), t, assetId);
              ok == r.Some? && View(Off(NotStarted)).site == if ok then r.value else old(View(Off(NotStarted)).site)
      ensures ActivateOutcome(codec, old(View(Off(NotStarted)).site), View(Off(NotStarted)).site, ok, t, assetId)
    {
      ActivateIsExact(codec, View(Off(NotStarted)).site, t, assetId);
      var i := IndexOfDevice(mappings, t.deviceId);
      if i.None? { return false; }
      var row := mappings[i.value];
      if row.equipmentId != t.equipmentId || (row.assetId.Some? && row.assetId.value != assetId) { return false; }
      if exists j :: 0 <= j < |mappings| && j != i.value && mappings[j].assetId == Some(assetId) { return false; }
      if !BindingsAgree(codec, bindings, t) { return false; }
      if !HasBinding(bindings, t) {
        bindings := bindings + [codec.write(t.equipmentId, t.measurement)];
      }
      row := row.(assetId := Some(assetId));
      row := row.(active := true, enabled := true);
      mappings := mappings[i.value := row];
      return true;
    }

    /** The view after a stretch of the apply: halted, or on its way in phase `next`. */
    ghost function ViewAt(halt: Option<Halt>, k: nat, next: Phase, ids: map<Uuid, Option<nat>>,
                          results: map<Uuid, TargetResult>): World
      reads this
    {
      View(if halt.Some? then Off(halt.value) else On(k, next, ids, results))
    }

    /** Creates the missing asset, and looks again when the result is unknown. */
    method CreateAsset(k: nat, ids: map<Uuid, Option<nat>>, results: map<Uuid, TargetResult>, fate: nat -> Fate, tick: nat)
      returns (asset: nat, halt: Option<Halt>, next: nat)
      requires k < |targets| && FindAsset(assets, targets[k].equipmentId).None?
      modifies this`assets
      ensures halt.Some? ==> halt.value.Interrupted? || halt.value.Conflict?
      ensures halt == Some(Interrupted) ==> SomeFailed(fate, tick, next)
      ensures halt.None? ==> assets == old(assets) + [AssetFor(targets[k])] && asset == |assets|
      ensures halt != Some(Conflict)
      ensures assets == old(assets) || assets == old(assets) + [AssetFor(targets[k])]
      ensures Drive(ViewAt(halt, k, Writing(asset), ids, results), fate, next) ==
                Drive(old(View(On(k, Creating, ids, results))), fate, tick)
    {
      ghost var start := View(On(k, Creating, ids, results));
      var t := targets[k];
      FindSnoc(assets, AssetFor(t), t.equipmentId);
      asset, halt, next := 0, None, tick + 1;
      var created := fate(tick);
      if created.Refused? {
        halt := Some(Interrupted);
        CreatingStep(start, fate, tick, ViewAt(halt, k, Writing(asset), ids, results));
        return;
      }
      if created.Fine? || created.effective {
        assets := assets + [AssetFor(t)];
      }
      if created.Fine? {
        asset := |assets|;
        CreatingStep(start, fate, tick, ViewAt(halt, k, Writing(asset), ids, results));
        return;
      }
      CreatingStep(start, fate, tick, View(On(k, Refinding, ids, results)));
      asset, halt, next := FindAgain(k, ids, results, fate, next);
      assert !fate(tick).Fine?;
    }

    /** The look-up after a create with an unknown result. */
    method FindAgain(k: nat, ids: map<Uuid, Option<nat>>, results: map<Uuid, TargetResult>, fate: nat -> Fate, tick: nat)
      returns (asset: nat, halt: Option<Halt>, next: nat)
      requires k < |targets|
      ensures next == tick + 1
      ensures halt.Some? ==> halt.value.Interrupted? || halt.value.Conflict?
      ensures halt.None? ==> FindAsset(assets, targets[k].equipmentId) == Some(asset) && assets[asset - 1] == AssetFor(targets[k])
      ensures halt == Some(Conflict) ==>
                FindAsset(assets, targets[k].equipmentId).Some?
                && assets[FindAsset(assets, targets[k].equipmentId).value - 1] != AssetFor(targets[k])
      ensures Drive(ViewAt(halt, k, Writing(asset), ids, results), fate, next) ==
                Drive(View(On(k, Refinding, ids, results)), fate, tick)
    {
      DriveCall(View(On(k, Refinding, ids, results)), fate, tick);
      var found := FindAsset(assets, targets[k].equipmentId);
      asset, halt, next := 0, None, tick + 1;
      if !fate(tick).Fine? || found.None? {
        halt := Some(Interrupted);
        return;
      }
      asset := found.value;
      if assets[asset - 1] != AssetFor(targets[k]) {
        halt := Some(Conflict);
      }
    }

    /** The CMMS half of a target: the asset that is there, or a new one. */
    method ObtainAsset(k: nat, ids: map<Uuid, Option<nat>>, results: map<Uuid, TargetResult>, fate: nat -> Fate, tick: nat)
      returns (asset: nat, halt: Option<Halt>, next: nat)
      requires k < |targets|
      modifies this`assets
      ensures halt.Some? ==> halt.value.Interrupted? || halt.value.Conflict?
      ensures halt == Some(Interrupted) ==> SomeFailed(fate, tick, next)
      ensures halt.None? ==>
                && 1 <= asset <= |assets| && assets[asset - 1] == AssetFor(targets[k])
                && (var found := FindAsset(old(assets), targets[k].equipmentId);
                    if found.Some? then asset == found.value && assets == old(assets)
                    else asset == |assets| && assets == old(assets) + [AssetFor(targets[k])])
      ensures assets == old(assets)
              || (FindAsset(old(assets), targets[k].equipmentId).None? && assets == old(assets) + [AssetFor(targets[k])])
      ensures halt == Some(Conflict) <==>
                var t := targets[k];
                var found := FindAsset(old(assets), t.equipmentId);
                && fate(tick).Fine?
                && ((t.deviceId in ids && ids[t.deviceId].Some? && found != ids[t.deviceId])
                    || (found.Some? && old(assets)[found.value - 1].name != t.name))
      ensures Drive(ViewAt(halt, k, Writing(asset), ids, results), fate, next) ==
                Drive(old(View(On(k, Finding, ids, results))), fate, tick)
    {
      ghost var start := View(On(k, Finding, ids, results));
      DriveCall(start, fate, tick);
      var t := targets[k];
      asset, halt, next := 0, None, tick + 1;
      if !fate(tick).Fine? {
        halt := Some(Interrupted);
        return;
      }
      var found := FindAsset(assets, t.equipmentId);
      if t.deviceId in ids && ids[t.deviceId].Some? && found != ids[t.deviceId] {
        halt := Some(Conflict);
        return;
      }
      if found.None? {
        assert View(On(k, Creating, ids, results)) == TargetStep(start, fate(tick));
        asset, halt, next := CreateAsset(k, ids, results, fate, next);
        return;
      }
      asset := found.value;
      if assets[asset - 1] != AssetFor(t) {
        halt := Some(Conflict);
      }
    }

    /** The ThingsBoard half: write the attributes, read them back, and confirm the asset once more. */
    method Publish(k: nat, asset: nat, ids: map<Uuid, Option<nat>>, results: map<Uuid, TargetResult>, fate: nat -> Fate, tick: nat)
      returns (halt: Option<Halt>, next: nat)
      requires k < |targets|
      modifies this`attributes
      ensures halt.Some? ==> halt.value.Interrupted? || halt.value.Conflict?
      ensures halt == Some(Interrupted) ==> SomeFailed(fate, tick, next)
      ensures var written := old(attributes)[targets[k].deviceId := Attribute(targets[k].equipmentId, asset)];
              && (attributes == old(attributes) || attributes == written)
              && (halt.None? ==> attributes == written && FindAsset(assets, targets[k].equipmentId) == Some(asset)
                                 && assets[asset - 1].name == targets[k].name)
      ensures Drive(ViewAt(halt, k, Activating(asset), ids, results), fate, next) ==
                Drive(old(View(On(k, Writing(asset), ids, results))), fate, tick)
    {
      ghost var start := View(On(k, Writing(asset), ids, results));
      DriveCall(start, fate, tick);
      var t := targets[k];
      halt, next := None, tick + 1;
      var written := fate(tick);
      if written.Refused? {
        halt := Some(Interrupted);
        return;
      }
      if written.Fine? || written.effective {
        attributes := attributes[t.deviceId := Attribute(t.equipmentId, asset)];
      }
      assert View(On(k, ReadingBack(asset), ids, results)) == TargetStep(start, fate(tick));
      halt, next := ReadBack(k, asset, ids, results, fate, next);
    }

    /** The read-back of the attributes, and the confirmation that follows it. */
    method ReadBack(k: nat, asset: nat, ids: map<Uuid, Option<nat>>, results: map<Uuid, TargetResult>, fate: nat -> Fate, tick: nat)
      returns (halt: Option<Halt>, next: nat)
      requires k < |targets|
      ensures halt.Some? ==> halt.value.Interrupted? || halt.value.Conflict?
      ensures halt == Some(Interrupted) ==> targets[k].deviceId !in attributes || SomeFailed(fate, tick, next)
      ensures tick < next
      ensures halt.None? ==>
                && targets[k].deviceId in attributes
                && attributes[targets[k].deviceId] == Attribute(targets[k].equipmentId, asset)
                && FindAsset(assets, targets[k].equipmentId) == Some(asset) && assets[asset - 1].name == targets[k].name
      ensures halt == Some(Conflict) ==>
                || (targets[k].deviceId in attributes
                    && attributes[targets[k].deviceId] != Attribute(targets[k].equipmentId, asset))
                || FindAsset(assets, targets[k].equipmentId) != Some(asset) || assets[asset - 1].name != targets[k].name
      ensures Drive(ViewAt(halt, k, Activating(asset), ids, results), fate, next) ==
                Drive(View(On(k, ReadingBack(asset), ids, results)), fate, tick)
    {
      ghost var start := View(On(k, ReadingBack(asset), ids, results));
      DriveCall(start, fate, tick);
      var t := targets[k];
      halt, next := None, tick + 1;
      if !fate(tick).Fine? || t.deviceId !in attributes {
        halt := Some(Interrupted);
        return;
      }
      if attributes[t.deviceId] != Attribute(t.equipmentId, asset) {
        halt := Some(Conflict);
        return;
      }
      assert View(On(k, Confirming(asset), ids, results)) == TargetStep(start, fate(tick));
      DriveCall(View(On(k, Confirming(asset), ids, results)), fate, next);
      next := next + 1;
      if !fate(next - 1).Fine? {
        halt := Some(Interrupted);
        return;
      }
      if FindAsset(assets, t.equipmentId) != Some(asset) || assets[asset - 1] != AssetFor(t) {
        halt := Some(Conflict);
      }
    }

    /** `_apply_target`. */
    method ApplyTarget(k: nat, ids: map<Uuid, Option<nat>>, results: map<Uuid, TargetResult>, fate: nat -> Fate, tick: nat)
      returns (after: map<Uuid, TargetResult>, halt: Option<Halt>, next: nat)
      requires k < |targets|
      modifies this`mappings, this`bindings, this`assets, this`attributes
      ensures halt.Some? ==> halt.value.Interrupted? || halt.value.Conflict?
      ensures halt == Some(Interrupted) ==> exists n: nat :: !fate(n).Fine?
      ensures Drive(ViewAt(halt, k + 1, Reserving, ids, after), fate, next) ==
                Drive(old(View(On(k, Reserving, ids, results))), fate, tick)
    {
      ghost var start := View(On(k, Reserving, ids, results));
      DriveLocal(start, fate, tick);
      ReservingStep(start);
      var t := targets[k];
      after, halt, next := results, None, tick;
      var reserved := ReserveTarget(t);
      if !reserved {
        halt := Some(Conflict);
        return;
      }
      assert View(On(k, Finding, ids, results)) == TargetStep(start, Fine);
      var asset;
      asset, halt, next := ObtainAsset(k, ids, results, fate, next);
      if halt.Some? {
        return;
      }
      halt, next := Publish(k, asset, ids, results, fate, next);
      if halt.Some? {
        return;
      }
      after, halt := Complete(k, asset, ids, results, fate, next);
    }

    method Complete(k: nat, asset: nat, ids: map<Uuid, Option<nat>>, results: map<Uuid, TargetResult>,
                    ghost fate: nat -> Fate, ghost tick: nat)
      returns (after: map<Uuid, TargetResult>, halt: Option<Halt>)
      requires k < |targets|
      modifies this`mappings, this`bindings
      ensures halt.Some? ==> halt.value.Conflict?
      ensures Drive(ViewAt(halt, k + 1, Reserving, ids, after), fate, tick) ==
                Drive(old(View(On(k, Activating(asset), ids, results))), fate, tick)
    {
      ghost var start := View(On(k, Activating(asset), ids, results));
      DriveLocal(start, fate, tick);
      ActivatingStep(start);
      var activated := ActivateTarget(targets[k], asset);
      if !activated {
        return results, Some(Conflict);
      }
      return results[targets[k].deviceId := ResultFor(targets[k], asset)], None;
    }

    method ApplyTargets(ids: map<Uuid, Option<nat>>, fate: nat -> Fate)
      returns (halt: Option<Halt>, results: map<Uuid, TargetResult>, ghost tick: nat)
      modifies this`mappings, this`bindings, this`assets, this`attributes
      ensures halt.Some? ==> halt.value.Interrupted? || halt.value.Conflict?
      ensures halt == Some(Interrupted) ==> exists n: nat :: !fate(n).Fine?
      ensures Drive(ViewAt(halt, |targets|, Reserving, ids, results), fate, tick) ==
                Drive(old(View(On(0, Reserving, ids, map[]))), fate, 0)
    {
      ghost var start := View(On(0, Reserving, ids, map[]));
      results := map[];
      var k, now := 0, 0;
      while k < |targets|
        invariant 0 <= k <= |targets|
        invariant Drive(View(On(k, Reserving, ids, results)), fate, now) == Drive(start, fate, 0)
      {
        results, halt, now := ApplyTarget(k, ids, results, fate, now);
        if halt.Some? {
          tick := now;
          return;
        }
        k := k + 1;
      }
      halt, tick := None, now;
    }

    /**
      `apply`: refused for a plan that is applied or expired; otherwise lock and preflight, then target by target, then
      the receipt. It ends as its calls go, completed exactly with a receipt and interrupted only by a call that did not
      go well; on a plan that earlier applies have left it leads to the outcome of such an apply.
     */
    method Apply(now: Time, fate: nat -> Fate) returns (halt: Halt)
      modifies this
      ensures halt.NotStarted? <==> old(plan).receipt.Some? || now >= old(plan).expiresAt
      ensures halt.NotStarted? ==> View(Off(halt)) == old(View(Off(NotStarted)))
      ensures !halt.NotStarted? ==> View(Off(halt)) == Drive(Act(old(View(Off(NotStarted))), Start(now)), fate, 0)
      ensures !halt.NotStarted? ==> (halt.Completed? <==> plan.receipt.Some?)
      ensures halt.Interrupted? ==> exists n: nat :: !fate(n).Fine?
      ensures !halt.NotStarted? ==>
                forall s0 :: LeftBehind(old(View(Off(NotStarted))), s0) ==>
                  ApplyOutcome(old(View(Off(NotStarted))), View(Off(halt)), halt, fate, s0)
    {
      if plan.receipt.Some? || now >= plan.expiresAt {
        return NotStarted;
      }
      ghost var start := View(Off(NotStarted));
      var ids := Preflight(codec, Site(mappings, bindings, assets, attributes), targets);
      if ids.None? {
        halt := Conflict;
      } else {
        halt := Work(ids.value, fate);
      }
      assert View(Off(halt)) == Drive(Act(start, Start(now)), fate, 0);
      forall s0 | LeftBehind(start, s0) ensures ApplyOutcome(start, View(Off(halt)), halt, fate, s0) {
        ApplyLeadsOn(start, s0, now, fate);
      }
    }

    /** The targets, and the receipt when all of them are done. */
    method Work(ids: map<Uuid, Option<nat>>, fate: nat -> Fate) returns (halt: Halt)
      requires plan.receipt.None?
      modifies this
      ensures !halt.NotStarted? && (halt.Completed? <==> plan.receipt.Some?)
      ensures halt.Interrupted? ==> exists n: nat :: !fate(n).Fine?
      ensures View(Off(halt)) == Drive(old(View(On(0, Reserving, ids, map[]))), fate, 0)
    {
      var stopped, results;
      ghost var tick;
      stopped, results, tick := ApplyTargets(ids, fate);
      if stopped.Some? {
        return stopped.value;
      }
      assert View(On(|targets|, Reserving, ids, results)).applier.k >= |targets|;
      plan := plan.(receipt := Some(results));
      halt := Completed;
    }
  }
}
