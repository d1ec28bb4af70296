/** Exactly when the provisioning transactions and preflight refuse, and what they write. */
module ProvisioningTables {
  import opened Basics
  import opened Provisioning

  // ---------------------------------------------------------------- reservation and activation

  /** Row `i` is the first of the device. */
  predicate IsRowOf(mappings: seq<MappingRow>, i: nat, deviceId: Uuid) {
    i < |mappings| && mappings[i].deviceId == deviceId && forall j :: 0 <= j < i ==> mappings[j].deviceId != deviceId
  }

  lemma {:induction false} IndexIsFirst(mappings: seq<MappingRow>, deviceId: Uuid)
    ensures IndexOfDevice(mappings, deviceId).Some? ==> IsRowOf(mappings, IndexOfDevice(mappings, deviceId).value, deviceId)
  {
    if mappings != [] {
      IndexIsFirst(mappings[..|mappings| - 1], deviceId);
    }
  }

  ghost predicate HasDevice(mappings: seq<MappingRow>, deviceId: Uuid) {
    exists i :: 0 <= i < |mappings| && mappings[i].deviceId == deviceId
  }

  /** The device is reserved for something else, or the equipment for another device. */
  ghost predicate ReservationClashes(mappings: seq<MappingRow>, t: Target) {
    || (exists i: nat :: IsRowOf(mappings, i, t.deviceId) &&
          (mappings[i].equipmentId != t.equipmentId || mappings[i].request != AssetRequest(t.name, t.equipmentId)))
    || (!HasDevice(mappings, t.deviceId) && exists i :: 0 <= i < |mappings| && mappings[i].equipmentId == t.equipmentId)
  }

  /** What `reserve_target` answers, and the mappings it leaves. */
  ghost predicate ReserveOutcome(before: Site, after: Site, ok: bool, t: Target) {
    && (ok <==> !ReservationClashes(before.mappings, t))
    && after == before.(mappings := after.mappings)
    && after.mappings ==
         if ok && !HasDevice(before.mappings, t.deviceId)
         then before.mappings
              + [MappingRow(t.deviceId, t.equipmentId, None, AssetRequest(t.name, t.equipmentId), false, true)]
         else before.mappings
  }

  lemma ReserveIsExact(s: Site, t: Target)
    ensures var r := Reserve(s, t); ReserveOutcome(s, if r.Some? then r.value else s, r.Some?, t)
  {
    IndexIsFirst(s.mappings, t.deviceId);
    if i: nat :| IsRowOf(s.mappings, i, t.deviceId) {
      assert IndexOfDevice(s.mappings, t.deviceId) == Some(i);
    }
  }

  predicate IsBindingOf(b: BindingRow, t: Target) {
    b.equipmentId == t.equipmentId && b.measCode == t.measurement.measCode
  }

  /** The device is reserved for the equipment and may take the asset, which no other row has. */
  predicate MayTake(mappings: seq<MappingRow>, i: nat, t: Target, asset: nat) {
    && IsRowOf(mappings, i, t.deviceId) && mappings[i].equipmentId == t.equipmentId
    && (mappings[i].assetId == None || mappings[i].assetId == Some(asset))
    && forall j :: 0 <= j < |mappings| && j != i ==> mappings[j].assetId != Some(asset)
  }

  /** What `activate_target` answers, and the rows it leaves. */
  ghost predicate ActivateOutcome(c: Codec, before: Site, after: Site, ok: bool, t: Target, asset: nat) {
    && (ok <==>
          && (exists i :: MayTake(before.mappings, i, t, asset))
          && forall b :: b in before.bindings && IsBindingOf(b, t) ==> c.read(b) == t.measurement)
    && (!ok ==> after == before)
    && after.assets == before.assets && after.attributes == before.attributes
    && (ok ==>
          && (forall i: nat :: IsRowOf(before.mappings, i, t.deviceId) ==>
                after.mappings ==
                before.mappings[i := before.mappings[i].(assetId := Some(asset), active := true, enabled := true)])
          && after.bindings == if exists b :: b in before.bindings && IsBindingOf(b, t) then before.bindings
                               else before.bindings + [c.write(t.equipmentId, t.measurement)])
  }

  lemma AgreementIsExact(c: Codec, bindings: seq<BindingRow>, t: Target)
    ensures BindingsAgree(c, bindings, t) <==> forall b :: b in bindings && IsBindingOf(b, t) ==> c.read(b) == t.measurement
    ensures HasBinding(bindings, t) <==> exists b :: b in bindings && IsBindingOf(b, t)
  {
    if HasBinding(bindings, t) {
      var i :| 0 <= i < |bindings| && bindings[i].equipmentId == t.equipmentId && bindings[i].measCode == t.measurement.measCode;
      assert IsBindingOf(bindings[i], t);
    }
    if BindingsAgree(c, bindings, t) {
      forall b | b in bindings && IsBindingOf(b, t) ensures c.read(b) == t.measurement {
        var i :| 0 <= i < |bindings| && bindings[i] == b;
      }
    } else {
      var i :| 0 <= i < |bindings| && bindings[i].equipmentId == t.equipmentId && bindings[i].measCode == t.measurement.measCode
               && c.read(bindings[i]) != t.measurement;
      assert IsBindingOf(bindings[i], t);
    }
  }

  lemma ActivateIsExact(c: Codec, s: Site, t: Target, asset: nat)
    ensures var r := Activate(c, s, t, asset); ActivateOutcome(c, s, if r.Some? then r.value else s, r.Some?, t, asset)
  {
    var found := IndexOfDevice(s.mappings, t.deviceId);
    IndexIsFirst(s.mappings, t.deviceId);
    AgreementIsExact(c, s.bindings, t);
    forall i: nat | IsRowOf(s.mappings, i, t.deviceId) ensures found == Some(i) {}
    if Activate(c, s, t, asset).Some? {
      assert MayTake(s.mappings, found.value, t, asset);
    }
  }

  // ---------------------------------------------------------------- preflight

  ghost predicate DistinctTargets(ts: seq<Target>) {
    forall i, j :: 0 <= i < j < |ts| ==> ts[i].deviceId != ts[j].deviceId && ts[i].equipmentId != ts[j].equipmentId
  }

  /** The row is what a reservation or an activation of the target leaves. */
  predicate IsLeftBy(m: MappingRow, t: Target) {
    && m.deviceId == t.deviceId && m.equipmentId == t.equipmentId && m.request == AssetRequest(t.name, t.equipmentId)
    && m.enabled && (m.active <==> m.assetId.Some?) && (m.active ==> m.assetId.value > 0)
  }

  lemma {:induction false} DeviceFinds(ts: seq<Target>, k: nat)
    requires DistinctTargets(ts) && k < |ts|
    ensures TargetOfDevice(ts, ts[k].deviceId) == Some(ts[k]) && TargetOfEquipment(ts, ts[k].equipmentId) == Some(ts[k])
  {
    if k < |ts| - 1 {
      DeviceFinds(ts[..|ts| - 1], k);
    }
  }

  lemma FitsIsLeftBy(m: MappingRow, ts: seq<Target>)
    requires DistinctTargets(ts)
    ensures MappingFits(m, ts) <==> exists k :: 0 <= k < |ts| && IsLeftBy(m, ts[k])
  {
    if k :| 0 <= k < |ts| && IsLeftBy(m, ts[k]) {
      DeviceFinds(ts, k);
    }
    if MappingFits(m, ts) {
      var k :| 0 <= k < |ts| && ts[k] == TargetOfDevice(ts, m.deviceId).value;
      assert IsLeftBy(m, ts[k]);
    }
  }

  /** The binding is the target's, whose mapping is active. */
  ghost predicate IsBoundBy(c: Codec, b: BindingRow, mappings: seq<MappingRow>, t: Target) {
    && b.equipmentId == t.equipmentId && c.read(b) == t.measurement
    && exists i :: 0 <= i < |mappings| && mappings[i].equipmentId == b.equipmentId && mappings[i].active
  }

  /** Equipment is the key of the mappings. */
  ghost predicate KeyedByEquipment(mappings: seq<MappingRow>) {
    forall i, j :: 0 <= i < j < |mappings| ==> mappings[i].equipmentId != mappings[j].equipmentId
  }

  lemma MappingIsKeyed(mappings: seq<MappingRow>, i: nat)
    requires KeyedByEquipment(mappings) && i < |mappings|
    ensures MappingOfEquipment(mappings, mappings[i].equipmentId) == Some(mappings[i])
  {}

  lemma FitsIsBoundBy(c: Codec, b: BindingRow, mappings: seq<MappingRow>, ts: seq<Target>)
    requires DistinctTargets(ts) && KeyedByEquipment(mappings)
    ensures BindingFits(c, b, mappings, ts) <==> exists k :: 0 <= k < |ts| && IsBoundBy(c, b, mappings, ts[k])
  {
    if k :| 0 <= k < |ts| && IsBoundBy(c, b, mappings, ts[k]) {
      DeviceFinds(ts, k);
      var i :| 0 <= i < |mappings| && mappings[i].equipmentId == b.equipmentId && mappings[i].active;
      MappingIsKeyed(mappings, i);
    }
    if BindingFits(c, b, mappings, ts) {
      var k :| 0 <= k < |ts| && ts[k] == TargetOfEquipment(ts, b.equipmentId).value;
      var i :| 0 <= i < |mappings| && mappings[i] == MappingOfEquipment(mappings, b.equipmentId).value;
      assert IsBoundBy(c, b, mappings, ts[k]);
    }
  }

  /** Binding `j` is the only one of its equipment. */
  predicate IsOnly(bindings: seq<BindingRow>, j: nat, e: Uuid) {
    j < |bindings| && bindings[j].equipmentId == e
    && forall i :: 0 <= i < |bindings| && bindings[i].equipmentId == e ==> i == j
  }

  lemma {:induction false} CountIsExact(bindings: seq<BindingRow>, e: Uuid)
    ensures CountBindings(bindings, e) == 0 <==> forall j :: 0 <= j < |bindings| ==> bindings[j].equipmentId != e
    ensures CountBindings(bindings, e) == 1 <==> exists j :: IsOnly(bindings, j, e)
  {
    if bindings != [] {
      var n := |bindings| - 1;
      CountIsExact(bindings[..n], e);
      if bindings[n].equipmentId == e {
        if CountBindings(bindings[..n], e) == 0 {
          assert forall j :: 0 <= j < n ==> bindings[j] == bindings[..n][j];
          assert IsOnly(bindings, n, e);
        } else {
          var i :| 0 <= i < n && bindings[..n][i].equipmentId == e;
          assert bindings[i].equipmentId == e;
        }
      } else {
        if j: nat :| IsOnly(bindings[..n], j, e) {
          assert IsOnly(bindings, j, e);
        }
        if j: nat :| IsOnly(bindings, j, e) {
          assert IsOnly(bindings[..n], j, e);
        }
      }
    }
  }

  ghost predicate MappingsLeft(mappings: seq<MappingRow>, ts: seq<Target>) {
    forall m :: m in mappings ==> exists k :: 0 <= k < |ts| && IsLeftBy(m, ts[k])
  }

  ghost predicate BindingsBound(c: Codec, s: Site, ts: seq<Target>) {
    forall b :: b in s.bindings ==> exists k :: 0 <= k < |ts| && IsBoundBy(c, b, s.mappings, ts[k])
  }

  /** An active mapping has exactly one binding, and a reserved one none. */
  ghost predicate BoundOnce(m: MappingRow, bindings: seq<BindingRow>) {
    if m.active then exists j :: IsOnly(bindings, j, m.equipmentId)
    else forall j :: 0 <= j < |bindings| ==> bindings[j].equipmentId != m.equipmentId
  }

  ghost predicate AllBoundOnce(s: Site) { forall m :: m in s.mappings ==> BoundOnce(m, s.bindings) }

  lemma MappingsFit(mappings: seq<MappingRow>, ts: seq<Target>)
    requires DistinctTargets(ts)
    ensures (forall i :: 0 <= i < |mappings| ==> MappingFits(mappings[i], ts)) <==> MappingsLeft(mappings, ts)
  {
    forall m | m in mappings ensures MappingFits(m, ts) <==> exists k :: 0 <= k < |ts| && IsLeftBy(m, ts[k]) {
      FitsIsLeftBy(m, ts);
    }
  }

  lemma BindingsFit(c: Codec, s: Site, ts: seq<Target>)
    requires DistinctTargets(ts) && KeyedByEquipment(s.mappings)
    ensures (forall i :: 0 <= i < |s.bindings| ==> BindingFits(c, s.bindings[i], s.mappings, ts)) <==> BindingsBound(c, s, ts)
  {
    forall b | b in s.bindings
      ensures BindingFits(c, b, s.mappings, ts) <==> exists k :: 0 <= k < |ts| && IsBoundBy(c, b, s.mappings, ts[k])
    {
      FitsIsBoundBy(c, b, s.mappings, ts);
    }
  }

  ghost predicate CountsMatch(s: Site) {
    forall e :: MappingOfEquipment(s.mappings, e).Some? ==> CountFits(s.bindings, MappingOfEquipment(s.mappings, e).value)
  }

  lemma CountsFit(s: Site)
    requires KeyedByEquipment(s.mappings)
    ensures CountsMatch(s) <==> AllBoundOnce(s)
  {
    forall m | m in s.mappings
      ensures MappingOfEquipment(s.mappings, m.equipmentId) == Some(m) && (CountFits(s.bindings, m) <==> BoundOnce(m, s.bindings))
    {
      var i :| 0 <= i < |s.mappings| && s.mappings[i] == m;
      MappingIsKeyed(s.mappings, i);
      CountIsExact(s.bindings, m.equipmentId);
    }
    if AllBoundOnce(s) {
      forall e | MappingOfEquipment(s.mappings, e).Some? ensures CountFits(s.bindings, MappingOfEquipment(s.mappings, e).value) {
        assert BoundOnce(MappingOfEquipment(s.mappings, e).value, s.bindings);
      }
    }
  }

  /**
    Preflight accepts exactly tables in which every mapping is what some target leaves, every binding is that of a target
    with an active mapping, and an active mapping has one binding and a reserved one none.
   */
  lemma PreflightIsExact(c: Codec, s: Site, ts: seq<Target>)
    requires DistinctTargets(ts) && KeyedByEquipment(s.mappings)
    ensures PreflightAccepts(c, s, ts) <==> MappingsLeft(s.mappings, ts) && BindingsBound(c, s, ts) && AllBoundOnce(s)
  {
    MappingsFit(s.mappings, ts);
    BindingsFit(c, s, ts);
    CountsFit(s);
  }
}
