/** Interrupted applies leave one of a fixed line of states, and a complete one ends where an undisturbed one ends. */
module ProvisioningRecovery {
  import opened Basics
  import opened Provisioning
  import opened ProvisioningApply

  // ---------------------------------------------------------------- what a plan needs

  ghost predicate RoundTrips(c: Codec, t: Target) {
    var row := c.write(t.equipmentId, t.measurement);
    row.equipmentId == t.equipmentId && row.measCode == t.measurement.measCode && c.read(row) == t.measurement
  }

  /** Targets differ in device and equipment, and every measurement survives the database. */
  ghost predicate GoodPlan(c: Codec, ts: seq<Target>) {
    && (forall i, j :: 0 <= i < j < |ts| ==> ts[i].deviceId != ts[j].deviceId && ts[i].equipmentId != ts[j].equipmentId)
    && forall i :: 0 <= i < |ts| ==> RoundTrips(c, ts[i])
  }

  /** Assets that exist already for equipment of the plan carry the right name. */
  ghost predicate AssetsFit(assets: seq<Asset>, ts: seq<Target>) {
    forall i :: 0 <= i < |ts| ==>
      var found := FindAsset(assets, ts[i].equipmentId);
      found.Some? ==> assets[found.value - 1] == AssetFor(ts[i])
  }

  // ---------------------------------------------------------------- assets, in the order of the targets

  function WithAsset(assets: seq<Asset>, t: Target): (r: seq<Asset>)
    ensures assets <= r
  {
    if FindAsset(assets, t.equipmentId).Some? then assets else assets + [AssetFor(t)]
  }

  function AssetsAfter(assets: seq<Asset>, ts: seq<Target>, f: nat): seq<Asset>
    requires f <= |ts|
  {
    if f == 0 then assets else WithAsset(AssetsAfter(assets, ts, f - 1), ts[f - 1])
  }

  lemma FindSnoc(assets: seq<Asset>, a: Asset, e: Uuid)
    ensures FindAsset(assets + [a], e) ==
              if FindAsset(assets, e).Some? then FindAsset(assets, e)
              else if a.equipmentId == e then Some(|assets| + 1) else None
  {
    assert (assets + [a])[..|assets|] == assets;
  }

  lemma {:induction false} FindInLonger(xs: seq<Asset>, ys: seq<Asset>, e: Uuid)
    requires xs <= ys && FindAsset(xs, e).Some?
    ensures FindAsset(ys, e) == FindAsset(xs, e)
    decreases |ys|
  {
    if |xs| < |ys| {
      FindInLonger(xs, ys[..|ys| - 1], e);
    } else {
      assert xs == ys;
    }
  }

  lemma {:induction false} AssetsGrow(assets: seq<Asset>, ts: seq<Target>, f: nat, g: nat)
    requires f <= g <= |ts|
    ensures AssetsAfter(assets, ts, f) <= AssetsAfter(assets, ts, g)
  {
    if f < g {
      AssetsGrow(assets, ts, f, g - 1);
    }
  }

  lemma FoundWith(assets: seq<Asset>, t: Target, e: Uuid)
    ensures e != t.equipmentId ==> FindAsset(WithAsset(assets, t), e) == FindAsset(assets, e)
  {
    FindSnoc(assets, AssetFor(t), e);
  }

  /** Before its turn a target has no asset but one that was there from the start. */
  lemma {:induction false} NotYetCreated(c: Codec, assets: seq<Asset>, ts: seq<Target>, f: nat, k: nat)
    requires GoodPlan(c, ts) && f <= k < |ts|
    ensures FindAsset(AssetsAfter(assets, ts, f), ts[k].equipmentId) == FindAsset(assets, ts[k].equipmentId)
  {
    if f > 0 {
      NotYetCreated(c, assets, ts, f - 1, k);
      assert ts[f - 1].equipmentId != ts[k].equipmentId;
      FoundWith(AssetsAfter(assets, ts, f - 1), ts[f - 1], ts[k].equipmentId);
    }
  }

  // ---------------------------------------------------------------- the line of states

  /** A plan, the state it starts from, and the asset id each target gets. */
  datatype Line = Line(c: Codec, s0: Site, ts: seq<Target>, ids: seq<nat>)

  ghost predicate IdRight(l: Line, i: nat)
    requires i < |l.ts| && i < |l.ids|
  {
    FindAsset(AssetsAfter(l.s0.assets, l.ts, i + 1), l.ts[i].equipmentId) == Some(l.ids[i])
  }

  ghost predicate GoodLine(l: Line) {
    && GoodPlan(l.c, l.ts) && AssetsFit(l.s0.assets, l.ts)
    && l.s0.mappings == [] && l.s0.bindings == []
    && |l.ids| == |l.ts|
    && (forall i :: 0 <= i < |l.ids| ==> IdRight(l, i))
    && (forall i :: 0 <= i < |l.ids| ==> l.ids[i] >= 1)
    && (forall i, j :: 0 <= i < j < |l.ids| ==> l.ids[i] != l.ids[j])
  }

  function MappingsAfter(l: Line, f: nat): (r: seq<MappingRow>)
    requires f <= |l.ts| == |l.ids|
    ensures |r| == f && forall i :: 0 <= i < f ==> r[i] == ActiveRow(l.ts[i], l.ids[i])
  {
    seq(f, i requires 0 <= i < f => ActiveRow(l.ts[i], l.ids[i]))
  }

  function BindingsAfter(l: Line, f: nat): (r: seq<BindingRow>)
    requires f <= |l.ts|
    ensures |r| == f && forall i :: 0 <= i < f ==> r[i] == l.c.write(l.ts[i].equipmentId, l.ts[i].measurement)
  {
    seq(f, i requires 0 <= i < f => l.c.write(l.ts[i].equipmentId, l.ts[i].measurement))
  }

  function AttributeAt(l: Line, i: nat): Attribute
    requires i < |l.ts| == |l.ids|
  {
    Attribute(l.ts[i].equipmentId, l.ids[i])
  }

  function AttributesAfter(l: Line, f: nat): map<Uuid, Attribute>
    requires f <= |l.ts| == |l.ids|
  {
    if f == 0 then l.s0.attributes else AttributesAfter(l, f - 1)[l.ts[f - 1].deviceId := AttributeAt(l, f - 1)]
  }

  function ResultsAfter(l: Line, f: nat): map<Uuid, TargetResult>
    requires f <= |l.ts| == |l.ids|
  {
    if f == 0 then map[] else ResultsAfter(l, f - 1)[l.ts[f - 1].deviceId := ResultFor(l.ts[f - 1], l.ids[f - 1])]
  }

  predicate OnLine(l: Line, f: nat, level: nat) {
    |l.ts| == |l.ids| && f <= |l.ts| && level <= 3 && (level > 0 ==> f < |l.ts|)
  }

  function LineMappings(l: Line, f: nat, level: nat): seq<MappingRow>
    requires OnLine(l, f, level)
  {
    MappingsAfter(l, f) + (if level >= 1 then [ReservedRow(l.ts[f])] else [])
  }

  /**
    The `f` first targets are active; level 1 has the next one reserved, level 2 its asset created as well, and level 3
    its attributes written.
   */
  function SiteAt(l: Line, f: nat, level: nat): Site
    requires OnLine(l, f, level)
  {
    Site(LineMappings(l, f, level),
         BindingsAfter(l, f),
         AssetsAfter(l.s0.assets, l.ts, if level >= 2 then f + 1 else f),
         AttributesAfter(l, if level >= 3 then f + 1 else f))
  }

  // ---------------------------------------------------------------- lookups on the line

  lemma AssetIsRight(l: Line, i: nat, f: nat)
    requires GoodLine(l) && i < f <= |l.ts|
    ensures var assets := AssetsAfter(l.s0.assets, l.ts, f);
            && FindAsset(assets, l.ts[i].equipmentId) == Some(l.ids[i])
            && 1 <= l.ids[i] <= |assets| && assets[l.ids[i] - 1] == AssetFor(l.ts[i])
  {
    assert IdRight(l, i);
    AssetsGrow(l.s0.assets, l.ts, i + 1, f);
    FindInLonger(AssetsAfter(l.s0.assets, l.ts, i + 1), AssetsAfter(l.s0.assets, l.ts, f), l.ts[i].equipmentId);
    AssetNamed(l, i);
  }

  lemma AssetNamed(l: Line, i: nat)
    requires GoodLine(l) && i < |l.ts|
    ensures var assets := AssetsAfter(l.s0.assets, l.ts, i + 1);
            1 <= l.ids[i] <= |assets| && assets[l.ids[i] - 1] == AssetFor(l.ts[i])
  {
    assert IdRight(l, i);
    var before := AssetsAfter(l.s0.assets, l.ts, i);
    NotYetCreated(l.c, l.s0.assets, l.ts, i, i);
    AssetsGrow(l.s0.assets, l.ts, 0, i);
    FindSnoc(before, AssetFor(l.ts[i]), l.ts[i].equipmentId);
  }

  lemma {:induction false} IndexInTable(mappings: seq<MappingRow>, d: Uuid, k: nat)
    requires k < |mappings| && mappings[k].deviceId == d
    requires forall i :: 0 <= i < k ==> mappings[i].deviceId != d
    ensures IndexOfDevice(mappings, d) == Some(k)
  {
    if k < |mappings| - 1 {
      IndexInTable(mappings[..|mappings| - 1], d, k);
    }
  }

  lemma LineIndex(l: Line, f: nat, level: nat, k: nat)
    requires GoodPlan(l.c, l.ts) && OnLine(l, f, level) && k < |l.ts|
    ensures var mappings := LineMappings(l, f, level);
            IndexOfDevice(mappings, l.ts[k].deviceId) == (if k < |mappings| then Some(k) else None)
  {
    var mappings := LineMappings(l, f, level);
    assert forall i :: 0 <= i < |mappings| ==> mappings[i].deviceId == l.ts[i].deviceId;
    if k < |mappings| {
      IndexInTable(mappings, l.ts[k].deviceId, k);
    }
  }

  lemma {:induction false} AttributesHold(l: Line, i: nat, f: nat)
    requires GoodPlan(l.c, l.ts) && |l.ts| == |l.ids| && i < f <= |l.ts|
    ensures l.ts[i].deviceId in AttributesAfter(l, f) && AttributesAfter(l, f)[l.ts[i].deviceId] == AttributeAt(l, i)
  {
    if i < f - 1 {
      AttributesHold(l, i, f - 1);
    }
  }

  lemma {:induction false} ResultsHold(l: Line, f: nat)
    requires f <= |l.ts| == |l.ids|
    ensures ResultsAfter(l, f).Keys == DevicesOf(l.ts[..f])
  {
    if f > 0 {
      ResultsHold(l, f - 1);
      assert l.ts[..f][..f - 1] == l.ts[..f - 1];
    }
  }

  lemma {:induction false} DevicesAreDistinct(c: Codec, ts: seq<Target>, f: nat)
    requires GoodPlan(c, ts) && f <= |ts|
    ensures |DevicesOf(ts[..f])| == f
    ensures forall k :: f <= k < |ts| ==> ts[k].deviceId !in DevicesOf(ts[..f])
  {
    if f > 0 {
      DevicesAreDistinct(c, ts, f - 1);
      assert ts[..f][..f - 1] == ts[..f - 1];
    }
  }

  // ---------------------------------------------------------------- preflight accepts every state on the line

  lemma {:induction false} TargetByDevice(c: Codec, ts: seq<Target>, n: nat, k: nat)
    requires GoodPlan(c, ts) && k < n <= |ts|
    ensures TargetOfDevice(ts[..n], ts[k].deviceId) == Some(ts[k])
    ensures TargetOfEquipment(ts[..n], ts[k].equipmentId) == Some(ts[k])
  {
    assert ts[..n][..n - 1] == ts[..n - 1];
    if k < n - 1 {
      TargetByDevice(c, ts, n - 1, k);
    }
  }

  lemma TargetFound(c: Codec, ts: seq<Target>, k: nat)
    requires GoodPlan(c, ts) && k < |ts|
    ensures TargetOfDevice(ts, ts[k].deviceId) == Some(ts[k])
    ensures TargetOfEquipment(ts, ts[k].equipmentId) == Some(ts[k])
  {
    TargetByDevice(c, ts, |ts|, k);
    assert ts[..|ts|] == ts;
  }

  lemma {:induction false} MappingInTable(mappings: seq<MappingRow>, k: nat)
    requires k < |mappings|
    requires forall i :: k < i < |mappings| ==> mappings[i].equipmentId != mappings[k].equipmentId
    ensures MappingOfEquipment(mappings, mappings[k].equipmentId) == Some(mappings[k])
  {
    if k < |mappings| - 1 {
      MappingInTable(mappings[..|mappings| - 1], k);
    }
  }

  lemma {:induction false} CountOnLine(l: Line, f: nat, k: nat)
    requires GoodPlan(l.c, l.ts) && f <= |l.ts| && k < |l.ts|
    ensures CountBindings(BindingsAfter(l, f), l.ts[k].equipmentId) == if k < f then 1 else 0
  {
    if f > 0 {
      CountOnLine(l, f - 1, k);
      assert BindingsAfter(l, f)[..f - 1] == BindingsAfter(l, f - 1);
      assert RoundTrips(l.c, l.ts[f - 1]);
    }
  }

  lemma LineMappingOf(l: Line, f: nat, level: nat, k: nat)
    requires GoodPlan(l.c, l.ts) && OnLine(l, f, level) && k < |LineMappings(l, f, level)|
    ensures var mappings := LineMappings(l, f, level);
            MappingOfEquipment(mappings, l.ts[k].equipmentId) == Some(mappings[k])
  {
    var mappings := LineMappings(l, f, level);
    assert forall i :: 0 <= i < |mappings| ==> mappings[i].equipmentId == l.ts[i].equipmentId;
    MappingInTable(mappings, k);
  }

  lemma LineMappingFits(l: Line, f: nat, level: nat, i: nat)
    requires GoodLine(l) && OnLine(l, f, level) && i < |LineMappings(l, f, level)|
    ensures MappingFits(LineMappings(l, f, level)[i], l.ts)
  {
    TargetFound(l.c, l.ts, i);
  }

  lemma LineBindingFits(l: Line, f: nat, level: nat, i: nat)
    requires GoodLine(l) && OnLine(l, f, level) && i < f
    ensures BindingFits(l.c, BindingsAfter(l, f)[i], LineMappings(l, f, level), l.ts)
  {
    assert RoundTrips(l.c, l.ts[i]);
    TargetFound(l.c, l.ts, i);
    LineMappingOf(l, f, level, i);
  }

  lemma LineCountFits(l: Line, f: nat, level: nat, m: MappingRow)
    requires GoodLine(l) && OnLine(l, f, level) && m in LineMappings(l, f, level)
    ensures CountFits(BindingsAfter(l, f), m)
  {
    var k :| 0 <= k < |LineMappings(l, f, level)| && LineMappings(l, f, level)[k] == m;
    CountOnLine(l, f, k);
  }

  /** Preflight accepts whatever an interrupted apply left. */
  lemma PreflightOnLine(l: Line, f: nat, level: nat)
    requires GoodLine(l) && OnLine(l, f, level)
    ensures PreflightAccepts(l.c, SiteAt(l, f, level), l.ts)
  {
    var s := SiteAt(l, f, level);
    forall i | 0 <= i < |s.mappings| ensures MappingFits(s.mappings[i], l.ts) {
      LineMappingFits(l, f, level, i);
    }
    forall i | 0 <= i < |s.bindings| ensures BindingFits(l.c, s.bindings[i], s.mappings, l.ts) {
      LineBindingFits(l, f, level, i);
    }
    forall e | MappingOfEquipment(s.mappings, e).Some?
      ensures CountFits(s.bindings, MappingOfEquipment(s.mappings, e).value)
    {
      LineCountFits(l, f, level, MappingOfEquipment(s.mappings, e).value);
    }
  }

  lemma {:induction false} IdsInTable(mappings: seq<MappingRow>, d: Uuid)
    requires d in AssetIds(mappings)
    ensures exists i :: 0 <= i < |mappings| && mappings[i].deviceId == d && mappings[i].assetId == AssetIds(mappings)[d]
  {
    var n := |mappings| - 1;
    if mappings[n].deviceId != d {
      IdsInTable(mappings[..n], d);
      var i :| 0 <= i < n && mappings[..n][i].deviceId == d && mappings[..n][i].assetId == AssetIds(mappings[..n])[d];
      assert mappings[i].deviceId == d;
    }
  }

  /** Preflight found ids only for active targets, and those the targets have. */
  ghost predicate IdsRight(l: Line, ids: map<Uuid, Option<nat>>, f: nat)
    requires |l.ts| == |l.ids|
  {
    forall k :: 0 <= k < |l.ts| && l.ts[k].deviceId in ids && ids[l.ts[k].deviceId].Some? ==>
      k < f && ids[l.ts[k].deviceId] == Some(l.ids[k])
  }

  lemma LineIds(l: Line, f: nat, level: nat)
    requires GoodLine(l) && OnLine(l, f, level)
    ensures IdsRight(l, AssetIds(LineMappings(l, f, level)), f)
  {
    var mappings := LineMappings(l, f, level);
    var ids := AssetIds(mappings);
    forall k | 0 <= k < |l.ts| && l.ts[k].deviceId in ids && ids[l.ts[k].deviceId].Some?
      ensures k < f && ids[l.ts[k].deviceId] == Some(l.ids[k])
    {
      IdsInTable(mappings, l.ts[k].deviceId);
      var i :| 0 <= i < |mappings| && mappings[i].deviceId == l.ts[k].deviceId && mappings[i].assetId == ids[l.ts[k].deviceId];
      assert mappings[i].deviceId == l.ts[i].deviceId;
      assert i == k;
    }
  }

  // ---------------------------------------------------------------- the invariant of a play

  /** How far target `k` is: 3 and more is everything but the activation. */
  function Reached(k: nat, f: nat, level: nat): nat { if k < f then 4 else if k == f then level else 0 }

  ghost predicate PhaseOk(l: Line, a: Applier, f: nat, level: nat)
    requires a.On? && a.k < |l.ts| == |l.ids| && OnLine(l, f, level)
  {
    var r, id := Reached(a.k, f, level), l.ids[a.k];
    match a.phase
    case Reserving => true
    case Finding => r >= 1
    case Creating => r == 1 && FindAsset(AssetsAfter(l.s0.assets, l.ts, f), l.ts[f].equipmentId).None?
    case Refinding => r >= 1
    case Writing(asset) => r >= 2 && asset == id
    case ReadingBack(asset) => r >= 2 && asset == id
    case Confirming(asset) => r >= 3 && asset == id
    case Activating(asset) => r >= 3 && asset == id
  }

  ghost predicate ApplierOk(l: Line, w: World, f: nat, level: nat)
    requires OnLine(l, f, level)
  {
    if w.applier.Off? then
      && (w.plan.receipt.Some? ==> f == |l.ts| && w.plan.receipt.value == ResultsAfter(l, f))
      && (w.applier.last.Completed? ==> w.plan.receipt.Some?)
    else
      && w.plan.receipt.None?
      && w.applier.k <= f
      && IdsRight(l, w.applier.ids, f)
      && w.applier.results == ResultsAfter(l, w.applier.k)
      && (w.applier.k < |l.ts| ==> PhaseOk(l, w.applier, f, level))
  }

  ghost predicate WorldOk(l: Line, w: World, f: nat, level: nat) {
    && OnLine(l, f, level)
    && w.codec == l.c && w.targets == l.ts
    && w.site == SiteAt(l, f, level)
    && ApplierOk(l, w, f, level)
  }

  // ---------------------------------------------------------------- one step

  predicate Calm(w: World) { w.applier != Off(Conflict) }

  /** The attributes about to be read back are complete and differ from the target's. */
  predicate ReadsForeign(w: World) {
    w.applier.On? && w.applier.k < |w.targets| && w.applier.phase.ReadingBack? &&
    var t := w.targets[w.applier.k];
    t.deviceId in w.site.attributes && w.site.attributes[t.deviceId] != Attribute(t.equipmentId, w.applier.phase.asset)
  }

  lemma EnterOk(l: Line, w: World, f: nat, level: nat, lv: nat, phase: Phase)
    requires WorldOk(l, w, f, level) && w.applier.On? && w.applier.k < |l.ts| && OnLine(l, f, lv)
    requires PhaseOk(l, w.applier.(phase := phase), f, lv)
    ensures WorldOk(l, Enter(w.(site := SiteAt(l, f, lv)), phase), f, lv)
  {}

  lemma HaltOk(l: Line, w: World, f: nat, level: nat, why: Halt)
    requires WorldOk(l, w, f, level) && w.applier.On? && !why.Completed?
    ensures WorldOk(l, Halted(w, why), f, level)
  {}

  lemma ReserveOnLine(l: Line, f: nat, level: nat, k: nat)
    requires GoodLine(l) && OnLine(l, f, level) && k <= f && k < |l.ts|
    ensures Reserve(SiteAt(l, f, level), l.ts[k]) == Some(SiteAt(l, f, if k == f && level == 0 then 1 else level))
  {
    var s := SiteAt(l, f, level);
    LineIndex(l, f, level, k);
    if k == f && level == 0 {
      assert forall i :: 0 <= i < f ==> s.mappings[i].equipmentId == l.ts[i].equipmentId;
      assert s.mappings + [ReservedRow(l.ts[f])] == LineMappings(l, f, 1);
    }
  }

  lemma ReserveStep(l: Line, w: World, f: nat, level: nat, fate: Fate) returns (lv: nat)
    requires GoodLine(l) && WorldOk(l, w, f, level) && w.applier.On? && w.applier.k < |l.ts| && w.applier.phase.Reserving?
    ensures WorldOk(l, TargetStep(w, fate), f, lv) && Calm(TargetStep(w, fate))
  {
    lv := if w.applier.k == f && level == 0 then 1 else level;
    ReserveOnLine(l, f, level, w.applier.k);
    EnterOk(l, w, f, level, lv, Finding);
  }

  lemma AssetSkipped(assets: seq<Asset>, ts: seq<Target>, f: nat)
    requires f < |ts| && FindAsset(AssetsAfter(assets, ts, f), ts[f].equipmentId).Some?
    ensures AssetsAfter(assets, ts, f + 1) == AssetsAfter(assets, ts, f)
  {}

  /** A level is reached for free when what it adds was there already. */
  lemma AssetWasThere(l: Line, f: nat)
    requires OnLine(l, f, 1)
    requires FindAsset(AssetsAfter(l.s0.assets, l.ts, f), l.ts[f].equipmentId).Some?
    ensures SiteAt(l, f, 1) == SiteAt(l, f, 2)
  {
    AssetSkipped(l.s0.assets, l.ts, f);
    assert LineMappings(l, f, 1) == LineMappings(l, f, 2);
  }

  lemma AssetOnLine(l: Line, f: nat, level: nat, k: nat)
    requires GoodLine(l) && OnLine(l, f, level) && k < |l.ts| && Reached(k, f, level) >= 2
    ensures var assets := SiteAt(l, f, level).assets;
            && FindAsset(assets, l.ts[k].equipmentId) == Some(l.ids[k])
            && 1 <= l.ids[k] <= |assets| && assets[l.ids[k] - 1] == AssetFor(l.ts[k])
  {
    AssetIsRight(l, k, if level >= 2 then f + 1 else f);
  }

  lemma FoundStep(l: Line, w: World, f: nat, level: nat, fate: Fate)
    requires GoodLine(l) && WorldOk(l, w, f, level) && w.applier.On? && w.applier.k < |l.ts|
    requires (w.applier.phase.Finding? || w.applier.phase.Refinding?) && Reached(w.applier.k, f, level) >= 2
    ensures WorldOk(l, TargetStep(w, fate), f, level) && Calm(TargetStep(w, fate))
  {
    var k := w.applier.k;
    AssetOnLine(l, f, level, k);
    if fate.Fine? {
      assert !DisagreesWithPersisted(w.applier.ids, l.ts[k], Some(l.ids[k]));
      EnterOk(l, w, f, level, level, Writing(l.ids[k]));
    } else {
      HaltOk(l, w, f, level, Interrupted);
    }
  }

  lemma MissingStep(l: Line, w: World, f: nat, level: nat, fate: Fate)
    requires GoodLine(l) && WorldOk(l, w, f, level) && w.applier.On? && w.applier.k < |l.ts|
    requires (w.applier.phase.Finding? || w.applier.phase.Refinding?) && Reached(w.applier.k, f, level) == 1
    requires FindAsset(w.site.assets, l.ts[w.applier.k].equipmentId).None?
    ensures WorldOk(l, TargetStep(w, fate), f, level) && Calm(TargetStep(w, fate))
  {
    if fate.Fine? && w.applier.phase.Finding? {
      assert !DisagreesWithPersisted(w.applier.ids, l.ts[f], None);
      EnterOk(l, w, f, level, level, Creating);
    } else {
      HaltOk(l, w, f, level, Interrupted);
    }
  }

  lemma FindStep(l: Line, w: World, f: nat, level: nat, fate: Fate) returns (lv: nat)
    requires GoodLine(l) && WorldOk(l, w, f, level) && w.applier.On? && w.applier.k < |l.ts|
    requires w.applier.phase.Finding? || w.applier.phase.Refinding?
    ensures WorldOk(l, TargetStep(w, fate), f, lv) && Calm(TargetStep(w, fate))
  {
    lv := level;
    if Reached(w.applier.k, f, level) >= 2 {
      FoundStep(l, w, f, level, fate);
    } else if FindAsset(w.site.assets, l.ts[f].equipmentId).Some? {
      AssetWasThere(l, f);
      lv := 2;
      FoundStep(l, w, f, 2, fate);
    } else {
      MissingStep(l, w, f, level, fate);
    }
  }

  lemma CreateOnLine(l: Line, f: nat)
    requires GoodLine(l) && OnLine(l, f, 1)
    requires FindAsset(AssetsAfter(l.s0.assets, l.ts, f), l.ts[f].equipmentId).None?
    ensures var s := SiteAt(l, f, 1);
            && s.(assets := s.assets + [AssetFor(l.ts[f])]) == SiteAt(l, f, 2)
            && l.ids[f] == |s.assets| + 1
  {
    var assets := AssetsAfter(l.s0.assets, l.ts, f);
    assert IdRight(l, f);
    FindSnoc(assets, AssetFor(l.ts[f]), l.ts[f].equipmentId);
  }

  lemma CreateStep(l: Line, w: World, f: nat, level: nat, fate: Fate) returns (lv: nat)
    requires GoodLine(l) && WorldOk(l, w, f, level) && w.applier.On? && w.applier.k < |l.ts| && w.applier.phase.Creating?
    ensures WorldOk(l, TargetStep(w, fate), f, lv) && Calm(TargetStep(w, fate))
  {
    CreateOnLine(l, f);
    AssetOnLine(l, f, 2, f);
    lv := if fate.Fine? || (fate.Unknown? && fate.effective) then 2 else 1;
    if fate.Refused? {
      HaltOk(l, w, f, level, Interrupted);
    } else {
      EnterOk(l, w, f, level, lv, if fate.Fine? then Writing(l.ids[f]) else Refinding);
    }
  }

  lemma WriteOnLine(l: Line, f: nat, level: nat, k: nat)
    requires GoodLine(l) && OnLine(l, f, level) && k < |l.ts| && Reached(k, f, level) >= 2
    ensures var s := SiteAt(l, f, level);
            s.(attributes := s.attributes[l.ts[k].deviceId := Attribute(l.ts[k].equipmentId, l.ids[k])]) ==
              SiteAt(l, f, if k == f then 3 else level)
  {
    var s := SiteAt(l, f, level);
    if k < f || level == 3 {
      AttributesHold(l, k, if level >= 3 then f + 1 else f);
      assert s.attributes[l.ts[k].deviceId := AttributeAt(l, k)] == s.attributes;
    }
  }

  lemma WriteStep(l: Line, w: World, f: nat, level: nat, fate: Fate) returns (lv: nat)
    requires GoodLine(l) && WorldOk(l, w, f, level) && w.applier.On? && w.applier.k < |l.ts| && w.applier.phase.Writing?
    ensures WorldOk(l, TargetStep(w, fate), f, lv) && Calm(TargetStep(w, fate))
  {
    var k := w.applier.k;
    WriteOnLine(l, f, level, k);
    if fate.Refused? {
      lv := level;
      HaltOk(l, w, f, level, Interrupted);
    } else {
      lv := if k == f && (fate.Fine? || fate.effective) then 3 else level;
      EnterOk(l, w, f, level, lv, ReadingBack(l.ids[k]));
    }
  }

  lemma AttributeWasThere(l: Line, f: nat)
    requires OnLine(l, f, 2)
    requires var attributes := AttributesAfter(l, f);
             l.ts[f].deviceId in attributes && attributes[l.ts[f].deviceId] == AttributeAt(l, f)
    ensures SiteAt(l, f, 2) == SiteAt(l, f, 3)
  {
    assert AttributesAfter(l, f + 1) == AttributesAfter(l, f);
    assert LineMappings(l, f, 2) == LineMappings(l, f, 3);
  }

  lemma ReadBackStep(l: Line, w: World, f: nat, level: nat, fate: Fate) returns (lv: nat)
    requires GoodLine(l) && WorldOk(l, w, f, level) && w.applier.On? && w.applier.k < |l.ts| && w.applier.phase.ReadingBack?
    ensures WorldOk(l, TargetStep(w, fate), f, lv)
    ensures Calm(TargetStep(w, fate)) <==> !(fate.Fine? && ReadsForeign(w))
  {
    var k, id := w.applier.k, l.ids[w.applier.k];
    lv := level;
    if !fate.Fine? || l.ts[k].deviceId !in w.site.attributes {
      HaltOk(l, w, f, level, Interrupted);
    } else if w.site.attributes[l.ts[k].deviceId] != AttributeAt(l, k) {
      HaltOk(l, w, f, level, Conflict);
    } else if Reached(k, f, level) >= 3 {
      EnterOk(l, w, f, level, level, Confirming(id));
    } else {
      AttributeWasThere(l, f);
      lv := 3;
      EnterOk(l, w, f, level, 3, Confirming(id));
    }
  }

  lemma ConfirmStep(l: Line, w: World, f: nat, level: nat, fate: Fate)
    requires GoodLine(l) && WorldOk(l, w, f, level) && w.applier.On? && w.applier.k < |l.ts| && w.applier.phase.Confirming?
    ensures WorldOk(l, TargetStep(w, fate), f, level) && Calm(TargetStep(w, fate))
  {
    AssetOnLine(l, f, level, w.applier.k);
    if fate.Fine? {
      EnterOk(l, w, f, level, level, Activating(l.ids[w.applier.k]));
    } else {
      HaltOk(l, w, f, level, Interrupted);
    }
  }

  lemma BindingsOnLine(l: Line, f: nat, k: nat)
    requires GoodLine(l) && f <= |l.ts| && k < |l.ts|
    ensures HasBinding(BindingsAfter(l, f), l.ts[k]) <==> k < f
    ensures BindingsAgree(l.c, BindingsAfter(l, f), l.ts[k])
  {
    var bindings := BindingsAfter(l, f);
    forall i | 0 <= i < f ensures bindings[i].equipmentId == l.ts[i].equipmentId && l.c.read(bindings[i]) == l.ts[i].measurement
                                  && bindings[i].measCode == l.ts[i].measurement.measCode
    {
      assert RoundTrips(l.c, l.ts[i]);
    }
    if k < f {
      assert bindings[k].equipmentId == l.ts[k].equipmentId;
    }
  }

  lemma ActivatedBefore(l: Line, f: nat, level: nat, k: nat)
    requires GoodLine(l) && OnLine(l, f, level) && k < f
    ensures Activate(l.c, SiteAt(l, f, level), l.ts[k], l.ids[k]) == Some(SiteAt(l, f, level))
  {
    var s := SiteAt(l, f, level);
    LineIndex(l, f, level, k);
    BindingsOnLine(l, f, k);
    assert s.mappings[k] == ActiveRow(l.ts[k], l.ids[k]);
    assert s.mappings[k := s.mappings[k]] == s.mappings;
  }

  lemma ActivatedNow(l: Line, f: nat)
    requires GoodLine(l) && OnLine(l, f, 3)
    ensures Activate(l.c, SiteAt(l, f, 3), l.ts[f], l.ids[f]) == Some(SiteAt(l, f + 1, 0))
  {
    var s := SiteAt(l, f, 3);
    LineIndex(l, f, 3, f);
    BindingsOnLine(l, f, f);
    assert s.mappings[f] == ReservedRow(l.ts[f]);
    assert forall j :: 0 <= j < |s.mappings| && j != f ==> s.mappings[j].assetId == Some(l.ids[j]);
    var mappings := s.mappings[f := ActiveRow(l.ts[f], l.ids[f])];
    assert mappings == MappingsAfter(l, f + 1);
    assert LineMappings(l, f + 1, 0) == mappings;
    assert s.bindings + [l.c.write(l.ts[f].equipmentId, l.ts[f].measurement)] == BindingsAfter(l, f + 1);
  }

  lemma NextOk(l: Line, w: World, f: nat, level: nat, g: nat, lv: nat)
    requires WorldOk(l, w, f, level) && w.applier.On? && w.applier.k < |l.ts|
    requires OnLine(l, g, lv) && f <= g && w.applier.k < g
    ensures var k := w.applier.k;
            var results := w.applier.results[l.ts[k].deviceId := ResultFor(l.ts[k], l.ids[k])];
            WorldOk(l, w.(site := SiteAt(l, g, lv), applier := On(k + 1, Reserving, w.applier.ids, results)), g, lv)
  {
    assert w.applier.results[l.ts[w.applier.k].deviceId := ResultFor(l.ts[w.applier.k], l.ids[w.applier.k])]
           == ResultsAfter(l, w.applier.k + 1);
  }

  lemma ActivatingGives(w: World, fate: Fate, asset: nat, site: Site)
    requires w.applier.On? && w.applier.k < |w.targets| && w.applier.phase == Activating(asset)
    requires Activate(w.codec, w.site, w.targets[w.applier.k], asset) == Some(site)
    ensures var t := w.targets[w.applier.k];
            TargetStep(w, fate) ==
              w.(site := site,
                 applier := On(w.applier.k + 1, Reserving, w.applier.ids, w.applier.results[t.deviceId := ResultFor(t, asset)]))
  {}

  lemma ActivatingFacts(l: Line, w: World, f: nat, level: nat)
    requires WorldOk(l, w, f, level) && w.applier.On? && w.applier.k < |l.ts| && w.applier.phase.Activating?
    ensures w.applier.phase == Activating(l.ids[w.applier.k]) && (w.applier.k < f || (w.applier.k == f && level == 3))
    ensures w.codec == l.c && w.targets == l.ts && w.site == SiteAt(l, f, level)
  {}

  lemma ReactivateStep(l: Line, w: World, f: nat, level: nat, fate: Fate)
    requires GoodLine(l) && WorldOk(l, w, f, level) && w.applier.On? && w.applier.k < f && w.applier.phase.Activating?
    ensures WorldOk(l, TargetStep(w, fate), f, level) && Calm(TargetStep(w, fate))
  {
    ActivatingFacts(l, w, f, level);
    assert Activate(w.codec, w.site, w.targets[w.applier.k], l.ids[w.applier.k]) == Some(SiteAt(l, f, level)) by {
      ActivatedBefore(l, f, level, w.applier.k);
    }
    ActivatingGives(w, fate, l.ids[w.applier.k], SiteAt(l, f, level));
    NextOk(l, w, f, level, f, level);
  }

  lemma ActivateStep(l: Line, w: World, f: nat, level: nat, fate: Fate)
    requires GoodLine(l) && WorldOk(l, w, f, level) && w.applier.On? && w.applier.k == f < |l.ts| && w.applier.phase.Activating?
    ensures WorldOk(l, TargetStep(w, fate), f + 1, 0) && Calm(TargetStep(w, fate))
  {
    ActivatingFacts(l, w, f, level);
    assert Activate(w.codec, w.site, w.targets[f], l.ids[f]) == Some(SiteAt(l, f + 1, 0)) by {
      ActivatedNow(l, f);
    }
    ActivatingGives(w, fate, l.ids[f], SiteAt(l, f + 1, 0));
    NextOk(l, w, f, level, f + 1, 0);
  }

  lemma TargetStepOk(l: Line, w: World, f: nat, level: nat, fate: Fate) returns (g: nat, lv: nat)
    requires GoodLine(l) && WorldOk(l, w, f, level) && w.applier.On? && w.applier.k < |l.ts|
    ensures WorldOk(l, TargetStep(w, fate), g, lv)
    ensures Calm(TargetStep(w, fate)) <==> !(fate.Fine? && ReadsForeign(w))
  {
    g, lv := f, level;
    match w.applier.phase
    case Reserving => lv := ReserveStep(l, w, f, level, fate);
    case Finding => lv := FindStep(l, w, f, level, fate);
    case Refinding => lv := FindStep(l, w, f, level, fate);
    case Creating => lv := CreateStep(l, w, f, level, fate);
    case Writing(_) => lv := WriteStep(l, w, f, level, fate);
    case ReadingBack(_) => lv := ReadBackStep(l, w, f, level, fate);
    case Confirming(_) => ConfirmStep(l, w, f, level, fate);
    case Activating(_) =>
      if w.applier.k < f {
        ReactivateStep(l, w, f, level, fate);
      } else {
        ActivateStep(l, w, f, level, fate);
        g, lv := f + 1, 0;
      }
  }

  lemma StartOk(l: Line, w: World, f: nat, level: nat, now: Time)
    requires GoodLine(l) && WorldOk(l, w, f, level)
    ensures WorldOk(l, Act(w, Start(now)), f, level) && (Calm(w) ==> Calm(Act(w, Start(now))))
    ensures w.applier.Off? && w.plan.receipt.None? && now < w.plan.expiresAt ==>
              Act(w, Start(now)).applier.On? && Act(w, Start(now)).applier.phase.Reserving?
  {
    assert PreflightAccepts(l.c, w.site, l.ts) by { PreflightOnLine(l, f, level); }
    assert IdsRight(l, AssetIds(w.site.mappings), f) by { LineIds(l, f, level); }
  }

  lemma FinishOk(l: Line, w: World, f: nat, level: nat, fate: Fate)
    requires WorldOk(l, w, f, level) && w.applier.On? && w.applier.k >= |l.ts|
    ensures WorldOk(l, Act(w, Go(fate)), f, level) && Act(w, Go(fate)).plan.receipt.Some? && Calm(Act(w, Go(fate)))
  {}

  lemma ActOk(l: Line, w: World, f: nat, level: nat, m: Move) returns (g: nat, lv: nat)
    requires GoodLine(l) && WorldOk(l, w, f, level)
    ensures WorldOk(l, Act(w, m), g, lv)
    ensures Calm(w) ==> (Calm(Act(w, m)) <==> !(m == Go(Fine) && ReadsForeign(w)))
  {
    g, lv := f, level;
    match m
    case Start(now) => StartOk(l, w, f, level, now);
    case Go(fate) =>
      if w.applier.On? {
        if w.applier.k < |l.ts| {
          g, lv := TargetStepOk(l, w, f, level, fate);
        } else {
          FinishOk(l, w, f, level, fate);
        }
      }
    case Crash => if w.applier.On? { HaltOk(l, w, f, level, Interrupted); }
    case Renew(_) =>
  }

  // ---------------------------------------------------------------- every play

  /** The plan was just saved, and no target of it is known to the tables. */
  function Begin(c: Codec, ts: seq<Target>, s0: Site, expiresAt: Time): World {
    World(c, ts, PlanRow(expiresAt, None), s0, Off(NotStarted))
  }

  ghost predicate GoodStart(c: Codec, ts: seq<Target>, s0: Site) {
    GoodPlan(c, ts) && AssetsFit(s0.assets, ts) && s0.mappings == [] && s0.bindings == []
  }

  /** The id of the asset that the equipment has in the end. */
  function IdIn(assets: seq<Asset>, e: Uuid): nat {
    var found := FindAsset(assets, e);
    if found.Some? then found.value else 0
  }

  function LineOf(c: Codec, ts: seq<Target>, s0: Site): Line {
    var final := AssetsAfter(s0.assets, ts, |ts|);
    Line(c, s0, ts, seq(|ts|, i requires 0 <= i < |ts| => IdIn(final, ts[i].equipmentId)))
  }

  lemma FoundAtItsTurn(assets: seq<Asset>, ts: seq<Target>, i: nat)
    requires i < |ts|
    ensures FindAsset(AssetsAfter(assets, ts, i + 1), ts[i].equipmentId).Some?
  {
    FindSnoc(AssetsAfter(assets, ts, i), AssetFor(ts[i]), ts[i].equipmentId);
  }

  lemma IdFound(assets: seq<Asset>, ts: seq<Target>, i: nat)
    requires i < |ts|
    ensures var final, e := AssetsAfter(assets, ts, |ts|), ts[i].equipmentId;
            && FindAsset(final, e) == Some(IdIn(final, e)) && IdIn(final, e) >= 1
            && FindAsset(AssetsAfter(assets, ts, i + 1), e) == Some(IdIn(final, e))
  {
    FoundAtItsTurn(assets, ts, i);
    AssetsGrow(assets, ts, i + 1, |ts|);
    FindInLonger(AssetsAfter(assets, ts, i + 1), AssetsAfter(assets, ts, |ts|), ts[i].equipmentId);
  }

  lemma IdsDiffer(assets: seq<Asset>, d: Uuid, e: Uuid)
    requires d != e && FindAsset(assets, d).Some? && FindAsset(assets, e).Some?
    ensures IdIn(assets, d) != IdIn(assets, e)
  {}

  lemma LineIsGood(c: Codec, ts: seq<Target>, s0: Site)
    requires GoodStart(c, ts, s0)
    ensures GoodLine(LineOf(c, ts, s0))
  {
    var l, final := LineOf(c, ts, s0), AssetsAfter(s0.assets, ts, |ts|);
    forall i | 0 <= i < |ts| ensures IdRight(l, i) && l.ids[i] >= 1 {
      IdFound(s0.assets, ts, i);
    }
    forall i, j | 0 <= i < j < |ts| ensures l.ids[i] != l.ids[j] {
      IdFound(s0.assets, ts, i);
      IdFound(s0.assets, ts, j);
      IdsDiffer(final, ts[i].equipmentId, ts[j].equipmentId);
    }
  }

  lemma {:induction false} PlayOn(l: Line, w: World, f: nat, level: nat, moves: seq<Move>) returns (g: nat, lv: nat)
    requires GoodLine(l) && WorldOk(l, w, f, level)
    ensures WorldOk(l, Play(w, moves), g, lv)
  {
    g, lv := f, level;
    if moves != [] {
      g, lv := PlayOn(l, w, f, level, moves[..|moves| - 1]);
      g, lv := ActOk(l, Play(w, moves[..|moves| - 1]), g, lv, moves[|moves| - 1]);
    }
  }

  lemma BeginOk(c: Codec, ts: seq<Target>, s0: Site, expiresAt: Time)
    requires GoodStart(c, ts, s0)
    ensures GoodLine(LineOf(c, ts, s0)) && WorldOk(LineOf(c, ts, s0), Begin(c, ts, s0, expiresAt), 0, 0)
  {
    var l := LineOf(c, ts, s0);
    LineIsGood(c, ts, s0);
    assert SiteAt(l, 0, 0) == s0;
  }

  lemma ReachedState(c: Codec, ts: seq<Target>, s0: Site, expiresAt: Time, moves: seq<Move>) returns (f: nat, level: nat)
    requires GoodStart(c, ts, s0)
    ensures GoodLine(LineOf(c, ts, s0)) && WorldOk(LineOf(c, ts, s0), Play(Begin(c, ts, s0, expiresAt), moves), f, level)
  {
    BeginOk(c, ts, s0, expiresAt);
    f, level := PlayOn(LineOf(c, ts, s0), Begin(c, ts, s0, expiresAt), 0, 0, moves);
  }

  /**
    However the applies of a plan are interrupted, and after a conflict as well, the tables and providers are in one of
    the states of the line, and a new apply passes preflight.
   */
  lemma AlwaysOnLine(c: Codec, ts: seq<Target>, s0: Site, expiresAt: Time, moves: seq<Move>)
    requires GoodStart(c, ts, s0)
    ensures var w := Play(Begin(c, ts, s0, expiresAt), moves);
            && PreflightAccepts(c, w.site, ts)
            && exists f: nat, level: nat :: OnLine(LineOf(c, ts, s0), f, level) && w.site == SiteAt(LineOf(c, ts, s0), f, level)
  {
    var f, level := ReachedState(c, ts, s0, expiresAt, moves);
    PreflightOnLine(LineOf(c, ts, s0), f, level);
  }

  // ---------------------------------------------------------------- when an apply ends in a conflict

  /** Before the plan was applied, the device of target `k` had complete attributes that are not the target's. */
  predicate Foreign(l: Line, k: nat)
    requires |l.ts| == |l.ids|
  {
    k < |l.ts| && l.ts[k].deviceId in l.s0.attributes && l.s0.attributes[l.ts[k].deviceId] != AttributeAt(l, k)
  }

  /** Move `i` wrote attributes without effect and without an answer, and nothing happened since. */
  ghost predicate LostWrite(w0: World, moves: seq<Move>, i: nat) {
    i < |moves| && moves[i] == Go(Unknown(false)) &&
    var u := Play(w0, moves[..i]);
    u.applier.On? && u.applier.k < |u.targets| && u.applier.phase.Writing? && Play(w0, moves) == Act(u, moves[i])
  }

  lemma {:induction false} AttributesUntouched(l: Line, f: nat, k: nat)
    requires GoodPlan(l.c, l.ts) && |l.ts| == |l.ids| && f <= k < |l.ts|
    ensures var d, attributes := l.ts[k].deviceId, AttributesAfter(l, f);
            (d in attributes <==> d in l.s0.attributes) && (d in attributes ==> attributes[d] == l.s0.attributes[d])
  {
    if f > 0 {
      AttributesUntouched(l, f - 1, k);
    }
  }

  lemma ForeignFromTheStart(l: Line, w: World, f: nat, level: nat)
    requires GoodLine(l) && WorldOk(l, w, f, level) && ReadsForeign(w)
    ensures Foreign(l, w.applier.k)
  {
    var k := w.applier.k;
    if Reached(k, f, level) >= 3 {
      AttributesHold(l, k, if level >= 3 then f + 1 else f);
    } else {
      AttributesUntouched(l, f, k);
    }
  }

  lemma ReadBackFollowsWrite(w: World, fate: Fate)
    requires w.applier.On? && w.applier.k < |w.targets| && ReadsForeign(TargetStep(w, fate))
    ensures w.applier.phase.Writing? && fate == Unknown(false)
  {
    match w.applier.phase
    case Writing(_) =>
    case _ =>
  }

  lemma ReadBackAfterWrite(w: World, m: Move)
    requires ReadsForeign(Act(w, m)) && Act(w, m) != w
    ensures m == Go(Unknown(false)) && w.applier.On? && w.applier.k < |w.targets| && w.applier.phase.Writing?
  {
    if m.Go? && w.applier.On? && w.applier.k < |w.targets| {
      ReadBackFollowsWrite(w, m.fate);
    }
  }

  lemma {:induction false} WriteWasLost(w0: World, moves: seq<Move>) returns (i: nat)
    requires w0.applier.Off? && ReadsForeign(Play(w0, moves))
    ensures LostWrite(w0, moves, i)
  {
    var n := |moves| - 1;
    var u := Play(w0, moves[..n]);
    if Act(u, moves[n]) == u {
      i := WriteWasLost(w0, moves[..n]);
      assert moves[..n][..i] == moves[..i];
    } else {
      ReadBackAfterWrite(u, moves[n]);
      i := n;
    }
  }

  /**
    The only conflict an apply of a good start can meet: after a write of attributes that was neither answered nor
    effective, the read-back succeeds and shows the attributes that the device had from the start.
   */
  lemma ConflictExactly(c: Codec, ts: seq<Target>, s0: Site, expiresAt: Time, moves: seq<Move>, m: Move)
    requires GoodStart(c, ts, s0)
    ensures var w0 := Begin(c, ts, s0, expiresAt);
            var w := Play(w0, moves);
            && (Calm(w) && !Calm(Act(w, m)) <==> m == Go(Fine) && ReadsForeign(w) && exists i: nat :: LostWrite(w0, moves, i))
            && (ReadsForeign(w) ==> Foreign(LineOf(c, ts, s0), w.applier.k))
  {
    var l, w := LineOf(c, ts, s0), Play(Begin(c, ts, s0, expiresAt), moves);
    var f, level := ReachedState(c, ts, s0, expiresAt, moves);
    var g, lv := ActOk(l, w, f, level, m);
    if ReadsForeign(w) {
      ForeignFromTheStart(l, w, f, level);
      var i := WriteWasLost(Begin(c, ts, s0, expiresAt), moves);
    }
  }

  /** Once applied, the outcome is one and the same: that of an undisturbed apply. */
  lemma OneOutcome(c: Codec, ts: seq<Target>, s0: Site, expiresAt: Time, moves: seq<Move>)
    requires GoodStart(c, ts, s0) && Play(Begin(c, ts, s0, expiresAt), moves).plan.receipt.Some?
    ensures var w, l := Play(Begin(c, ts, s0, expiresAt), moves), LineOf(c, ts, s0);
            && w.site == SiteAt(l, |ts|, 0)
            && w.plan.receipt == Some(ResultsAfter(l, |ts|))
            && (VerifyAccepts(w) <==> |ts| == 20)
  {
    var f, level := ReachedState(c, ts, s0, expiresAt, moves);
    ReceiptVerifies(LineOf(c, ts, s0), Play(Begin(c, ts, s0, expiresAt), moves), f, level);
  }

  lemma ReceiptVerifies(l: Line, w: World, f: nat, level: nat)
    requires GoodLine(l) && WorldOk(l, w, f, level) && w.plan.receipt.Some?
    ensures f == |l.ts| && level == 0 && w.plan.receipt == Some(ResultsAfter(l, |l.ts|))
    ensures VerifyAccepts(w) <==> |l.ts| == 20
  {
    var n := |l.ts|;
    ResultsHold(l, n);
    DevicesAreDistinct(l.c, l.ts, n);
    assert l.ts[..n] == l.ts;
    assert |ResultsAfter(l, n)| == |ResultsAfter(l, n).Keys|;
  }

  /** An interrupted and resumed plan ends exactly as any other way of completing it, the undisturbed one included. */
  lemma RecoveryEqualsUndisturbed(c: Codec, ts: seq<Target>, s0: Site, expiresAt: Time, moves: seq<Move>, others: seq<Move>)
    requires GoodStart(c, ts, s0)
    requires Play(Begin(c, ts, s0, expiresAt), moves).plan.receipt.Some?
    requires Play(Begin(c, ts, s0, expiresAt), others).plan.receipt.Some?
    ensures var v, w := Play(Begin(c, ts, s0, expiresAt), moves), Play(Begin(c, ts, s0, expiresAt), others);
            v.site == w.site && v.plan.receipt == w.plan.receipt
  {
    OneOutcome(c, ts, s0, expiresAt, moves);
    OneOutcome(c, ts, s0, expiresAt, others);
  }

  // ---------------------------------------------------------------- one asset per target

  function CountAssets(assets: seq<Asset>, e: Uuid): nat {
    if assets == [] then 0
    else CountAssets(assets[..|assets| - 1], e) + (if assets[|assets| - 1].equipmentId == e then 1 else 0)
  }

  lemma {:induction false} NoneFoundNoneCounted(assets: seq<Asset>, e: Uuid)
    ensures FindAsset(assets, e).None? <==> CountAssets(assets, e) == 0
  {
    if assets != [] {
      NoneFoundNoneCounted(assets[..|assets| - 1], e);
    }
  }

  lemma CountWith(assets: seq<Asset>, t: Target, e: Uuid)
    ensures CountAssets(WithAsset(assets, t), e) ==
              CountAssets(assets, e) + (if e == t.equipmentId && CountAssets(assets, e) == 0 then 1 else 0)
  {
    NoneFoundNoneCounted(assets, t.equipmentId);
    assert (assets + [AssetFor(t)])[..|assets|] == assets;
  }

  lemma CountStep(assets: seq<Asset>, ts: seq<Target>, f: nat, e: Uuid)
    requires f < |ts|
    ensures var c := CountAssets(AssetsAfter(assets, ts, f), e);
            CountAssets(AssetsAfter(assets, ts, f + 1), e) == c + (if e == ts[f].equipmentId && c == 0 then 1 else 0)
  {
    CountWith(AssetsAfter(assets, ts, f), ts[f], e);
  }

  predicate Occurs(ts: seq<Target>, f: nat, e: Uuid)
    requires f <= |ts|
  {
    exists i :: 0 <= i < f && ts[i].equipmentId == e
  }

  lemma OccursNext(ts: seq<Target>, f: nat, e: Uuid)
    requires f < |ts|
    ensures Occurs(ts, f + 1, e) <==> Occurs(ts, f, e) || e == ts[f].equipmentId
  {}

  /** A count that only rises from zero, where the equipment occurs, has risen once if it occurred at all. */
  lemma {:induction false} RisesOnce(count: nat -> nat, ts: seq<Target>, f: nat, e: Uuid)
    requires f <= |ts|
    requires forall g :: 0 <= g < f ==>
               count(g + 1) == count(g) + if e == ts[g].equipmentId && count(g) == 0 then 1 else 0
    ensures count(f) == if Occurs(ts, f, e) && count(0) == 0 then 1 else count(0)
  {
    if f > 0 {
      RisesOnce(count, ts, f - 1, e);
      OccursNext(ts, f - 1, e);
      assert count(f - 1 + 1) == count(f);
    }
  }

  function Counts(assets: seq<Asset>, ts: seq<Target>, e: Uuid): nat -> nat {
    (g: nat) => if g <= |ts| then CountAssets(AssetsAfter(assets, ts, g), e) else 0
  }

  lemma CountsStep(assets: seq<Asset>, ts: seq<Target>, e: Uuid, g: nat)
    requires g < |ts|
    ensures var c := Counts(assets, ts, e); c(g + 1) == c(g) + if e == ts[g].equipmentId && c(g) == 0 then 1 else 0
  {
    CountStep(assets, ts, g, e);
  }

  lemma CountsMean(assets: seq<Asset>, ts: seq<Target>, e: Uuid, g: nat)
    requires g <= |ts|
    ensures Counts(assets, ts, e)(0) == CountAssets(assets, e)
    ensures Counts(assets, ts, e)(g) == CountAssets(AssetsAfter(assets, ts, g), e)
  {}

  lemma CountAfter(assets: seq<Asset>, ts: seq<Target>, f: nat, e: Uuid)
    requires f <= |ts|
    ensures var c := Counts(assets, ts, e); c(f) == if Occurs(ts, f, e) && c(0) == 0 then 1 else c(0)
  {
    var count := Counts(assets, ts, e);
    forall g | 0 <= g < f
      ensures count(g + 1) == count(g) + if e == ts[g].equipmentId && count(g) == 0 then 1 else 0
    {
      CountsStep(assets, ts, e, g);
    }
    RisesOnce(count, ts, f, e);
  }

  /**
    Over every play a target without an asset gets at most one, exactly one once the plan is applied, and an asset that
    was there already is used and never doubled.
   */
  lemma OneAssetPerTarget(c: Codec, ts: seq<Target>, s0: Site, expiresAt: Time, moves: seq<Move>, k: nat)
    requires GoodStart(c, ts, s0) && k < |ts|
    ensures var w := Play(Begin(c, ts, s0, expiresAt), moves);
            var before, now := CountAssets(s0.assets, ts[k].equipmentId), CountAssets(w.site.assets, ts[k].equipmentId);
            && (before == 0 ==> now <= 1) && (before > 0 ==> now == before)
            && (w.plan.receipt.Some? && before == 0 ==> now == 1)
  {
    var f, level := ReachedState(c, ts, s0, expiresAt, moves);
    var g, e := if level >= 2 then f + 1 else f, ts[k].equipmentId;
    CountAfter(s0.assets, ts, g, e);
    CountsMean(s0.assets, ts, e, g);
  }

  // ---------------------------------------------------------------- an undisturbed apply completes

  function Rank(phase: Phase): nat {
    match phase
    case Reserving => 8
    case Finding => 7
    case Creating => 6
    case Refinding => 5
    case Writing(_) => 4
    case ReadingBack(_) => 3
    case Confirming(_) => 2
    case Activating(_) => 1
  }

  function Remaining(w: World): nat
    requires w.applier.On?
  {
    (if w.applier.k < |w.targets| then 8 * (|w.targets| - w.applier.k) else 0) + Rank(w.applier.phase)
  }

  /** Where an apply without faults may be: never looking again, and reading back what it has written. */
  predicate Smooth(w: World) {
    w.applier.On? && !w.applier.phase.Refinding? &&
    (w.applier.phase.ReadingBack? ==>
       w.applier.k < |w.targets| && w.targets[w.applier.k].deviceId in w.site.attributes && !ReadsForeign(w))
  }

  lemma SmoothStep(w: World)
    requires Smooth(w) && w.applier.k < |w.targets|
    ensures var v := TargetStep(w, Fine);
            && v.targets == w.targets && v.plan == w.plan
            && (if v.applier.Off? then !Calm(v) else Smooth(v) && Remaining(v) < Remaining(w))
  {}

  lemma PlayCons(w: World, m: Move, moves: seq<Move>)
    ensures Play(w, [m] + moves) == Play(Act(w, m), moves)
  {
    PlayConcat(w, [m], moves);
    OneMove(w, m);
  }

  /** A faultless move of the apply brings it closer to its end. */
  lemma SmoothMove(l: Line, w: World, f: nat, level: nat) returns (g: nat, lv: nat)
    requires GoodLine(l) && WorldOk(l, w, f, level) && Smooth(w) && w.applier.k < |l.ts|
    ensures var v := Act(w, Go(Fine));
            WorldOk(l, v, g, lv) && Smooth(v) && Remaining(v) < Remaining(w)
  {
    SmoothStep(w);
    g, lv := TargetStepOk(l, w, f, level, Fine);
  }

  predicate AllFine(moves: seq<Move>) { forall i :: 0 <= i < |moves| ==> moves[i] == Go(Fine) }

  lemma FinePlayed(w: World, rest: seq<Move>)
    requires AllFine(rest)
    ensures AllFine([Go(Fine)] + rest) && Play(w, [Go(Fine)] + rest) == Play(Act(w, Go(Fine)), rest)
  {
    PlayCons(w, Go(Fine), rest);
  }

  lemma {:induction false} SmoothApplyCompletes(l: Line, w: World, f: nat, level: nat) returns (moves: seq<Move>)
    requires GoodLine(l) && WorldOk(l, w, f, level) && Smooth(w)
    ensures Play(w, moves).plan.receipt.Some? && AllFine(moves)
    decreases Remaining(w)
  {
    var v := Act(w, Go(Fine));
    var rest: seq<Move> := [];
    if w.applier.k < |l.ts| {
      var g, lv := SmoothMove(l, w, f, level);
      rest := SmoothApplyCompletes(l, v, g, lv);
    } else {
      FinishOk(l, w, f, level, Fine);
      assert Play(v, rest) == v;
    }
    FinePlayed(w, rest);
    moves := [Go(Fine)] + rest;
  }

  /** After any interruptions, an apply without faults before the plan expires completes the plan. */
  lemma CompleteApplySucceeds(c: Codec, ts: seq<Target>, s0: Site, expiresAt: Time, before: seq<Move>, now: Time)
    returns (rest: seq<Move>)
    requires GoodStart(c, ts, s0)
    requires var w := Play(Begin(c, ts, s0, expiresAt), before);
             w.applier.Off? && w.plan.receipt.None? && now < w.plan.expiresAt
    ensures AllFine(rest)
    ensures var w := Play(Play(Begin(c, ts, s0, expiresAt), before), [Start(now)] + rest);
            && w.plan.receipt.Some? && w.site == SiteAt(LineOf(c, ts, s0), |ts|, 0)
            && (VerifyAccepts(w) <==> |ts| == 20)
  {
    var l, w := LineOf(c, ts, s0), Play(Begin(c, ts, s0, expiresAt), before);
    var f, level := ReachedState(c, ts, s0, expiresAt, before);
    StartOk(l, w, f, level, now);
    rest := SmoothApplyCompletes(l, Act(w, Start(now)), f, level);
    PlayCons(w, Start(now), rest);
    var h, lh := PlayOn(l, w, f, level, [Start(now)] + rest);
    ReceiptVerifies(l, Play(w, [Start(now)] + rest), h, lh);
  }

  // ---------------------------------------------------------------- the conflict can be reached

  /** On the way to the write of target `k`, whose device still has the attribute it started with. */
  predicate Nearing(w: World, k: nat) {
    && Smooth(w) && w.applier.k <= k < |w.targets|
    && (w.applier.k == k ==> !w.applier.phase.ReadingBack? && !w.applier.phase.Confirming? && !w.applier.phase.Activating?)
  }

  predicate Has(w: World, d: Uuid, x: Attribute) { d in w.site.attributes && w.site.attributes[d] == x }

  lemma NearingStep(w: World, k: nat, x: Attribute)
    requires Nearing(w, k) && !(w.applier.k == k && w.applier.phase.Writing?)
    requires forall i :: 0 <= i < k ==> w.targets[i].deviceId != w.targets[k].deviceId
    requires Has(w, w.targets[k].deviceId, x) && TargetStep(w, Fine).applier.On?
    ensures Nearing(TargetStep(w, Fine), k) && Has(TargetStep(w, Fine), w.targets[k].deviceId, x)
  {
    SmoothStep(w);
  }

  lemma {:induction false} RunToWrite(l: Line, w: World, f: nat, level: nat, k: nat, x: Attribute)
    returns (moves: seq<Move>, g: nat, lv: nat)
    requires GoodLine(l) && WorldOk(l, w, f, level) && Nearing(w, k) && Has(w, l.ts[k].deviceId, x)
    ensures var v := Play(w, moves);
            && WorldOk(l, v, g, lv) && v.applier.On? && v.applier.k == k && v.applier.phase.Writing?
            && Has(v, l.ts[k].deviceId, x)
    decreases Remaining(w)
  {
    if w.applier.k == k && w.applier.phase.Writing? {
      moves, g, lv := [], f, level;
    } else {
      g, lv := SmoothMove(l, w, f, level);
      NearingStep(w, k, x);
      moves, g, lv := RunToWrite(l, Act(w, Go(Fine)), g, lv, k, x);
      PlayCons(w, Go(Fine), moves);
      moves := [Go(Fine)] + moves;
    }
  }

  /** A write of target `k` without effect, followed by its read-back. */
  lemma LoseWrite(l: Line, w: World, f: nat, level: nat, k: nat)
    requires GoodLine(l) && WorldOk(l, w, f, level) && w.applier.On? && w.applier.k == k < |l.ts| && w.applier.phase.Writing?
    requires l.ts[k].deviceId in w.site.attributes && w.site.attributes[l.ts[k].deviceId] != AttributeAt(l, k)
    ensures !Calm(Act(Act(w, Go(Unknown(false))), Go(Fine)))
  {
    assert ReadsForeign(Act(w, Go(Unknown(false))));
  }

  lemma ConflictReached(c: Codec, ts: seq<Target>, s0: Site, expiresAt: Time, k: nat) returns (moves: seq<Move>)
    requires GoodStart(c, ts, s0) && Foreign(LineOf(c, ts, s0), k)
    ensures !Calm(Play(Begin(c, ts, s0, expiresAt), moves))
  {
    var l, w0 := LineOf(c, ts, s0), Begin(c, ts, s0, expiresAt);
    BeginOk(c, ts, s0, expiresAt);
    var w1 := Act(w0, Renew(expiresAt));
    var w2 := Act(w1, Start(expiresAt));
    StartOk(l, w1, 0, 0, expiresAt);
    var front, g, lv := RunToWrite(l, w2, 0, 0, k, s0.attributes[ts[k].deviceId]);
    var v := Play(w2, front);
    LoseWrite(l, v, g, lv, k);
    var lost := [Go(Unknown(false))] + [Go(Fine)];
    PlayCons(v, Go(Unknown(false)), [Go(Fine)]);
    OneMove(Act(v, Go(Unknown(false))), Go(Fine));
    PlayConcat(w2, front, lost);
    PlayCons(w1, Start(expiresAt), front + lost);
    PlayCons(w0, Renew(expiresAt), [Start(expiresAt)] + (front + lost));
    moves := [Renew(expiresAt)] + ([Start(expiresAt)] + (front + lost));
  }

  lemma {:induction false} ConflictNeedsForeign(c: Codec, ts: seq<Target>, s0: Site, expiresAt: Time, moves: seq<Move>)
    requires GoodStart(c, ts, s0) && !Calm(Play(Begin(c, ts, s0, expiresAt), moves))
    ensures exists k: nat :: Foreign(LineOf(c, ts, s0), k)
  {
    var front, m := moves[..|moves| - 1], moves[|moves| - 1];
    if Calm(Play(Begin(c, ts, s0, expiresAt), front)) {
      ConflictExactly(c, ts, s0, expiresAt, front, m);
      assert Foreign(LineOf(c, ts, s0), Play(Begin(c, ts, s0, expiresAt), front).applier.k);
    } else {
      ConflictNeedsForeign(c, ts, s0, expiresAt, front);
    }
  }

  /**
    Applies of a good start are free of conflicts, whatever happens, exactly when no device of the plan carries the
    complete attributes of another equipment or asset before the plan is applied.
   */
  lemma NeverInConflict(c: Codec, ts: seq<Target>, s0: Site, expiresAt: Time)
    requires GoodStart(c, ts, s0)
    ensures (forall moves :: Calm(Play(Begin(c, ts, s0, expiresAt), moves))) <==>
              forall k: nat :: !Foreign(LineOf(c, ts, s0), k)
  {
    if k: nat :| Foreign(LineOf(c, ts, s0), k) {
      var moves := ConflictReached(c, ts, s0, expiresAt, k);
    }
    forall moves | !Calm(Play(Begin(c, ts, s0, expiresAt), moves)) ensures exists k: nat :: Foreign(LineOf(c, ts, s0), k) {
      ConflictNeedsForeign(c, ts, s0, expiresAt, moves);
    }
  }

  /** A plan of distinct devices and equipment whose measurements are profiles is good with the database's own codec. */
  lemma PilotPlanIsGood(ts: seq<Target>)
    requires forall i, j :: 0 <= i < j < |ts| ==> ts[i].deviceId != ts[j].deviceId && ts[i].equipmentId != ts[j].equipmentId
    requires forall i :: 0 <= i < |ts| ==> ts[i].measurement in PROFILES
    ensures GoodPlan(SQL, ts)
  {
    forall i | 0 <= i < |ts| ensures RoundTrips(SQL, ts[i]) {
      ProfilesReadBack(ts[i].equipmentId, ts[i].measurement);
    }
  }

  /** One press whose device still carries the attributes of equipment 9 and asset 7. */
  const PRESS := Target(1, "press", 2, CNC)
  const USED := Site([], [], [], map[1 := Attribute(9, 7)])

  lemma UsedDeviceIsGoodStart()
    ensures GoodStart(SQL, [PRESS], USED)
  {
    PilotPlanIsGood([PRESS]);
  }

  lemma ThreeMoves(w: World, x: Move, y: Move, z: Move)
    ensures Play(w, [x, y, z]) == Act(Act(Act(w, x), y), z)
  {
    OneMove(w, x);
    PlaySnoc(w, [x], y);
    PlaySnoc(w, [x, y], z);
    assert [x] + [y] == [x, y] && [x, y] + [z] == [x, y, z];
  }

  lemma UsedDeviceStarts()
    ensures var w := Act(Begin(SQL, [PRESS], USED, 1), Start(0));
            w == Begin(SQL, [PRESS], USED, 1).(applier := On(0, Reserving, map[], map[]))
  {
    UsedDeviceIsGoodStart();
    BeginOk(SQL, [PRESS], USED, 1);
    StartOk(LineOf(SQL, [PRESS], USED), Begin(SQL, [PRESS], USED, 1), 0, 0, 0);
  }

  lemma UsedDeviceConflictsSoon(w: World)
    requires w == Begin(SQL, [PRESS], USED, 1).(applier := On(0, Reserving, map[], map[]))
    ensures Act(Act(Act(Act(Act(w, Go(Fine)), Go(Fine)), Go(Fine)), Go(Unknown(false))), Go(Fine)).applier == Off(Conflict)
  {
    var w2 := Act(w, Go(Fine));
    assert w2.site == USED.(mappings := [ReservedRow(PRESS)]) && w2.applier == w.applier.(phase := Finding);
    var w3 := Act(w2, Go(Fine));
    assert w3.site == w2.site && w3.applier == w.applier.(phase := Creating);
    var w4 := Act(w3, Go(Fine));
    assert w4.site.attributes == USED.attributes && w4.applier == w.applier.(phase := Writing(1));
  }

  /** Reserved, not found, created, written in vain, read back: the read-back shows asset 7 and is a conflict. */
  lemma UsedDeviceConflicts()
    ensures var moves := [Start(0), Go(Fine), Go(Fine), Go(Fine), Go(Unknown(false)), Go(Fine)];
            Play(Begin(SQL, [PRESS], USED, 1), moves).applier == Off(Conflict)
  {
    var w0 := Begin(SQL, [PRESS], USED, 1);
    UsedDeviceStarts();
    UsedDeviceConflictsSoon(Act(w0, Start(0)));
    var front, rest := [Start(0), Go(Fine), Go(Fine)], [Go(Fine), Go(Unknown(false)), Go(Fine)];
    ThreeMoves(w0, Start(0), Go(Fine), Go(Fine));
    ThreeMoves(Play(w0, front), Go(Fine), Go(Unknown(false)), Go(Fine));
    PlayConcat(w0, front, rest);
    assert front + rest == [Start(0), Go(Fine), Go(Fine), Go(Fine), Go(Unknown(false)), Go(Fine)];
  }
}
