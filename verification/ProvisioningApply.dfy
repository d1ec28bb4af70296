/** The steps of `apply` over one plan, and everything that may fall between them. */
module ProvisioningApply {
  import opened Basics
  import opened Provisioning

  datatype TargetResult = TargetResult(equipmentId: Uuid, assetId: nat, request: AssetRequest, measurement: Measurement)

  /** The provisioning_plan row; `receipt` is the applied_at, terminal_result and target_results columns. */
  datatype PlanRow = PlanRow(expiresAt: Time, receipt: Option<map<Uuid, TargetResult>>)

  datatype Phase =
    | Reserving
    | Finding
    | Creating
    | Refinding
    | Writing(asset: nat)
    | ReadingBack(asset: nat)
    | Confirming(asset: nat)
    | Activating(asset: nat)

  /**
    How the last apply ended. A provider error interrupts it, a read-back of missing attributes among them, which
    the client rejects as an invalid response.
   */
  datatype Halt = NotStarted | Completed | Interrupted | Conflict

  datatype Applier =
    | Off(last: Halt)
    | On(k: nat, phase: Phase, ids: map<Uuid, Option<nat>>, results: map<Uuid, TargetResult>)

  datatype World = World(codec: Codec, targets: seq<Target>, plan: PlanRow, site: Site, applier: Applier)

  /** What a provider call does: answer, leave its result unknown, or be refused. Database steps ignore it. */
  datatype Fate = Fine | Unknown(effective: bool) | Refused

  datatype Move = Start(now: Time) | Go(fate: Fate) | Crash | Renew(createdAt: Time)

  function Halted(w: World, why: Halt): World { w.(applier := Off(why)) }

  function Enter(w: World, phase: Phase): World
    requires w.applier.On?
  {
    w.(applier := w.applier.(phase := phase))
  }

  /** `find_asset_by_equipment_id` answered `found`, after which the identity of the asset is checked. */
  function Adopt(w: World, t: Target, found: nat): World
    requires w.applier.On? && 1 <= found <= |w.site.assets|
  {
    if w.site.assets[found - 1] != AssetFor(t) then Halted(w, Conflict) else Enter(w, Writing(found))
  }

  predicate DisagreesWithPersisted(ids: map<Uuid, Option<nat>>, t: Target, found: Option<nat>) {
    t.deviceId in ids && ids[t.deviceId].Some? && found != ids[t.deviceId]
  }

  function ResultFor(t: Target, asset: nat): TargetResult {
    TargetResult(t.equipmentId, asset, RequestFor(t), t.measurement)
  }

  /** One step of `_apply_target` for target `k`. */
  function TargetStep(w: World, fate: Fate): World
    requires w.applier.On? && w.applier.k < |w.targets|
  {
    var a, s := w.applier, w.site;
    var t := w.targets[a.k];
    match a.phase
    case Reserving =>
      var r := Reserve(s, t);
      if r.None? then Halted(w, Conflict) else Enter(w.(site := r.value), Finding)
    case Finding =>
      var found := FindAsset(s.assets, t.equipmentId);
      if !fate.Fine? then Halted(w, Interrupted)
      else if DisagreesWithPersisted(a.ids, t, found) then Halted(w, Conflict)
      else if found.None? then Enter(w, Creating)
      else Adopt(w, t, found.value)
    case Creating =>
      if fate.Refused? then Halted(w, Interrupted)
      else if fate.Fine? then
        Adopt(w.(site := s.(assets := s.assets + [AssetFor(t)])), t, |s.assets| + 1)
      else Enter(if fate.effective then w.(site := s.(assets := s.assets + [AssetFor(t)])) else w, Refinding)
    case Refinding =>
      var found := FindAsset(s.assets, t.equipmentId);
      if !fate.Fine? || found.None? then Halted(w, Interrupted) else Adopt(w, t, found.value)
    case Writing(asset) =>
      var written := w.(site := s.(attributes := s.attributes[t.deviceId := Attribute(t.equipmentId, asset)]));
      if fate.Refused? then Halted(w, Interrupted)
      else Enter(if fate.Fine? || fate.effective then written else w, ReadingBack(asset))
    case ReadingBack(asset) =>
      if !fate.Fine? || t.deviceId !in s.attributes then Halted(w, Interrupted)
      else if s.attributes[t.deviceId] != Attribute(t.equipmentId, asset) then Halted(w, Conflict)
      else Enter(w, Confirming(asset))
    case Confirming(asset) =>
      if !fate.Fine? then Halted(w, Interrupted)
      else if FindAsset(s.assets, t.equipmentId) != Some(asset) || s.assets[asset - 1] != AssetFor(t)
      then Halted(w, Conflict)
      else Enter(w, Activating(asset))
    case Activating(asset) =>
      var r := Activate(w.codec, s, t, asset);
      if r.None? then Halted(w, Conflict)
      else
        w.(site := r.value,
           applier := On(a.k + 1, Reserving, a.ids, a.results[t.deviceId := ResultFor(t, asset)]))
  }

  ghost function Act(w: World, m: Move): World {
    match m
    case Start(now) =>
      if !w.applier.Off? || w.plan.receipt.Some? || now >= w.plan.expiresAt then w
      else if !PreflightAccepts(w.codec, w.site, w.targets) then Halted(w, Conflict)
      else w.(applier := On(0, Reserving, AssetIds(w.site.mappings), map[]))
    case Go(fate) =>
      if !w.applier.On? then w
      else if w.applier.k < |w.targets| then TargetStep(w, fate)
      else w.(plan := w.plan.(receipt := Some(w.applier.results)), applier := Off(Completed))
    case Crash => if w.applier.On? then Halted(w, Interrupted) else w
    case Renew(createdAt) =>
      if w.applier.Off? && w.plan.receipt.None? && w.plan.expiresAt <= createdAt
      then w.(plan := w.plan.(expiresAt := createdAt + PLAN_LIFETIME))
      else w
  }

  ghost function Play(w: World, moves: seq<Move>): World {
    if moves == [] then w else Act(Play(w, moves[..|moves| - 1]), moves[|moves| - 1])
  }

  lemma PlaySnoc(w: World, moves: seq<Move>, m: Move)
    ensures Play(w, moves + [m]) == Act(Play(w, moves), m)
  {
    assert (moves + [m])[..|moves + [m]| - 1] == moves;
  }

  lemma {:induction false} PlayConcat(w: World, before: seq<Move>, after: seq<Move>)
    ensures Play(w, before + after) == Play(Play(w, before), after)
  {
    if after == [] {
      assert before + after == before;
    } else {
      var n := |after| - 1;
      PlayConcat(w, before, after[..n]);
      assert (before + after)[..|before + after| - 1] == before + after[..n];
    }
  }

  lemma OneMove(w: World, m: Move)
    ensures Play(w, [m]) == Act(w, m)
  {
    assert [m][..0] == [];
  }

  function DevicesOf(targets: seq<Target>): set<Uuid> {
    if targets == [] then {} else DevicesOf(targets[..|targets| - 1]) + {targets[|targets| - 1].deviceId}
  }

  /** `verify`: the receipt has twenty results, one for each target. */
  predicate VerifyAccepts(w: World) {
    && w.plan.receipt.Some?
    && |w.plan.receipt.value| == PILOT_TARGETS
    && w.plan.receipt.value.Keys == DevicesOf(w.targets)
  }
}
