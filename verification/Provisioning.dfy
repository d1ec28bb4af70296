/**
  Applying one provisioning plan of one tenant: per target reserve, find or create the CMMS asset, write and read back
  the ThingsBoard attributes, confirm, activate. Any step may be the last one of an apply, a provider call may be
  refused, and a write may take effect although its result is unknown. The tenant lock lets one apply run at a time,
  and nobody else touches the equipment of the plan.
 */
module Provisioning {
  import opened Basics
  import D = Decimals

  const PLAN_LIFETIME: nat := 1800
  const PILOT_TARGETS: nat := 20

  // ---------------------------------------------------------------- measurements

  datatype Direction = Above | Below

  /** The columns of a measurement that differ between profiles. */
  datatype Measurement = Measurement(
    measCode: string, unit: string, scale: nat, modelProfileId: string, modelInfoId: string, direction: Direction,
    threshold: string)

  /** A measurement_binding row; the threshold column holds millionths. */
  datatype BindingRow = BindingRow(
    equipmentId: Uuid, measCode: string, unit: string, scale: nat, modelProfileId: string, modelInfoId: string,
    direction: Direction, threshold: int)

  const COLUMN_SCALE: nat := 6

  /** The row `activate_target` inserts. The thresholds of the profiles are all decimal texts. */
  function RowOf(equipmentId: Uuid, m: Measurement): BindingRow {
    var d := D.Parse(m.threshold);
    BindingRow(equipmentId, m.measCode, m.unit, m.scale, m.modelProfileId, m.modelInfoId, m.direction,
               if d.Some? then D.RoundTo(d.value, COLUMN_SCALE) else 0)
  }

  /** `_measurement_from_row`. */
  function MeasurementOf(row: BindingRow): Measurement {
    Measurement(row.measCode, row.unit, row.scale, row.modelProfileId, row.modelInfoId, row.direction,
                D.Print(D.RoundTo(D.Decimal(row.threshold, COLUMN_SCALE), row.scale), row.scale))
  }

  /** A row reads back as the measurement it was written from exactly when the threshold text is canonical. */
  lemma RowReadsBack(equipmentId: Uuid, m: Measurement)
    requires D.Parse(m.threshold).Some? && D.Parse(m.threshold).value.places <= COLUMN_SCALE
    ensures MeasurementOf(RowOf(equipmentId, m)) == m <==> D.Canonical(m.threshold, m.scale) == Ok(m.threshold)
  {
    var d := D.Parse(m.threshold).value;
    var k := COLUMN_SCALE - d.places;
    D.RoundScaled(d, m.scale, k);
    assert D.Decimal(d.num * D.Pow10(k), d.places + k) == D.Decimal(D.RoundTo(d, COLUMN_SCALE), COLUMN_SCALE);
  }

  /** `PROFILES`, the pilot measurement of each device type. */
  const CNC := Measurement("vibration_rms", "mm/s", 2, "pilot-cnc-vibration", "pilot-fixture-v1-cnc-vibration", Above, "5.00")
  const INJECTION_MOLDING :=
    Measurement("injection_pressure", "bar", 1, "pilot-injection-pressure", "pilot-fixture-v1-injection-pressure", Above, "175.0")
  const ASSEMBLY_ROBOT :=
    Measurement("position_deviation", "mm", 3, "pilot-robot-position", "pilot-fixture-v1-robot-position", Above, "1.000")
  const TIGHTENING :=
    Measurement("torque", "N·m", 2, "pilot-tightening-torque", "pilot-fixture-v1-tightening-torque", Below, "15.00")
  const AIR_COMPRESSOR :=
    Measurement("discharge_pressure", "MPa", 3, "pilot-compressor-pressure", "pilot-fixture-v1-compressor-pressure", Below, "0.500")
  const EOL_TESTER :=
    Measurement("pass_rate", "%", 2, "pilot-eol-pass-rate", "pilot-fixture-v1-eol-pass-rate", Below, "90.00")

  const PROFILES := [CNC, INJECTION_MOLDING, ASSEMBLY_ROBOT, TIGHTENING, AIR_COMPRESSOR, EOL_TESTER]

  lemma ThresholdReadsBack(equipmentId: Uuid, m: Measurement, t: D.Text)
    requires D.Show(t) == m.threshold && D.Proper(t) && !t.negative && |t.fraction| == m.scale <= COLUMN_SCALE
    ensures MeasurementOf(RowOf(equipmentId, m)) == m
  {
    D.ReadIsExact(m.threshold, t);
    D.CanonicalKeepsScaled(m.threshold, m.scale);
    RowReadsBack(equipmentId, m);
  }

  /** The thresholds of the profiles, digit by digit. */
  lemma ThresholdTexts()
    ensures D.Show(D.Text(false, [5], [0, 0])) == "5.00"
    ensures D.Show(D.Text(false, [1, 7, 5], [0])) == "175.0"
    ensures D.Show(D.Text(false, [1], [0, 0, 0])) == "1.000"
    ensures D.Show(D.Text(false, [1, 5], [0, 0])) == "15.00"
    ensures D.Show(D.Text(false, [0], [5, 0, 0])) == "0.500"
    ensures D.Show(D.Text(false, [9, 0], [0, 0])) == "90.00"
  {}

  /** Every profile survives the database. */
  lemma ProfilesReadBack(equipmentId: Uuid, m: Measurement)
    requires m in PROFILES
    ensures MeasurementOf(RowOf(equipmentId, m)) == m
  {
    ThresholdTexts();
    if m == CNC {
      ThresholdReadsBack(equipmentId, m, D.Text(false, [5], [0, 0]));
    } else if m == INJECTION_MOLDING {
      ThresholdReadsBack(equipmentId, m, D.Text(false, [1, 7, 5], [0]));
    } else if m == ASSEMBLY_ROBOT {
      ThresholdReadsBack(equipmentId, m, D.Text(false, [1], [0, 0, 0]));
    } else if m == TIGHTENING {
      ThresholdReadsBack(equipmentId, m, D.Text(false, [1, 5], [0, 0]));
    } else if m == AIR_COMPRESSOR {
      ThresholdReadsBack(equipmentId, m, D.Text(false, [0], [5, 0, 0]));
    } else {
      ThresholdReadsBack(equipmentId, m, D.Text(false, [9, 0], [0, 0]));
    }
  }

  /** How measurements are stored and read back. */
  datatype Codec = Codec(write: (Uuid, Measurement) -> BindingRow, read: BindingRow -> Measurement)

  const SQL: Codec := Codec(RowOf, MeasurementOf)

  // ---------------------------------------------------------------- tables and providers

  datatype Target = Target(deviceId: Uuid, name: string, equipmentId: Uuid, measurement: Measurement)

  /** `_request_projection`, which the digest column hashes. */
  datatype AssetRequest = AssetRequest(name: string, equipmentId: Uuid)

  datatype MappingRow = MappingRow(
    deviceId: Uuid, equipmentId: Uuid, assetId: Option<nat>, request: AssetRequest, active: bool, enabled: bool)

  /** A CMMS asset; its id is its position plus one. */
  datatype Asset = Asset(name: string, equipmentId: Uuid)

  datatype Attribute = Attribute(equipmentId: Uuid, assetId: nat)

  datatype Site = Site(
    mappings: seq<MappingRow>, bindings: seq<BindingRow>, assets: seq<Asset>, attributes: map<Uuid, Attribute>)

  function RequestFor(t: Target): AssetRequest { AssetRequest(t.name, t.equipmentId) }

  function AssetFor(t: Target): Asset { Asset(t.name, t.equipmentId) }

  /** `find_asset_by_equipment_id`: the id of the first asset of the equipment. */
  function FindAsset(assets: seq<Asset>, equipmentId: Uuid): (r: Option<nat>)
    ensures r.Some? ==> 1 <= r.value <= |assets| && assets[r.value - 1].equipmentId == equipmentId
  {
    if assets == [] then None
    else
      var n := |assets| - 1;
      var earlier := FindAsset(assets[..n], equipmentId);
      if earlier.Some? then earlier else if assets[n].equipmentId == equipmentId then Some(n + 1) else None
  }

  function IndexOfDevice(mappings: seq<MappingRow>, deviceId: Uuid): (r: Option<nat>)
    ensures r.Some? ==> r.value < |mappings| && mappings[r.value].deviceId == deviceId
    ensures r.None? ==> forall i :: 0 <= i < |mappings| ==> mappings[i].deviceId != deviceId
  {
    if mappings == [] then None
    else
      var n := |mappings| - 1;
      var earlier := IndexOfDevice(mappings[..n], deviceId);
      if earlier.Some? then earlier else if mappings[n].deviceId == deviceId then Some(n) else None
  }

  function ReservedRow(t: Target): MappingRow {
    MappingRow(t.deviceId, t.equipmentId, None, RequestFor(t), false, true)
  }

  function ActiveRow(t: Target, assetId: nat): MappingRow {
    MappingRow(t.deviceId, t.equipmentId, Some(assetId), RequestFor(t), true, true)
  }

  /** `reserve_target`; None is a conflict, that with the key of another row included. */
  function Reserve(s: Site, t: Target): Option<Site> {
    match IndexOfDevice(s.mappings, t.deviceId)
    case None =>
      if exists i :: 0 <= i < |s.mappings| && s.mappings[i].equipmentId == t.equipmentId then None
      else Some(s.(mappings := s.mappings + [ReservedRow(t)]))
    case Some(i) =>
      if s.mappings[i].equipmentId != t.equipmentId || s.mappings[i].request != RequestFor(t) then None else Some(s)
  }

  predicate HasBinding(bindings: seq<BindingRow>, t: Target) {
    exists i :: 0 <= i < |bindings| && bindings[i].equipmentId == t.equipmentId && bindings[i].measCode == t.measurement.measCode
  }

  predicate BindingsAgree(c: Codec, bindings: seq<BindingRow>, t: Target) {
    forall i ::
      (0 <= i < |bindings| && bindings[i].equipmentId == t.equipmentId && bindings[i].measCode == t.measurement.measCode)
      ==> c.read(bindings[i]) == t.measurement
  }

  /** `activate_target`; None is a conflict. */
  function Activate(c: Codec, s: Site, t: Target, assetId: nat): Option<Site> {
    match IndexOfDevice(s.mappings, t.deviceId)
    case None => None
    case Some(i) =>
      var row := s.mappings[i];
      if row.equipmentId != t.equipmentId || (row.assetId.Some? && row.assetId.value != assetId) then None
      else if exists j :: 0 <= j < |s.mappings| && j != i && s.mappings[j].assetId == Some(assetId) then None
      else if !BindingsAgree(c, s.bindings, t) then None
      else
        Some(s.(mappings := s.mappings[i := row.(assetId := Some(assetId), active := true, enabled := true)],
                bindings := if HasBinding(s.bindings, t) then s.bindings
                            else s.bindings + [c.write(t.equipmentId, t.measurement)]))
  }

  // ---------------------------------------------------------------- preflight

  /** The dictionary of expected targets: the last one of a device counts. */
  function TargetOfDevice(targets: seq<Target>, deviceId: Uuid): (r: Option<Target>)
    ensures r.Some? ==> r.value in targets && r.value.deviceId == deviceId
  {
    if targets == [] then None
    else
      var last := targets[|targets| - 1];
      if last.deviceId == deviceId then Some(last) else TargetOfDevice(targets[..|targets| - 1], deviceId)
  }

  function TargetOfEquipment(targets: seq<Target>, equipmentId: Uuid): (r: Option<Target>)
    ensures r.Some? ==> r.value in targets && r.value.equipmentId == equipmentId
  {
    if targets == [] then None
    else
      var last := targets[|targets| - 1];
      if last.equipmentId == equipmentId then Some(last) else TargetOfEquipment(targets[..|targets| - 1], equipmentId)
  }

  predicate MappingFits(m: MappingRow, targets: seq<Target>) {
    var t := TargetOfDevice(targets, m.deviceId);
    && t.Some?
    && m.equipmentId == t.value.equipmentId && m.request == RequestFor(t.value) && m.enabled
    && ((!m.active && m.assetId.None?) || (m.active && m.assetId.Some? && m.assetId.value > 0))
  }

  function MappingOfEquipment(mappings: seq<MappingRow>, equipmentId: Uuid): (r: Option<MappingRow>)
    ensures r.Some? ==> r.value in mappings && r.value.equipmentId == equipmentId
    ensures r.None? <==> forall i :: 0 <= i < |mappings| ==> mappings[i].equipmentId != equipmentId
  {
    if mappings == [] then None
    else
      var last := mappings[|mappings| - 1];
      if last.equipmentId == equipmentId then Some(last) else MappingOfEquipment(mappings[..|mappings| - 1], equipmentId)
  }

  predicate BindingFits(c: Codec, b: BindingRow, mappings: seq<MappingRow>, targets: seq<Target>) {
    var t, m := TargetOfEquipment(targets, b.equipmentId), MappingOfEquipment(mappings, b.equipmentId);
    t.Some? && m.Some? && m.value.active && c.read(b) == t.value.measurement
  }

  function CountBindings(bindings: seq<BindingRow>, equipmentId: Uuid): nat {
    if bindings == [] then 0
    else CountBindings(bindings[..|bindings| - 1], equipmentId)
         + (if bindings[|bindings| - 1].equipmentId == equipmentId then 1 else 0)
  }

  predicate CountFits(bindings: seq<BindingRow>, m: MappingRow) {
    CountBindings(bindings, m.equipmentId) == if m.active then 1 else 0
  }

  /** Every row is what some target left, and each active mapping has exactly its own binding. */
  ghost predicate PreflightAccepts(c: Codec, s: Site, targets: seq<Target>) {
    && (forall i :: 0 <= i < |s.mappings| ==> MappingFits(s.mappings[i], targets))
    && (forall i :: 0 <= i < |s.bindings| ==> BindingFits(c, s.bindings[i], s.mappings, targets))
    && forall e :: MappingOfEquipment(s.mappings, e).Some? ==> CountFits(s.bindings, MappingOfEquipment(s.mappings, e).value)
  }

  function AssetIds(mappings: seq<MappingRow>): map<Uuid, Option<nat>> {
    if mappings == [] then map[]
    else
      var last := mappings[|mappings| - 1];
      AssetIds(mappings[..|mappings| - 1])[last.deviceId := last.assetId]
  }

  /** The dictionary from equipment to mapping describes the table. */
  ghost predicate Indexes(byEquipment: map<Uuid, MappingRow>, mappings: seq<MappingRow>) {
    forall e :: MappingOfEquipment(mappings, e) == if e in byEquipment then Some(byEquipment[e]) else None
  }

  method ReadMappings(mappings: seq<MappingRow>, targets: seq<Target>)
    returns (ok: bool, ids: map<Uuid, Option<nat>>, byEquipment: map<Uuid, MappingRow>)
    ensures ok <==> forall i :: 0 <= i < |mappings| ==> MappingFits(mappings[i], targets)
    ensures ok ==> ids == AssetIds(mappings) && Indexes(byEquipment, mappings)
  {
    ids, byEquipment := map[], map[];
    var i := 0;
    while i < |mappings|
      invariant 0 <= i <= |mappings|
      invariant forall k :: 0 <= k < i ==> MappingFits(mappings[k], targets)
      invariant ids == AssetIds(mappings[..i]) && Indexes(byEquipment, mappings[..i])
    {
      var m := mappings[i];
      if !MappingFits(m, targets) {
        return false, ids, byEquipment;
      }
      assert mappings[..i + 1][..i] == mappings[..i];
      byEquipment := byEquipment[m.equipmentId := m];
      ids := ids[m.deviceId := m.assetId];
      i := i + 1;
    }
    assert mappings[..i] == mappings;
    ok := true;
  }

  function Counted(counts: map<Uuid, nat>, e: Uuid): nat { if e in counts then counts[e] else 0 }

  method CountRows(c: Codec, bindings: seq<BindingRow>, mappings: seq<MappingRow>, targets: seq<Target>,
                   byEquipment: map<Uuid, MappingRow>) returns (ok: bool, counts: map<Uuid, nat>)
    requires Indexes(byEquipment, mappings)
    ensures ok <==> forall i :: 0 <= i < |bindings| ==> BindingFits(c, bindings[i], mappings, targets)
    ensures ok ==> forall e :: Counted(counts, e) == CountBindings(bindings, e)
  {
    counts := map[];
    var i := 0;
    while i < |bindings|
      invariant 0 <= i <= |bindings|
      invariant forall k :: 0 <= k < i ==> BindingFits(c, bindings[k], mappings, targets)
      invariant forall e :: Counted(counts, e) == CountBindings(bindings[..i], e)
    {
      var b := bindings[i];
      var t := TargetOfEquipment(targets, b.equipmentId);
      var fits := t.Some? && b.equipmentId in byEquipment && byEquipment[b.equipmentId].active && c.read(b) == t.value.measurement;
      assert fits <==> BindingFits(c, b, mappings, targets);
      if !fits {
        return false, counts;
      }
      assert bindings[..i + 1][..i] == bindings[..i];
      counts := counts[b.equipmentId := Counted(counts, b.equipmentId) + 1];
      i := i + 1;
    }
    assert bindings[..i] == bindings;
    ok := true;
  }

  method CheckCounts(byEquipment: map<Uuid, MappingRow>, counts: map<Uuid, nat>) returns (ok: bool)
    ensures ok <==> forall e :: e in byEquipment ==> Counted(counts, e) == if byEquipment[e].active then 1 else 0
  {
    var left := byEquipment.Keys;
    while left != {}
      invariant left <= byEquipment.Keys
      invariant forall e :: e in byEquipment && e !in left ==> Counted(counts, e) == if byEquipment[e].active then 1 else 0
      decreases |left|
    {
      var e :| e in left;
      if Counted(counts, e) != (if byEquipment[e].active then 1 else 0) {
        return false;
      }
      left := left - {e};
    }
    ok := true;
  }

  /** `preflight_plan`: fills its dictionaries row by row and refuses the first row that does not fit. */
  method Preflight(c: Codec, s: Site, targets: seq<Target>) returns (r: Option<map<Uuid, Option<nat>>>)
    ensures r.Some? <==> PreflightAccepts(c, s, targets)
    ensures r.Some? ==> r.value == AssetIds(s.mappings)
  {
    var readable, ids, byEquipment := ReadMappings(s.mappings, targets);
    if !readable {
      return None;
    }
    var fitting, counts := CountRows(c, s.bindings, s.mappings, targets, byEquipment);
    if !fitting {
      return None;
    }
    var counted := CheckCounts(byEquipment, counts);
    forall e | e in byEquipment
      ensures CountFits(s.bindings, byEquipment[e]) <==> Counted(counts, e) == if byEquipment[e].active then 1 else 0
    {
      assert MappingOfEquipment(s.mappings, e) == Some(byEquipment[e]);
    }
    return if counted then Some(ids) else None;
  }
}
