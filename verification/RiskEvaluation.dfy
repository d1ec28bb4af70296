/** services/risk.py `RiskEvaluator.evaluate`, on exact numbers: values are integers in units of `10^-scale`. */
module RiskEvaluation {
  import opened Basics
  import opened DataQuality
  import D = Decimals

  datatype Direction = Above | Below

  datatype RiskBinding = RiskBinding(
    horizon: nat, unit: string, threshold: string, scale: nat, direction: Direction, start: int)

  datatype RoundRisk = RoundRisk(risky: bool, crossings: nat, minimum: int, maximum: int, mean: int)

  /** `Decimal(canonical_decimal(s))`: the canonical text read back. */
  function AmountOf(s: string, scale: nat): (r: Option<int>)
    ensures r.Some? <==> D.Parse(s).Some?
    ensures r.Some? ==> r.value == D.RoundTo(D.Parse(s).value, scale)
  {
    match D.Canonical(s, scale)
    case Err(_) => None
    case Ok(text) =>
      D.ParsePrinted(D.RoundTo(D.Parse(s).value, scale), scale);
      Some(D.Parse(text).value.num)
  }

  predicate Crosses(b: RiskBinding, threshold: int, value: int) {
    if b.direction.Above? then value > threshold else value < threshold
  }

  type Reader = string -> Option<int>

  /** How the texts of a binding are read. */
  function ReaderOf(b: RiskBinding): Reader { s => AmountOf(s, b.scale) }

  /** The amount of forecast point `i`, if the point is where and what it should be. */
  function PointAmount(b: RiskBinding, units: Units, read: Reader, p: Point, i: nat): Option<int> {
    if p.timestamp != b.start + i * INTERVAL_MS then None
    else if units(p.unit).None? || units(p.unit) != units(b.unit) then None
    else read(p.value)
  }

  function Sum(xs: seq<int>): int { if xs == [] then 0 else Sum(xs[..|xs| - 1]) + xs[|xs| - 1] }

  function Count(bs: seq<bool>): nat {
    if bs == [] then 0 else Count(bs[..|bs| - 1]) + (if bs[|bs| - 1] then 1 else 0)
  }

  /** Forecast points `i - 1` and `i` both cross. */
  predicate CrossesTwice(b: RiskBinding, threshold: int, values: seq<int>, i: nat) {
    1 <= i < |values| && Crosses(b, threshold, values[i - 1]) && Crosses(b, threshold, values[i])
  }

  function CrossingsOf(b: RiskBinding, threshold: int, values: seq<int>): (r: seq<bool>)
    ensures |r| == |values| && forall i :: 0 <= i < |r| ==> r[i] == Crosses(b, threshold, values[i])
  {
    seq(|values|, i requires 0 <= i < |values| => Crosses(b, threshold, values[i]))
  }

  /** The least and the greatest of the values. */
  ghost predicate Extremes(values: seq<int>, low: int, high: int) {
    low in values && high in values && forall i :: 0 <= i < |values| ==> low <= values[i] <= high
  }

  lemma ExtremesSnoc(values: seq<int>, low: int, high: int, x: int)
    requires values != [] ==> Extremes(values, low, high)
    ensures var some := values != [];
            Extremes(values + [x], if !some || x < low then x else low, if !some || x > high then x else high)
  {
    var all := values + [x];
    assert all[|values|] == x;
    assert forall v :: v in values ==> v in all;
  }

  /** What the evaluation says about the amounts: adjacent crossings, extremes that occur, and the rounded mean. */
  ghost predicate Describes(b: RiskBinding, threshold: int, values: seq<int>, r: RoundRisk) {
    && values != []
    && (r.risky <==> exists i: nat :: CrossesTwice(b, threshold, values, i))
    && r.crossings == Count(CrossingsOf(b, threshold, values))
    && Extremes(values, r.minimum, r.maximum)
    && r.mean == D.HalfEven(Sum(values), |values|)
  }

  /** Every point of the forecast is readable. */
  ghost predicate Readable(b: RiskBinding, units: Units, read: Reader, forecast: seq<Point>) {
    forall i :: 0 <= i < |forecast| ==> PointAmount(b, units, read, forecast[i], i).Some?
  }

  ghost predicate ReadsSome(b: RiskBinding, units: Units, read: Reader, forecast: seq<Point>, values: seq<int>) {
    |values| <= |forecast|
    && forall i :: 0 <= i < |values| ==> PointAmount(b, units, read, forecast[i], i) == Some(values[i])
  }

  ghost predicate Reads(b: RiskBinding, units: Units, read: Reader, forecast: seq<Point>, values: seq<int>) {
    |values| == |forecast| && ReadsSome(b, units, read, forecast, values)
  }

  /** The value of a decimal text in units of `10^-scale`, rounded half even. */
  function Rounded(text: string, scale: nat): int
    requires D.Parse(text).Some?
  {
    D.RoundTo(D.Parse(text).value, scale)
  }

  /** Every point is on its minute, in the binding's unit, and a decimal. */
  predicate WellFormed(b: RiskBinding, units: Units, forecast: seq<Point>) {
    forall i :: 0 <= i < |forecast| ==>
      forecast[i].timestamp == b.start + 60000 * i && units(forecast[i].unit).Some?
      && units(forecast[i].unit) == units(b.unit) && D.Parse(forecast[i].value).Some?
  }

  ghost predicate IsRounded(b: RiskBinding, forecast: seq<Point>, values: seq<int>) {
    |values| == |forecast|
    && forall i :: 0 <= i < |values| ==>
         D.Parse(forecast[i].value).Some? && values[i] == Rounded(forecast[i].value, b.scale)
  }

  /** Two adjacent values are on the risky side of the threshold, the threshold itself excluded. */
  ghost predicate PairBeyond(direction: Direction, threshold: int, values: seq<int>) {
    match direction
    case Above => exists i :: 1 <= i < |values| && values[i - 1] > threshold && values[i] > threshold
    case Below => exists i :: 1 <= i < |values| && values[i - 1] < threshold && values[i] < threshold
  }

  /** The positions of the values on the risky side. */
  ghost function Beyond(direction: Direction, threshold: int, values: seq<int>): set<nat> {
    match direction
    case Above => set i: nat | i < |values| && values[i] > threshold
    case Below => set i: nat | i < |values| && values[i] < threshold
  }

  /** The evaluation in the values' own terms. */
  ghost predicate IsRiskOf(direction: Direction, threshold: int, values: seq<int>, r: RoundRisk) {
    && (r.risky <==> PairBeyond(direction, threshold, values))
    && r.crossings == |Beyond(direction, threshold, values)|
    && r.minimum in values && r.maximum in values
    && (forall v :: v in values ==> r.minimum <= v <= r.maximum)
    && values != [] && r.mean == D.HalfEven(Sum(values), |values|)
  }

  /** The positions at which a sequence is true. */
  ghost function TrueAt(bs: seq<bool>): set<nat> { set i: nat | i < |bs| && bs[i] }

  lemma {:induction false} CountIsCardinality(bs: seq<bool>)
    ensures Count(bs) == |TrueAt(bs)|
  {
    if bs == [] {
      assert TrueAt(bs) == {};
    } else {
      var n := |bs| - 1;
      CountIsCardinality(bs[..n]);
      assert TrueAt(bs) == TrueAt(bs[..n]) + (if bs[n] then {n} else {});
    }
  }

  /** A binding for high values is risky exactly with two adjacent values above its threshold, one for low values below. */
  lemma RiskIsExact(b: RiskBinding, threshold: int, values: seq<int>, r: RoundRisk)
    requires Describes(b, threshold, values, r)
    ensures IsRiskOf(b.direction, threshold, values, r)
  {
    var bs := CrossingsOf(b, threshold, values);
    CountIsCardinality(bs);
    assert TrueAt(bs) == Beyond(b.direction, threshold, values);
    if i: nat :| CrossesTwice(b, threshold, values, i) {
      assert PairBeyond(b.direction, threshold, values);
    }
    if PairBeyond(b.direction, threshold, values) {
      var i: nat :| 1 <= i < |values|
                    && if b.direction.Above? then values[i - 1] > threshold && values[i] > threshold
                       else values[i - 1] < threshold && values[i] < threshold;
      assert CrossesTwice(b, threshold, values, i);
    }
  }

  lemma ReadableIsWellFormed(b: RiskBinding, units: Units, forecast: seq<Point>)
    ensures units(b.unit).Some? ==> (WellFormed(b, units, forecast) <==> Readable(b, units, ReaderOf(b), forecast))
    ensures ReaderOf(b)(b.threshold).Some? <==> D.Parse(b.threshold).Some?
    ensures D.Parse(b.threshold).Some? ==> ReaderOf(b)(b.threshold).value == Rounded(b.threshold, b.scale)
  {
    if units(b.unit).Some? {
      forall i | 0 <= i < |forecast|
        ensures PointAmount(b, units, ReaderOf(b), forecast[i], i).Some? <==>
                  forecast[i].timestamp == b.start + 60000 * i && units(forecast[i].unit).Some?
                  && units(forecast[i].unit) == units(b.unit) && D.Parse(forecast[i].value).Some?
      {}
    }
  }

  lemma DescribedIsRisk(b: RiskBinding, units: Units, threshold: int, forecast: seq<Point>, values: seq<int>, r: RoundRisk)
    requires Reads(b, units, ReaderOf(b), forecast, values) && Describes(b, threshold, values, r)
    ensures IsRounded(b, forecast, values) && IsRiskOf(b.direction, threshold, values, r)
  {
    RiskIsExact(b, threshold, values, r);
    forall i | 0 <= i < |values|
      ensures D.Parse(forecast[i].value).Some? && values[i] == Rounded(forecast[i].value, b.scale)
    {
      assert PointAmount(b, units, ReaderOf(b), forecast[i], i) == Some(values[i]);
    }
  }

  /** None is any of the ValueErrors, an empty forecast included. */
  method Evaluate(b: RiskBinding, units: Units, forecast: seq<Point>) returns (r: Option<RoundRisk>, ghost values: seq<int>)
    ensures r.Some? <==>
              && |forecast| == b.horizon && b.horizon > 0 && units(b.unit).Some?
              && ReaderOf(b)(b.threshold).Some? && Readable(b, units, ReaderOf(b), forecast)
    ensures r.Some? ==>
              && Reads(b, units, ReaderOf(b), forecast, values)
              && Describes(b, ReaderOf(b)(b.threshold).value, values, r.value)
    ensures r.Some? <==>
              && |forecast| == b.horizon && b.horizon > 0 && units(b.unit).Some?
              && D.Parse(b.threshold).Some? && WellFormed(b, units, forecast)
    ensures r.Some? ==>
              IsRounded(b, forecast, values) && IsRiskOf(b.direction, Rounded(b.threshold, b.scale), values, r.value)
  {
    ReadableIsWellFormed(b, units, forecast);
    var read := ReaderOf(b);
    if |forecast| != b.horizon || b.horizon == 0 || units(b.unit).None? {
      return None, [];
    }
    var threshold := read(b.threshold);
    if threshold.None? {
      return None, [];
    }
    var ok, amounts, crossings, total, count, low, high := Walk(b, units, read, threshold.value, forecast);
    values := amounts;
    if !ok {
      return None, values;
    }
    var risky := exists k :: 1 <= k < |crossings| && crossings[k - 1] && crossings[k];
    RiskyMeansTwice(b, threshold.value, amounts);
    assert threshold.value == Rounded(b.threshold, b.scale);
    r := Some(RoundRisk(risky, count, low, high, D.HalfEven(total, |amounts|)));
    DescribedIsRisk(b, units, threshold.value, forecast, amounts, r.value);
  }

  lemma ValuesSnoc(b: RiskBinding, threshold: int, values: seq<int>, x: int)
    ensures Sum(values + [x]) == Sum(values) + x
    ensures var bs := CrossingsOf(b, threshold, values);
            && CrossingsOf(b, threshold, values + [x]) == bs + [Crosses(b, threshold, x)]
            && Count(bs + [Crosses(b, threshold, x)]) == Count(bs) + (if Crosses(b, threshold, x) then 1 else 0)
  {
    var bs := CrossingsOf(b, threshold, values);
    assert (values + [x])[..|values|] == values;
    assert (bs + [Crosses(b, threshold, x)])[..|bs|] == bs;
  }

  /** The loop of `evaluate` over the points. */
  method Walk(b: RiskBinding, units: Units, read: Reader, threshold: int, forecast: seq<Point>)
    returns (ok: bool, values: seq<int>, crossings: seq<bool>, total: int, count: nat, low: int, high: int)
    ensures ok <==> Readable(b, units, read, forecast)
    ensures ok ==> Reads(b, units, read, forecast, values) && crossings == CrossingsOf(b, threshold, values)
    ensures ok ==> total == Sum(values) && count == Count(crossings) && (values != [] ==> Extremes(values, low, high))
  {
    values, crossings, total, count, low, high := [], [], 0, 0, 0, 0;
    var i := 0;
    while i < |forecast|
      invariant 0 <= i <= |forecast| && |values| == i
      invariant ReadsSome(b, units, read, forecast, values)
      invariant crossings == CrossingsOf(b, threshold, values)
      invariant total == Sum(values) && count == Count(crossings)
      invariant i > 0 ==> Extremes(values, low, high)
    {
      var amount := PointAmount(b, units, read, forecast[i], i);
      if amount.None? {
        ok := false;
        return;
      }
      ValuesSnoc(b, threshold, values, amount.value);
      ExtremesSnoc(values, low, high, amount.value);
      var crossing := Crosses(b, threshold, amount.value);
      values := values + [amount.value];
      crossings := crossings + [crossing];
      total := total + amount.value;
      count := count + (if crossing then 1 else 0);
      low := if i == 0 || amount.value < low then amount.value else low;
      high := if i == 0 || amount.value > high then amount.value else high;
      i := i + 1;
    }
    ok := true;
  }

  lemma RiskyMeansTwice(b: RiskBinding, threshold: int, values: seq<int>)
    ensures var bs := CrossingsOf(b, threshold, values);
            (exists k :: 1 <= k < |bs| && bs[k - 1] && bs[k]) <==> (exists k: nat :: CrossesTwice(b, threshold, values, k))
  {
    var bs := CrossingsOf(b, threshold, values);
    if k :| 1 <= k < |bs| && bs[k - 1] && bs[k] {
      assert CrossesTwice(b, threshold, values, k);
    }
    if k: nat :| CrossesTwice(b, threshold, values, k) {
      assert bs[k - 1] && bs[k];
    }
  }

  // ---------------------------------------------------------------- consequences

  lemma {:induction false} SumIsBounded(xs: seq<int>, low: int, high: int)
    requires forall i :: 0 <= i < |xs| ==> low <= xs[i] <= high
    ensures low * |xs| <= Sum(xs) <= high * |xs|
  {
    var n: int := |xs|;
    if n > 0 {
      SumIsBounded(xs[..n - 1], low, high);
      assert low * n == low * (n - 1) + low && high * n == high * (n - 1) + high;
    } else {
      assert low * 0 == 0 == high * 0;
    }
  }

  lemma WholeQuotient(q: int, d: int)
    requires d > 0
    ensures D.HalfEven(q * d, d) == q
  {
    D.NearestIsHalfEven(q * d, d, q);
  }

  /** The rounded mean stays between the extremes. */
  lemma MeanIsBetween(b: RiskBinding, threshold: int, values: seq<int>, r: RoundRisk)
    requires Describes(b, threshold, values, r)
    ensures r.minimum <= r.mean <= r.maximum
  {
    var n := |values|;
    SumIsBounded(values, r.minimum, r.maximum);
    D.HalfEvenMonotone(r.minimum * n, Sum(values), n);
    D.HalfEvenMonotone(Sum(values), r.maximum * n, n);
    WholeQuotient(r.minimum, n);
    WholeQuotient(r.maximum, n);
  }

  lemma {:induction false} ApartAreFew(bs: seq<bool>)
    requires forall i :: 1 <= i < |bs| ==> !(bs[i - 1] && bs[i])
    ensures Count(bs) <= (|bs| + 1) / 2
  {
    var n := |bs|;
    if n >= 2 {
      ApartAreFew(bs[..n - 2]);
      assert bs[..n - 1][..n - 2] == bs[..n - 2];
      assert Count(bs[..n - 1]) == Count(bs[..n - 2]) + (if bs[n - 2] then 1 else 0);
      assert !(bs[n - 2] && bs[n - 1]);
    } else if n == 1 {
      assert bs[..0] == [];
    }
  }

  /** More than half of the points crossing, rounded up, always makes the round risky. */
  lemma ManyCrossingsAreRisky(b: RiskBinding, threshold: int, values: seq<int>, r: RoundRisk)
    requires Describes(b, threshold, values, r) && r.crossings > (|values| + 1) / 2
    ensures r.risky
  {
    var bs := CrossingsOf(b, threshold, values);
    if forall i :: 1 <= i < |bs| ==> !(bs[i - 1] && bs[i]) {
      ApartAreFew(bs);
    } else {
      var i :| 1 <= i < |bs| && bs[i - 1] && bs[i];
      assert CrossesTwice(b, threshold, values, i);
    }
  }

  /** A forecast that only touches the threshold never crosses it: the comparison is strict in both directions. */
  lemma SteadyForecastIsCalm(b: RiskBinding, threshold: int, values: seq<int>, r: RoundRisk)
    requires Describes(b, threshold, values, r)
    requires if b.direction.Above? then r.maximum <= threshold else r.minimum >= threshold
    ensures !r.risky && r.crossings == 0
  {
    assert forall i :: 0 <= i < |values| ==> !Crosses(b, threshold, values[i]);
    NoneCounted(CrossingsOf(b, threshold, values));
  }

  lemma {:induction false} NoneCounted(bs: seq<bool>)
    requires forall i :: 0 <= i < |bs| ==> !bs[i]
    ensures Count(bs) == 0
  {
    if bs != [] {
      NoneCounted(bs[..|bs| - 1]);
    }
  }
}
