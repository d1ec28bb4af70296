/** services/data_quality.py `canonical_decimal`: decimal texts, rounding half to even, and printing at a scale. */
module Decimals {
  import opened Basics

  // ---------------------------------------------------------------- digits

  type Digit = n: nat | n < 10

  function Pow10(n: nat): (p: nat)
    ensures p >= 1
  {
    if n == 0 then 1 else 10 * Pow10(n - 1)
  }

  function Value(ds: seq<Digit>): nat {
    if ds == [] then 0 else 10 * Value(ds[..|ds| - 1]) + ds[|ds| - 1]
  }

  /** The digits of a number, without leading zeros. */
  function Digits(n: nat): (ds: seq<Digit>)
    ensures ds != [] && (ds[0] == 0 ==> ds == [0])
  {
    if n < 10 then [n] else Digits(n / 10) + [n % 10]
  }

  /** The lowest digits of a number, as many as the width asks for. */
  function Padded(n: nat, width: nat): (ds: seq<Digit>)
    ensures |ds| == width
  {
    if width == 0 then [] else Padded(n / 10, width - 1) + [n % 10]
  }

  lemma ValueSnoc(ds: seq<Digit>, d: Digit)
    ensures Value(ds + [d]) == 10 * Value(ds) + d
  {
    assert (ds + [d])[..|ds|] == ds;
  }

  lemma {:induction false} ValueOfDigits(n: nat)
    ensures Value(Digits(n)) == n
  {
    if n < 10 {
      assert Digits(n) == [] + [n];
      ValueSnoc([], n);
    } else {
      ValueOfDigits(n / 10);
      ValueSnoc(Digits(n / 10), n % 10);
    }
  }

  lemma {:induction false} ValueOfPadded(n: nat, width: nat)
    requires n < Pow10(width)
    ensures Value(Padded(n, width)) == n
  {
    if width > 0 {
      ValueOfPadded(n / 10, width - 1);
      ValueSnoc(Padded(n / 10, width - 1), n % 10);
    }
  }

  lemma TimesTen(x: int, y: int)
    ensures x * (10 * y) == 10 * (x * y)
  {}

  lemma {:induction false} ValueOfConcat(s: seq<Digit>, t: seq<Digit>)
    ensures Value(s + t) == Value(s) * Pow10(|t|) + Value(t)
  {
    if t == [] {
      assert s + t == s;
    } else {
      var n := |t| - 1;
      ValueOfConcat(s, t[..n]);
      ValueSnoc(s + t[..n], t[n]);
      assert s + t == (s + t[..n]) + [t[n]];
      TimesTen(Value(s), Pow10(n));
    }
  }

  lemma {:induction false} ValueIsBounded(ds: seq<Digit>)
    ensures Value(ds) < Pow10(|ds|)
  {
    if ds != [] {
      ValueIsBounded(ds[..|ds| - 1]);
    }
  }

  /** Digits without a leading zero are what `Digits` gives for their value. */
  lemma {:induction false} DigitsOfValue(ds: seq<Digit>)
    requires ds != [] && (ds[0] == 0 ==> |ds| == 1)
    ensures Digits(Value(ds)) == ds
    ensures Value(ds) == 0 ==> ds == [0]
  {
    var n := |ds| - 1;
    if n > 0 {
      DigitsOfValue(ds[..n]);
      assert ds[..n][0] == ds[0];
      assert Value(ds) / 10 == Value(ds[..n]) && Value(ds) % 10 == ds[n];
      assert ds == ds[..n] + [ds[n]];
    } else {
      assert ds[..0] == [];
    }
  }

  lemma {:induction false} PaddedOfValue(ds: seq<Digit>)
    ensures Padded(Value(ds), |ds|) == ds
  {
    if ds != [] {
      var n := |ds| - 1;
      PaddedOfValue(ds[..n]);
      assert Value(ds) / 10 == Value(ds[..n]) && Value(ds) % 10 == ds[n];
      assert ds == ds[..n] + [ds[n]];
    }
  }

  // ---------------------------------------------------------------- texts

  /** The parts of `-?(?:0|[1-9][0-9]*)(?:\.[0-9]+)?`. */
  datatype Text = Text(negative: bool, whole: seq<Digit>, fraction: seq<Digit>)

  predicate Proper(t: Text) { t.whole != [] && (t.whole[0] == 0 ==> |t.whole| == 1) }

  predicate IsDigit(c: char) { '0' <= c <= '9' }

  function CharOf(d: Digit): char { '0' + d as char }

  function DigitOf(c: char): Digit
    requires IsDigit(c)
  {
    c as int - '0' as int
  }

  function Chars(ds: seq<Digit>): (s: string)
    ensures |s| == |ds|
    ensures forall i :: 0 <= i < |s| ==> s[i] == CharOf(ds[i]) && IsDigit(s[i])
  {
    seq(|ds|, i requires 0 <= i < |ds| => CharOf(ds[i]))
  }

  function Tail(fraction: seq<Digit>): string {
    if fraction == [] then "" else "." + Chars(fraction)
  }

  function Show(t: Text): string {
    (if t.negative then "-" else "") + (Chars(t.whole) + Tail(t.fraction))
  }

  /** The longest run of digits at the front. */
  function Run(s: string): (ds: seq<Digit>)
    ensures |ds| <= |s| && s[..|ds|] == Chars(ds)
    ensures |ds| < |s| ==> !IsDigit(s[|ds|])
  {
    if s == "" || !IsDigit(s[0]) then []
    else
      var ds := Run(s[1..]);
      [DigitOf(s[0])] + ds
  }

  function ReadUnsigned(s: string): Option<(seq<Digit>, seq<Digit>)> {
    var whole := Run(s);
    var rest := s[|whole|..];
    if whole == [] || (whole[0] == 0 && |whole| != 1) then None
    else if rest == "" then Some((whole, []))
    else
      var fraction := Run(rest[1..]);
      if rest[0] != '.' || fraction == [] || |fraction| != |rest| - 1 then None else Some((whole, fraction))
  }

  function Read(s: string): Option<Text> {
    var negative := s != "" && s[0] == '-';
    match ReadUnsigned(if negative then s[1..] else s)
    case None => None
    case Some((whole, fraction)) => Some(Text(negative, whole, fraction))
  }

  lemma {:induction false} RunOf(ds: seq<Digit>, rest: string)
    requires rest != "" ==> !IsDigit(rest[0])
    ensures Run(Chars(ds) + rest) == ds
  {
    var s := Chars(ds) + rest;
    if ds == [] {
      assert s == rest;
    } else {
      assert s[1..] == Chars(ds[1..]) + rest;
      RunOf(ds[1..], rest);
      assert ds == [ds[0]] + ds[1..];
    }
  }

  lemma ReadShownUnsigned(whole: seq<Digit>, fraction: seq<Digit>)
    requires Proper(Text(false, whole, fraction))
    ensures ReadUnsigned(Chars(whole) + Tail(fraction)) == Some((whole, fraction))
  {
    var s := Chars(whole) + Tail(fraction);
    RunOf(whole, Tail(fraction));
    assert s[|whole|..] == Tail(fraction);
    if fraction != [] {
      RunOf(fraction, "");
      assert Tail(fraction)[1..] == Chars(fraction) && Chars(fraction) + "" == Chars(fraction);
    }
  }

  lemma ShowReadUnsigned(s: string)
    requires ReadUnsigned(s).Some?
    ensures var (whole, fraction) := ReadUnsigned(s).value;
            Proper(Text(false, whole, fraction)) && Chars(whole) + Tail(fraction) == s
  {
    var whole := Run(s);
    var rest := s[|whole|..];
    assert s == s[..|whole|] + rest;
    if rest != "" {
      var fraction := Run(rest[1..]);
      assert rest == "." + rest[1..] && rest[1..][..|fraction|] == rest[1..];
    }
  }

  /** Reading accepts exactly the texts of the pattern, and finds their parts. */
  lemma ReadIsExact(s: string, t: Text)
    ensures Read(s) == Some(t) <==> Proper(t) && Show(t) == s
  {
    if Proper(t) && Show(t) == s {
      var u := Chars(t.whole) + Tail(t.fraction);
      ReadShownUnsigned(t.whole, t.fraction);
      assert u[0] == CharOf(t.whole[0]);
      if t.negative {
        assert s == "-" + u && s[1..] == u;
      } else {
        assert s == "" + u && s == u;
      }
    }
    if Read(s) == Some(t) {
      if t.negative {
        ShowReadUnsigned(s[1..]);
        assert s == "-" + s[1..];
      } else {
        ShowReadUnsigned(s);
        assert s == "" + s;
      }
    }
  }

  // ---------------------------------------------------------------- numbers

  /** The number `num / 10^places`. */
  datatype Decimal = Decimal(num: int, places: nat)

  function NumberOf(t: Text): Decimal {
    var n: int := Value(t.whole + t.fraction);
    Decimal(if t.negative then -n else n, |t.fraction|)
  }

  /** `DECIMAL_RE` and `Decimal(value)`; the sign of zero is dropped. */
  function Parse(s: string): Option<Decimal> {
    match Read(s)
    case None => None
    case Some(t) => Some(NumberOf(t))
  }

  // ---------------------------------------------------------------- rounding

  /** `n / d` to the nearest integer, ties to the even one. */
  function HalfEven(n: int, d: int): int
    requires d > 0
  {
    var q, r := n / d, n % d;
    if 2 * r < d || (2 * r == d && q % 2 == 0) then q else q + 1
  }

  /** Within half a unit, and at exactly half a unit even. */
  lemma HalfEvenIsNearest(n: int, d: int)
    requires d > 0
    ensures var q := HalfEven(n, d);
            && -d <= 2 * (n - q * d) <= d
            && (2 * (n - q * d) == d || 2 * (n - q * d) == -d ==> q % 2 == 0)
  {
    var q, r := n / d, n % d;
    assert n == q * d + r;
    assert (q + 1) * d == q * d + d;
  }

  lemma MulMonotone(x: int, y: int, d: int)
    requires x <= y && d >= 0
    ensures x * d <= y * d
  {
    assert (y - x) * d >= 0;
    assert y * d == x * d + (y - x) * d;
  }

  lemma MulReflects(x: int, y: int, d: int)
    requires x * d < y * d && d >= 0
    ensures x < y
  {
    if y <= x {
      MulMonotone(y, x, d);
    }
  }

  predicate Near(n: int, d: int, q: int) { -d <= 2 * (n - q * d) <= d }

  /** Neighbours of the larger number are not below those of the smaller one. */
  lemma NearIsOrdered(m: int, n: int, d: int, p: int, q: int)
    requires d > 0 && Near(m, d, p) && Near(n, d, q)
    ensures m < n ==> p <= q
    ensures m == n ==> p <= q + 1
    ensures m == n && p == q + 1 ==> 2 * (n - q * d) == d && 2 * (n - p * d) == -d
  {
    assert (q + 1) * d == q * d + d;
    if m < n {
      MulReflects(p, q + 1, d);
    } else if m == n {
      assert (q + 2) * d == q * d + 2 * d;
      MulReflects(p, q + 2, d);
    }
  }

  /** Nothing else is that near. */
  lemma NearestIsHalfEven(n: int, d: int, q: int)
    requires d > 0 && -d <= 2 * (n - q * d) <= d
    requires 2 * (n - q * d) == d || 2 * (n - q * d) == -d ==> q % 2 == 0
    ensures q == HalfEven(n, d)
  {
    var p := HalfEven(n, d);
    HalfEvenIsNearest(n, d);
    NearIsOrdered(n, n, d, p, q);
    NearIsOrdered(n, n, d, q, p);
  }

  lemma HalfEvenMonotone(m: int, n: int, d: int)
    requires d > 0 && m <= n
    ensures HalfEven(m, d) <= HalfEven(n, d)
  {
    HalfEvenIsNearest(m, d);
    HalfEvenIsNearest(n, d);
    NearIsOrdered(m, n, d, HalfEven(m, d), HalfEven(n, d));
  }

  /** The integer number of units of `10^-scale` that `d` rounds to. */
  function RoundTo(d: Decimal, scale: nat): int {
    if d.places <= scale then d.num * Pow10(scale - d.places) else HalfEven(d.num, Pow10(d.places - scale))
  }

  // ---------------------------------------------------------------- printing

  /** The digits of a coefficient, filled with zeros so that a digit is left before the point. */
  function Coefficient(m: nat, scale: nat): (ds: seq<Digit>)
    ensures |ds| > scale
  {
    if |Digits(m)| > scale then Digits(m) else Padded(m, scale + 1)
  }

  function Magnitude(n: int): nat { if n < 0 then -n else n }

  function TextOf(n: int, scale: nat): Text {
    var ds := Coefficient(Magnitude(n), scale);
    Text(n < 0, ds[..|ds| - scale], ds[|ds| - scale..])
  }

  /** `f"{quantized:.{scale}f}"` of `n` units of `10^-scale`. */
  function Print(n: int, scale: nat): string { Show(TextOf(n, scale)) }

  /** `canonical_decimal`; Err is the ValueError. */
  function Canonical(s: string, scale: nat): Result<string, ()> {
    match Parse(s)
    case None => Err(())
    case Some(d) => Ok(Print(RoundTo(d, scale), scale))
  }

  // ---------------------------------------------------------------- round trips

  lemma {:induction false} Pow10Monotone(m: nat, n: nat)
    requires m <= n
    ensures Pow10(m) <= Pow10(n)
  {
    if m < n {
      Pow10Monotone(m, n - 1);
    }
  }

  lemma ValueOfCoefficient(m: nat, scale: nat)
    ensures Value(Coefficient(m, scale)) == m
  {
    ValueOfDigits(m);
    if |Digits(m)| <= scale {
      ValueIsBounded(Digits(m));
      Pow10Monotone(|Digits(m)|, scale + 1);
      ValueOfPadded(m, scale + 1);
    }
  }

  lemma NumberOfTextOf(n: int, scale: nat)
    ensures Proper(TextOf(n, scale)) && NumberOf(TextOf(n, scale)) == Decimal(n, scale)
  {
    var ds := Coefficient(Magnitude(n), scale);
    var t := TextOf(n, scale);
    ValueOfCoefficient(Magnitude(n), scale);
    assert t.whole + t.fraction == ds;
    assert t.whole[0] == ds[0];
  }

  /** What is printed parses back to the number printed. */
  lemma ParsePrinted(n: int, scale: nat)
    ensures Parse(Print(n, scale)) == Some(Decimal(n, scale))
  {
    NumberOfTextOf(n, scale);
    ReadIsExact(Print(n, scale), TextOf(n, scale));
  }

  lemma RoundExact(n: int, scale: nat)
    ensures RoundTo(Decimal(n, scale), scale) == n
  {
    assert Pow10(0) == 1;
  }

  lemma CanonicalOfParsed(s: string, n: int, scale: nat)
    requires Parse(s) == Some(Decimal(n, scale))
    ensures Canonical(s, scale) == Ok(Print(n, scale))
  {
    RoundExact(n, scale);
  }

  /** Canonical texts are fixed points: canonicalising twice at one scale is canonicalising once. */
  lemma CanonicalIsIdempotent(s: string, scale: nat)
    requires Canonical(s, scale).Ok?
    ensures Canonical(Canonical(s, scale).value, scale) == Canonical(s, scale)
  {
    var n := RoundTo(Parse(s).value, scale);
    ParsePrinted(n, scale);
    CanonicalOfParsed(Print(n, scale), n, scale);
  }

  /** Equal canonical texts mean equal rounded values. */
  lemma PrintIsInjective(m: int, n: int, scale: nat)
    requires Print(m, scale) == Print(n, scale)
    ensures m == n
  {
    ParsePrinted(m, scale);
    ParsePrinted(n, scale);
  }

  /** A canonical text starts with a minus exactly when its value is negative: there is no negative zero. */
  lemma NoNegativeZero(n: int, scale: nat)
    ensures Print(n, scale) != "" && (Print(n, scale)[0] == '-' <==> n < 0)
  {
    var t := TextOf(n, scale);
    assert (Chars(t.whole) + Tail(t.fraction))[0] == CharOf(t.whole[0]);
  }

  lemma {:induction false} DigitsAreFew(n: nat, k: nat)
    requires n < Pow10(k) && k > 0
    ensures |Digits(n)| <= k
  {
    assert Pow10(1) == 10;
    if n >= 10 {
      DigitsAreFew(n / 10, k - 1);
    }
  }

  lemma CoefficientOf(whole: seq<Digit>, fraction: seq<Digit>)
    requires Proper(Text(false, whole, fraction))
    ensures Coefficient(Value(whole + fraction), |fraction|) == whole + fraction
  {
    var ds := whole + fraction;
    assert ds[0] == whole[0];
    if whole[0] != 0 || fraction == [] {
      DigitsOfValue(ds);
    } else {
      assert whole == [0];
      ValueOfConcat(whole, fraction);
      assert whole[..0] == [];
      ValueIsBounded(fraction);
      DigitsAreFew(Value(ds), |fraction|);
      PaddedOfValue(ds);
    }
  }

  lemma TextOfNumber(t: Text)
    requires Proper(t) && (t.negative ==> NumberOf(t).num != 0)
    ensures TextOf(NumberOf(t).num, NumberOf(t).places) == t
  {
    var ds := t.whole + t.fraction;
    CoefficientOf(t.whole, t.fraction);
    assert Magnitude(NumberOf(t).num) == Value(ds);
    assert ds[..|ds| - |t.fraction|] == t.whole && ds[|ds| - |t.fraction|..] == t.fraction;
  }

  /** A text already at the scale is left alone, unless it is a negative zero. */
  lemma CanonicalKeepsScaled(s: string, scale: nat)
    requires Parse(s).Some? && Parse(s).value.places == scale
    requires Read(s).value.negative ==> Parse(s).value.num != 0
    ensures Canonical(s, scale) == Ok(s)
  {
    var t := Read(s).value;
    ReadIsExact(s, t);
    TextOfNumber(t);
    CanonicalOfParsed(s, NumberOf(t).num, scale);
  }

  // ---------------------------------------------------------------- arithmetic of texts

  predicate AtMost(x: Decimal, y: Decimal) {
    x.num * Pow10(y.places) <= y.num * Pow10(x.places)
  }

  lemma {:induction false} Pow10Add(m: nat, n: nat)
    ensures Pow10(m + n) == Pow10(m) * Pow10(n)
  {
    if n > 0 {
      Pow10Add(m, n - 1);
      assert Pow10(m + n) == 10 * Pow10(m + (n - 1));
    }
  }

  /** Rounding at a common finer scale is the same rounding. */
  lemma RoundScaled(d: Decimal, scale: nat, k: nat)
    ensures RoundTo(Decimal(d.num * Pow10(k), d.places + k), scale) == RoundTo(d, scale)
  {
    var e := Decimal(d.num * Pow10(k), d.places + k);
    if e.places <= scale {
      Pow10Add(k, scale - e.places);
      assert Pow10(scale - d.places) == Pow10(k + (scale - e.places));
      MulAssoc(d.num, Pow10(k), Pow10(scale - e.places));
    } else if d.places <= scale {
      var j := e.places - scale;
      Pow10Add(scale - d.places, j);
      assert k == (scale - d.places) + j;
      var q := d.num * Pow10(scale - d.places);
      MulAssoc(d.num, Pow10(scale - d.places), Pow10(j));
      assert e.num == q * Pow10(j);
      NearestIsHalfEven(e.num, Pow10(j), q);
    } else {
      var c := Pow10(d.places - scale);
      Pow10Add(d.places - scale, k);
      var q := HalfEven(d.num, c);
      HalfEvenIsNearest(d.num, c);
      ScaledNearest(d.num, c, q, Pow10(k));
      NearestIsHalfEven(e.num, c * Pow10(k), q);
      assert Pow10(e.places - scale) == c * Pow10(k);
    }
  }

  lemma MulAssoc(x: int, y: int, z: int)
    ensures x * y * z == x * (y * z)
  {}

  lemma MulCancel(x: int, y: int, f: int)
    requires f > 0 && x * f == y * f
    ensures x == y
  {
    assert (x + 1) * f == x * f + f && (y + 1) * f == y * f + f;
    MulReflects(x, y + 1, f);
    MulReflects(y, x + 1, f);
  }

  lemma ScaledError(n: int, d: int, q: int, f: int)
    ensures 2 * (n * f - q * (d * f)) == 2 * (n - q * d) * f
  {
    MulAssoc(q, d, f);
    assert (n - q * d) * f == n * f - q * d * f;
  }

  lemma ScaledNearest(n: int, d: int, q: int, f: int)
    requires d > 0 && f > 0 && -d <= 2 * (n - q * d) <= d
    requires 2 * (n - q * d) == d || 2 * (n - q * d) == -d ==> q % 2 == 0
    ensures -(d * f) <= 2 * (n * f - q * (d * f)) <= d * f
    ensures 2 * (n * f - q * (d * f)) == d * f || 2 * (n * f - q * (d * f)) == -(d * f) ==> q % 2 == 0
  {
    var e, x := 2 * (n - q * d), 2 * (n * f - q * (d * f));
    ScaledError(n, d, q, f);
    assert x == e * f;
    assert (-d) * f == -(d * f);
    MulMonotone(e, d, f);
    MulMonotone(-d, e, f);
    if x == d * f {
      MulCancel(e, d, f);
    } else if x == -(d * f) {
      MulCancel(e, -d, f);
    }
  }

  /** Rounding is monotone in the value, however many places the texts carry. */
  lemma RoundIsMonotone(x: Decimal, y: Decimal, scale: nat)
    requires AtMost(x, y)
    ensures RoundTo(x, scale) <= RoundTo(y, scale)
  {
    var places := x.places + y.places;
    RoundScaled(x, scale, y.places);
    RoundScaled(y, scale, x.places);
    assert y.places + x.places == places;
    var m, n := x.num * Pow10(y.places), y.num * Pow10(x.places);
    assert RoundTo(x, scale) == RoundTo(Decimal(m, places), scale);
    assert RoundTo(y, scale) == RoundTo(Decimal(n, places), scale);
    if places <= scale {
      MulMonotone(m, n, Pow10(scale - places));
    } else {
      HalfEvenMonotone(m, n, Pow10(places - scale));
    }
  }

  /** The rounded value differs from the parsed one by at most half a unit of the scale, and is even at the half. */
  lemma RoundIsNearest(d: Decimal, scale: nat)
    ensures var twice := 2 * (d.num * Pow10(scale) - RoundTo(d, scale) * Pow10(d.places));
            var unit: int := Pow10(d.places);
            && -unit <= twice <= unit
            && (twice == unit || twice == -unit ==> RoundTo(d, scale) % 2 == 0)
  {
    var q := RoundTo(d, scale);
    if d.places <= scale {
      Pow10Add(scale - d.places, d.places);
      MulAssoc(d.num, Pow10(scale - d.places), Pow10(d.places));
    } else {
      var c := Pow10(d.places - scale);
      Pow10Add(d.places - scale, scale);
      HalfEvenIsNearest(d.num, c);
      ScaledNearest(d.num, c, q, Pow10(scale));
    }
  }
}
