/** Exact decimal money: the arithmetic of the services, the text in which amounts travel
    between them, and the conversion to the gateway's kobo. */
module Money {
  import opened Domain

  /** coef / 10^places */
  datatype Decimal = Decimal(coef: int, places: nat)

  const ZERO := Decimal(0, 0)

  function Pow10(n: nat): (p: nat)
    ensures p > 0
  {
    if n == 0 then 1 else 10 * Pow10(n - 1)
  }

  /** `d` counted in units of 10^-p. */
  function Units(d: Decimal, p: nat): int
    requires d.places <= p
  {
    d.coef * Pow10(p - d.places)
  }

  function Max(a: nat, b: nat): nat {
    if a < b then b else a
  }

  /** Equality by value, as the services compare prices: 14.9 equals 14.90. */
  predicate SameValue(a: Decimal, b: Decimal) {
    Units(a, Max(a.places, b.places)) == Units(b, Max(a.places, b.places))
  }

  function Plus(a: Decimal, b: Decimal): Decimal {
    var p := Max(a.places, b.places);
    Decimal(Units(a, p) + Units(b, p), p)
  }

  function Times(a: Decimal, n: nat): Decimal {
    Decimal(a.coef * n, a.places)
  }

  lemma {:induction false} Pow10Sum(a: nat, b: nat)
    ensures Pow10(a + b) == Pow10(a) * Pow10(b)
  {
    if a > 0 {
      Pow10Sum(a - 1, b);
    }
  }

  /** Counting in finer units scales the count. */
  lemma UnitsRefine(d: Decimal, p: nat, q: nat)
    requires d.places <= p <= q
    ensures Units(d, q) == Units(d, p) * Pow10(q - p)
  {
    Pow10Sum(p - d.places, q - p);
    assert q - d.places == (p - d.places) + (q - p);
  }

  lemma UnitsPlus(a: Decimal, b: Decimal, p: nat)
    requires a.places <= p && b.places <= p
    ensures Units(Plus(a, b), p) == Units(a, p) + Units(b, p)
  {
    var m := Max(a.places, b.places);
    UnitsRefine(a, m, p);
    UnitsRefine(b, m, p);
  }

  lemma UnitsTimes(a: Decimal, n: nat, p: nat)
    requires a.places <= p
    ensures Units(Times(a, n), p) == Units(a, p) * n
  {
    var k := Pow10(p - a.places);
    assert a.coef * n * k == a.coef * k * n;
  }

  lemma Cancel(x: int, y: int, n: nat)
    requires n > 0
    ensures x * n == y * n <==> x == y
  {
    if x != y {
      assert (x - y) * n != 0;
    }
  }

  lemma Reorder(c: int, x: nat, n: nat, y: nat)
    requires x * n == y
    ensures c * x * n == c * y
  {
  }

  /** Two amounts compare equal exactly when they are the same rational number. */
  lemma SameValueExact(a: Decimal, b: Decimal)
    ensures SameValue(a, b) <==> a.coef * Pow10(b.places) == b.coef * Pow10(a.places)
  {
    var m := Max(a.places, b.places);
    var n := a.places + b.places - m;
    Pow10Sum(m - a.places, n);
    Pow10Sum(m - b.places, n);
    Cancel(Units(a, m), Units(b, m), Pow10(n));
    Reorder(a.coef, Pow10(m - a.places), Pow10(n), Pow10(b.places));
    Reorder(b.coef, Pow10(m - b.places), Pow10(n), Pow10(a.places));
  }

  // ---- Kobo ----

  /** Division rounding toward zero. */
  function Truncate(n: int, d: nat): int
    requires d > 0
  {
    if n >= 0 then n / d else -((-n) / d)
  }

  /** The integer amount in kobo for an amount in naira: int(amount * 100). */
  function Kobo(amount: Decimal): int {
    Truncate(amount.coef * 100, Pow10(amount.places))
  }

  /** Kobo never exceeds the amount in size and is less than one kobo short. */
  lemma KoboBounds(amount: Decimal)
    ensures var p, k := Pow10(amount.places), Kobo(amount);
            if amount.coef >= 0 then k * p <= 100 * amount.coef < (k + 1) * p
            else (k - 1) * p < 100 * amount.coef <= k * p
  {
    var p := Pow10(amount.places);
    var n := 100 * amount.coef;
    if n >= 0 {
      assert n == n / p * p + n % p;
    } else {
      assert -n == (-n) / p * p + (-n) % p;
    }
  }

  /** The conversion is exact precisely when the amount is a whole number of kobo. */
  lemma KoboExactIff(amount: Decimal)
    ensures Kobo(amount) * Pow10(amount.places) == 100 * amount.coef
            <==> (100 * amount.coef) % Pow10(amount.places) == 0
  {
    var p := Pow10(amount.places);
    var n := 100 * amount.coef;
    if n >= 0 {
      assert n == n / p * p + n % p;
    } else {
      assert -n == (-n) / p * p + (-n) % p;
      assert n == n / p * p + n % p;
      NegatedRemainder(n, p);
    }
  }

  lemma NegatedRemainder(n: int, p: nat)
    requires p > 0
    ensures n % p == 0 <==> (-n) % p == 0
  {
    if n % p == 0 {
      MultipleRemainder(-(n / p), p);
      assert -n == -(n / p) * p;
    }
    if (-n) % p == 0 {
      MultipleRemainder(-((-n) / p), p);
      assert n == -((-n) / p) * p;
    }
  }

  lemma MultipleRemainder(k: int, p: nat)
    requires p > 0
    ensures k * p % p == 0
  {
    var r := k * p % p;
    var q := k * p / p;
    assert k * p == q * p + r;
    assert (k - q) * p == r;
    assert k - q >= 1 ==> (k - q) * p >= p;
    assert k - q <= -1 ==> (k - q) * p + p <= 0;
  }

  predicate WholeKobo(d: Decimal) {
    (100 * d.coef) % Pow10(d.places) == 0
  }

  /** `d` is worth exactly `k` kobo. */
  predicate InKobo(d: Decimal, k: int) {
    d.coef * 100 == k * Pow10(d.places)
  }

  lemma KoboIsExact(d: Decimal)
    requires WholeKobo(d)
    ensures InKobo(d, Kobo(d))
  {
    KoboExactIff(d);
  }

  lemma InKoboIsWhole(d: Decimal, k: int)
    requires InKobo(d, k)
    ensures WholeKobo(d)
  {
    MultipleRemainder(k, Pow10(d.places));
  }

  lemma DivideMultiple(k: int, p: nat)
    requires p > 0
    ensures k * p / p == k
  {
    MultipleRemainder(k, p);
    Cancel(k * p / p, k, p);
  }

  lemma KoboOfExact(d: Decimal, k: int)
    requires InKobo(d, k)
    ensures Kobo(d) == k
  {
    var p := Pow10(d.places);
    DivideMultiple(k, p);
    DivideMultiple(-k, p);
    assert -(k * p) == -k * p;
  }

  lemma Scale(c: int, k: int, x: int, y: int, z: int)
    requires c * 100 == k * y && z == y * x
    ensures c * x * 100 == k * z
  {
    calc {
      c * x * 100;
      c * 100 * x;
      k * y * x;
      k * (y * x);
    }
  }

  lemma UnitsInKobo(a: Decimal, k: int, p: nat)
    requires InKobo(a, k) && a.places <= p
    ensures Units(a, p) * 100 == k * Pow10(p)
  {
    Pow10Sum(a.places, p - a.places);
    assert a.places + (p - a.places) == p;
    Scale(a.coef, k, Pow10(p - a.places), Pow10(a.places), Pow10(p));
  }

  lemma KoboPlus(a: Decimal, ka: int, b: Decimal, kb: int)
    requires InKobo(a, ka) && InKobo(b, kb)
    ensures InKobo(Plus(a, b), ka + kb)
  {
    var p := Max(a.places, b.places);
    UnitsInKobo(a, ka, p);
    UnitsInKobo(b, kb, p);
  }

  lemma KoboTimes(a: Decimal, k: int, n: nat)
    requires InKobo(a, k)
    ensures InKobo(Times(a, n), k * n)
  {
    assert a.coef * n * 100 == a.coef * 100 * n;
    assert k * n * Pow10(a.places) == k * Pow10(a.places) * n;
  }

  /** A price as its two-place column holds it. */
  function Stored(price: Decimal): Decimal {
    Decimal(Kobo(price), 2)
  }

  /** A column of two places keeps the value of a price exactly when it is whole in kobo. */
  lemma StoredExact(price: Decimal)
    ensures SameValue(Stored(price), price) <==> WholeKobo(price)
  {
    SameValueExact(Stored(price), price);
    KoboExactIff(price);
    assert Pow10(0) == 1 && Pow10(1) == 10 && Pow10(2) == 100;
  }

  // ---- Amounts as text ----

  function Digit(d: nat): char
    requires d < 10
  {
    "0123456789"[d]
  }

  predicate IsDigit(c: char) {
    '0' <= c <= '9'
  }

  function DigitValue(c: char): nat
    requires IsDigit(c)
  {
    c as int - '0' as int
  }

  predicate AllDigits(s: string) {
    forall i :: 0 <= i < |s| ==> IsDigit(s[i])
  }

  function NatText(n: nat): string {
    if n < 10 then [Digit(n)] else NatText(n / 10) + [Digit(n % 10)]
  }

  function Value(s: string): nat
    requires AllDigits(s)
  {
    if s == [] then 0 else Value(s[..|s| - 1]) * 10 + DigitValue(s[|s| - 1])
  }

  function PadTo(s: string, width: nat): string
    decreases width - |s|
  {
    if |s| >= width then s else PadTo("0" + s, width)
  }

  /** The digits of `d` without sign and point, at least one of them before the point. */
  function Digits(d: Decimal): string {
    PadTo(NatText(Size(d)), d.places + 1)
  }

  function Size(d: Decimal): nat {
    if d.coef < 0 then -d.coef else d.coef
  }

  function Join(whole: string, frac: string): string {
    if frac == [] then whole else whole + "." + frac
  }

  /** Plain notation, e.g. "0.05" for 5 with two places. */
  function Render(d: Decimal): string {
    PadLongEnough(NatText(Size(d)), d.places + 1);
    var point := |Digits(d)| - d.places;
    var body := Join(Digits(d)[..point], Digits(d)[point..]);
    if d.coef < 0 then "-" + body else body
  }

  /** The position of the decimal point, or the length. */
  function Point(s: string): (i: nat)
    ensures i <= |s|
  {
    if s == [] || s[0] == '.' then 0 else 1 + Point(s[1..])
  }

  function ParseUnsigned(s: string): Option<Decimal> {
    var i := Point(s);
    if i == 0 || !AllDigits(s[..i]) then None
    else if i == |s| then Some(Decimal(Value(s), 0))
    else if i + 1 == |s| || !AllDigits(s[i + 1..]) then None
    else
      DigitsConcat(s[..i], s[i + 1..]);
      Some(Decimal(Value(s[..i] + s[i + 1..]), |s| - i - 1))
  }

  function Parse(s: string): Option<Decimal> {
    if s != [] && s[0] == '-' then
      var d := ParseUnsigned(s[1..]);
      if d.Some? then Some(Decimal(-d.value.coef, d.value.places)) else None
    else ParseUnsigned(s)
  }

  lemma DigitsConcat(a: string, b: string)
    requires AllDigits(a) && AllDigits(b)
    ensures AllDigits(a + b)
  {
  }

  lemma {:induction false} PadLongEnough(s: string, width: nat)
    ensures |PadTo(s, width)| >= width
    ensures |PadTo(s, width)| >= |s|
    decreases width - |s|
  {
    if |s| < width {
      PadLongEnough("0" + s, width);
    }
  }

  lemma {:induction false} NatTextValue(n: nat)
    ensures NatText(n) != [] && AllDigits(NatText(n)) && Value(NatText(n)) == n
  {
    if n >= 10 {
      NatTextValue(n / 10);
      assert NatText(n)[..|NatText(n)| - 1] == NatText(n / 10);
    } else {
      assert NatText(n)[..0] == [];
    }
  }

  lemma {:induction false} ZeroInFront(s: string)
    requires AllDigits(s)
    ensures AllDigits("0" + s) && Value("0" + s) == Value(s)
  {
    if s != [] {
      var n := |s| - 1;
      assert AllDigits("0" + s);
      assert ("0" + s)[..n + 1] == "0" + s[..n];
      ZeroInFront(s[..n]);
    } else {
      assert "0" + s == "0" && "0"[..0] == [];
    }
  }

  lemma {:induction false} PadValue(s: string, width: nat)
    requires AllDigits(s)
    ensures AllDigits(PadTo(s, width)) && Value(PadTo(s, width)) == Value(s)
    decreases width - |s|
  {
    if |s| < width {
      ZeroInFront(s);
      PadValue("0" + s, width);
    }
  }

  lemma {:induction false} PointAfterDigits(a: string, b: string)
    requires AllDigits(a) && (b == [] || b[0] == '.')
    ensures Point(a + b) == |a|
  {
    if a != [] {
      assert (a + b)[1..] == a[1..] + b;
      PointAfterDigits(a[1..], b);
    } else {
      assert a + b == b;
    }
  }

  lemma ParseParts(whole: string, frac: string)
    requires whole != [] && AllDigits(whole) && AllDigits(frac)
    ensures AllDigits(whole + frac)
    ensures ParseUnsigned(Join(whole, frac)) == Some(Decimal(Value(whole + frac), |frac|))
  {
    DigitsConcat(whole, frac);
    if frac == [] {
      assert whole + frac == whole && whole + [] == whole && whole[..|whole|] == whole;
      PointAfterDigits(whole, []);
    } else {
      var body := whole + "." + frac;
      assert body == whole + ("." + frac);
      PointAfterDigits(whole, "." + frac);
      assert body[..|whole|] == whole && body[|whole| + 1..] == frac;
    }
  }

  lemma ParseSigned(body: string)
    requires body != [] && IsDigit(body[0])
    ensures Parse(body) == ParseUnsigned(body)
    ensures Parse("-" + body) == var d := ParseUnsigned(body);
                                 if d.Some? then Some(Decimal(-d.value.coef, d.value.places)) else None
  {
    assert ("-" + body)[1..] == body;
  }

  lemma DigitsSplit(digits: string, point: nat)
    requires 0 < point <= |digits| && AllDigits(digits)
    ensures digits[..point] != [] && AllDigits(digits[..point]) && AllDigits(digits[point..])
    ensures digits[..point] + digits[point..] == digits
  {
    assert forall i :: 0 <= i < |digits| - point ==> digits[point..][i] == digits[point + i];
  }

  lemma JoinStarts(whole: string, frac: string)
    requires whole != [] && AllDigits(whole)
    ensures Join(whole, frac) != [] && IsDigit(Join(whole, frac)[0])
  {
    assert Join(whole, frac)[0] == whole[0];
  }

  lemma SignedParse(d: Decimal, body: string)
    requires body != [] && IsDigit(body[0]) && ParseUnsigned(body) == Some(Decimal(Size(d), d.places))
    ensures Parse(if d.coef < 0 then "-" + body else body) == Some(d)
  {
    ParseSigned(body);
  }

  lemma PartsParse(d: Decimal, whole: string, frac: string)
    requires whole != [] && AllDigits(whole) && AllDigits(frac) && AllDigits(whole + frac)
    requires Value(whole + frac) == Size(d) && |frac| == d.places
    ensures var body := Join(whole, frac);
            Parse(if d.coef < 0 then "-" + body else body) == Some(d)
  {
    ParseParts(whole, frac);
    JoinStarts(whole, frac);
    SignedParse(d, Join(whole, frac));
  }

  /** What one service writes the other reads: value and places survive the wire. */
  lemma RoundTrip(d: Decimal)
    ensures Parse(Render(d)) == Some(d)
  {
    NatTextValue(Size(d));
    PadLongEnough(NatText(Size(d)), d.places + 1);
    PadValue(NatText(Size(d)), d.places + 1);
    var digits := Digits(d);
    var point := |digits| - d.places;
    DigitsSplit(digits, point);
    PartsParse(d, digits[..point], digits[point..]);
  }

  // ---- Which texts are amounts ----

  predicate IsNumeral(s: string) {
    s != "" && forall i :: 0 <= i < |s| ==> '0' <= s[i] <= '9'
  }

  /** `s` is written with whole part `whole` and, after a point, `frac`; no point if `frac` is empty. */
  predicate Written(s: string, whole: string, frac: string) {
    IsNumeral(whole) && (if frac == "" then s == whole else IsNumeral(frac) && s == whole + "." + frac)
  }

  lemma {:induction false} PointIsPoint(s: string)
    ensures Point(s) < |s| ==> s[Point(s)] == '.'
  {
    if s != [] && s[0] != '.' {
      PointIsPoint(s[1..]);
    }
  }

  lemma UnsignedExact(s: string)
    ensures ParseUnsigned(s).Some? <==> exists whole, frac :: Written(s, whole, frac)
  {
    var i := Point(s);
    PointIsPoint(s);
    if ParseUnsigned(s).Some? {
      if i == |s| {
        assert s[..i] == s;
        assert Written(s, s, "");
      } else {
        assert s == s[..i] + "." + s[i + 1..];
        DigitsTail(s, i);
        assert Written(s, s[..i], s[i + 1..]);
      }
    }
    if whole, frac :| Written(s, whole, frac) {
      ParseParts(whole, frac);
    }
  }

  lemma DigitsTail(s: string, i: nat)
    requires 0 < i < |s| - 1 && AllDigits(s[..i]) && AllDigits(s[i + 1..])
    ensures IsNumeral(s[..i]) && IsNumeral(s[i + 1..])
  {
    NumeralDigits(s[..i]);
    NumeralDigits(s[i + 1..]);
  }

  lemma NumeralDigits(s: string)
    ensures IsNumeral(s) <==> s != "" && AllDigits(s)
  {
    assert forall i :: 0 <= i < |s| ==> (IsDigit(s[i]) <==> '0' <= s[i] <= '9');
  }

  lemma WrittenStarts(s: string, whole: string, frac: string)
    requires Written(s, whole, frac)
    ensures s == Join(whole, frac) && s != "" && IsDigit(s[0])
  {
    assert s[0] == whole[0];
  }

  /** A text is read as an amount exactly when it is a plain decimal, with a sign or without. */
  lemma ParseExact(s: string)
    ensures Parse(s).Some? <==>
              || (exists whole, frac :: Written(s, whole, frac))
              || (s != "" && s[0] == '-' && exists whole, frac :: Written(s[1..], whole, frac))
  {
    UnsignedExact(s);
    if s != "" && s[0] == '-' {
      UnsignedExact(s[1..]);
      if whole, frac :| Written(s, whole, frac) {
        WrittenStarts(s, whole, frac);
      }
    }
  }

  lemma UnsignedMeans(s: string, whole: string, frac: string)
    requires Written(s, whole, frac)
    ensures AllDigits(whole + frac) && ParseUnsigned(s) == Some(Decimal(Value(whole + frac), |frac|))
  {
    NumeralDigits(whole);
    NumeralDigits(frac);
    ParseParts(whole, frac);
    WrittenStarts(s, whole, frac);
  }

  lemma SignedMeans(body: string, d: Decimal)
    requires body != [] && IsDigit(body[0]) && ParseUnsigned(body) == Some(d)
    ensures Parse(body) == Some(d) && Parse("-" + body) == Some(Decimal(-d.coef, d.places))
  {
    ParseSigned(body);
  }

  /** And it is read as its digits divided by a power of ten for the places. */
  lemma ParseMeans(s: string, whole: string, frac: string) returns (d: Decimal)
    requires Written(s, whole, frac)
    ensures AllDigits(whole + frac) && d == Decimal(Value(whole + frac), |frac|)
    ensures Parse(s) == Some(d) && Parse("-" + s) == Some(Decimal(-d.coef, d.places))
  {
    UnsignedMeans(s, whole, frac);
    WrittenStarts(s, whole, frac);
    d := Decimal(Value(whole + frac), |frac|);
    SignedMeans(s, d);
  }

  /** The digits are the decimal ones, most significant first. */
  lemma DigitsMean(s: string, c: char)
    requires AllDigits(s) && '0' <= c <= '9'
    ensures AllDigits(s + [c]) && Value(s + [c]) == 10 * Value(s) + (c as int - 48)
    ensures Value("") == 0
  {
    assert (s + [c])[..|s|] == s;
  }
}
