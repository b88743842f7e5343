/** Decimal kilograms as they cross the wire: every printer and parser of the platform, on strings.
    Go works in int64 hundredths ("cents"), Python in exact decimals (reals here), the browser in
    whole hundredths. */
module Decimals {
  import opened Wrappers

  const MAX_INT64: int := 0x7FFF_FFFF_FFFF_FFFF
  const MIN_INT64: int := -0x8000_0000_0000_0000

  predicate IsInt64(n: int) { MIN_INT64 <= n <= MAX_INT64 }

  // Two's-complement result of an int64 operation.
  function Wrap64(n: int): (w: int)
    ensures IsInt64(w) && (w - n) % 0x1_0000_0000_0000_0000 == 0
  {
    if IsInt64(n) then n
    else (n + 0x8000_0000_0000_0000) % 0x1_0000_0000_0000_0000 - 0x8000_0000_0000_0000
  }

  // n / 10 and n / 100, by subtraction: the solver then meets a division only where a proof calls
  // DivisionByTen or DivisionByHundred.
  function Tens(n: nat): nat { if n < 10 then 0 else 1 + Tens(n - 10) }

  function Hundreds(n: nat): nat { if n < 100 then 0 else 1 + Hundreds(n - 100) }

  lemma {:induction false} DivisionByTen(n: nat)
    ensures Tens(n) == n / 10 && 0 <= n - 10 * Tens(n) < 10 && (n >= 10 ==> 0 < Tens(n) < n)
  {
    if n >= 10 { DivisionByTen(n - 10); }
  }

  lemma {:induction false} DivisionByHundred(n: nat)
    ensures Hundreds(n) == n / 100 && 0 <= n - 100 * Hundreds(n) < 100
  {
    if n >= 100 { DivisionByHundred(n - 100); }
  }

  // n / 100 and n % 100 in Go and JavaScript truncate toward zero.
  function Quotient(n: int): int { if n >= 0 then Hundreds(n) else -(Hundreds(-n) as int) }

  function Remainder(n: int): int { n - 100 * Quotient(n) }

  // ---------------------------------------------------------------- digits

  predicate IsDigit(c: char) { '0' <= c <= '9' }

  predicate AllDigits(s: string) { forall i :: 0 <= i < |s| ==> IsDigit(s[i]) }

  function DigitOf(c: char): nat
    requires IsDigit(c)
  {
    c as int - '0' as int
  }

  function CharOf(d: nat): (c: char)
    requires d < 10
    ensures IsDigit(c) && DigitOf(c) == d
  {
    ('0' as int + d) as char
  }

  function DigitsValue(s: string): nat
    requires AllDigits(s)
  {
    if s == "" then 0 else 10 * DigitsValue(s[..|s| - 1]) + DigitOf(s[|s| - 1])
  }

  // Shortest decimal numeral of a natural number.
  function Numeral(n: nat): (s: string)
    ensures AllDigits(s) && s != ""
  {
    DivisionByTen(n);
    if n < 10 then [CharOf(n)] else Numeral(Tens(n)) + [CharOf(n - 10 * Tens(n))]
  }

  // No leading zero, except "0" itself: (0|[1-9][0-9]*).
  predicate CanonicalWhole(s: string) {
    AllDigits(s) && s != "" && (s[0] != '0' || |s| == 1)
  }

  lemma {:induction false} NumeralValue(n: nat)
    ensures DigitsValue(Numeral(n)) == n && CanonicalWhole(Numeral(n))
    ensures n > 0 ==> Numeral(n)[0] != '0'
  {
    DivisionByTen(n);
    if n >= 10 {
      NumeralValue(Tens(n));
      var p := Numeral(Tens(n));
      assert Numeral(n)[..|p|] == p;
      assert Numeral(n)[0] == p[0];
    }
  }

  lemma {:induction false} ValueNumeral(s: string)
    requires CanonicalWhole(s)
    ensures Numeral(DigitsValue(s)) == s
    ensures s[0] != '0' ==> DigitsValue(s) > 0
  {
    var init := s[..|s| - 1];
    if |s| == 1 {
      assert init == "";
      assert s == [s[0]];
    } else {
      assert init[0] == s[0];
      ValueNumeral(init);
      assert s == init + [s[|s| - 1]];
      var d := DigitOf(s[|s| - 1]);
      DivisionByTen(DigitsValue(s));
      assert Tens(DigitsValue(s)) == DigitsValue(init);
    }
  }

  // Appending digits shifts the value.
  lemma DigitsAppend(a: string, b: string)
    requires AllDigits(a) && AllDigits(b) && |b| <= 2
    ensures |b| == 0 ==> DigitsValue(a + b) == DigitsValue(a)
    ensures |b| == 1 ==> DigitsValue(a + b) == 10 * DigitsValue(a) + DigitOf(b[0])
    ensures |b| == 2 ==> DigitsValue(a + b) == 100 * DigitsValue(a) + 10 * DigitOf(b[0]) + DigitOf(b[1])
  {
    if |b| == 0 {
      assert a + b == a;
    } else if |b| == 1 {
      assert (a + b)[..|a|] == a;
    } else {
      var ab := a + b;
      assert ab[..|a| + 1] == a + [b[0]];
      assert (a + [b[0]])[..|a|] == a;
      assert ab[|ab| - 1] == b[1];
    }
  }

  // The number of digits is a bound on the value, and back.
  lemma {:induction false} WidthBound(s: string, width: nat)
    requires CanonicalWhole(s)
    ensures |s| <= width <==> width > 0 && DigitsValue(s) < Pow10(width)
  {
    var init := s[..|s| - 1];
    if width == 0 {
    } else if |s| == 1 {
      assert init == "";
      PowGrows(1, width);
      assert Pow10(1) == 10 * Pow10(0);
    } else {
      assert init[0] == s[0];
      WidthBound(init, width - 1);
      ValueNumeral(init);
      assert Pow10(0) == 1;
    }
  }

  function Pow10(n: nat): nat { if n == 0 then 1 else 10 * Pow10(n - 1) }

  lemma PowGrows(a: nat, b: nat)
    requires a <= b
    ensures Pow10(a) <= Pow10(b)
    decreases b
  {
    if a < b { PowGrows(a, b - 1); }
  }

  // ---------------------------------------------------------------- fmt verbs

  // Go "%d".
  function FormatInt(n: int): string { if n < 0 then "-" + Numeral(-n) else Numeral(n) }

  // Go "%02d": the sign counts toward the width.
  function FormatInt02(n: int): string {
    if 0 <= n < 10 then "0" + FormatInt(n) else FormatInt(n)
  }

  // strconv.ParseInt(s, 10, 64): one optional sign, at least one digit, in range.
  function ParseInt(s: string): (r: Option<int>)
    ensures r.Some? ==> IsInt64(r.value)
  {
    var signed := s != "" && (s[0] == '-' || s[0] == '+');
    var digits := if signed then s[1..] else s;
    if digits == "" || !AllDigits(digits) then None
    else
      var n: int := if signed && s[0] == '-' then -(DigitsValue(digits) as int) else DigitsValue(digits);
      if IsInt64(n) then Some(n) else None
  }

  lemma ParseDigits(s: string)
    requires AllDigits(s) && s != ""
    ensures ParseInt(s) == if DigitsValue(s) <= MAX_INT64 then Some(DigitsValue(s)) else None
  {
    assert IsDigit(s[0]);
  }

  lemma ParseNegated(s: string)
    requires AllDigits(s) && s != "" && IsInt64(-(DigitsValue(s) as int))
    ensures ParseInt("-" + s) == Some(-(DigitsValue(s) as int))
  {
    assert ("-" + s)[1..] == s;
  }

  lemma ParseFormatInt(n: int)
    requires IsInt64(n)
    ensures ParseInt(FormatInt(n)) == Some(n)
  {
    if n < 0 {
      NumeralValue(-n);
      ParseNegated(Numeral(-n));
    } else {
      NumeralValue(n);
      ParseDigits(Numeral(n));
    }
  }

  // ---------------------------------------------------------------- shape

  function IndexOf(s: string, c: char): (i: nat)
    ensures i <= |s|
    ensures forall k :: 0 <= k < i ==> s[k] != c
    ensures i < |s| ==> s[i] == c
  {
    if s == "" || s[0] == c then 0 else 1 + IndexOf(s[1..], c)
  }

  // The parts of strings.SplitN(s, ".", 2).
  function Whole(s: string): string { s[..IndexOf(s, '.')] }

  function Fraction(s: string): Option<string> {
    var dot := IndexOf(s, '.');
    if dot < |s| then Some(s[dot + 1..]) else None
  }

  lemma IndexOfUnique(s: string, c: char, i: nat)
    requires i <= |s|
    requires forall k :: 0 <= k < i ==> s[k] != c
    requires i < |s| ==> s[i] == c
    ensures IndexOf(s, c) == i
  {
  }

  lemma SplitJoin(w: string, f: string)
    requires '.' !in w
    ensures Whole(w + "." + f) == w && Fraction(w + "." + f) == Some(f)
    ensures Whole(w) == w && Fraction(w) == None
  {
    var s := w + "." + f;
    forall k | 0 <= k < |w| ensures s[k] != '.' { assert s[k] == w[k]; }
    IndexOfUnique(s, '.', |w|);
    assert s[..|w|] == w && s[|w| + 1..] == f;
    IndexOfUnique(w, '.', |w|);
    assert w[..|w|] == w;
  }

  // ^(?:0|[1-9][0-9]*)(?:\.[0-9]{1,2})?$ : treatment, receipt, analytics and Python weights.
  predicate IsAmount(s: string) {
    CanonicalWhole(Whole(s)) &&
    match Fraction(s)
    case None => true
    case Some(f) => AllDigits(f) && 1 <= |f| <= 2
  }

  // ^(0|[1-9][0-9]*)\.[0-9]{2}$ : the matching contract's money.
  predicate IsMoney(s: string) { IsAmount(s) && Fraction(s).Some? && |Fraction(s).value| == 2 }

  // Padded fraction digits as hundredths.
  function Hundredths(f: Option<string>): (h: nat)
    requires f.Some? ==> AllDigits(f.value) && 1 <= |f.value| <= 2
    ensures h < 100
  {
    match f
    case None => 0
    case Some(d) =>
      if |d| == 1 then 10 * DigitOf(d[0]) else 10 * DigitOf(d[0]) + DigitOf(d[1])
  }

  // The number a well-shaped amount denotes, in hundredths: the reference every parser is held to.
  function Amount(s: string): nat
    requires IsAmount(s)
  {
    100 * DigitsValue(Whole(s)) + Hundredths(Fraction(s))
  }

  // Canonical two-decimal print of a number of hundredths.
  function Money(c: nat): string { Numeral(Hundreds(c)) + "." + FormatInt02(c - 100 * Hundreds(c)) }

  lemma TwoDigits(h: nat)
    requires h < 100
    ensures var f := FormatInt02(h); |f| == 2 && AllDigits(f) && Hundredths(Some(f)) == h
    ensures DigitsValue(FormatInt02(h)) == h
  {
    var f := FormatInt02(h);
    DivisionByTen(h);
    if h < 10 {
      assert f == "0" + [CharOf(h)];
    } else {
      assert Numeral(Tens(h)) == [CharOf(Tens(h))];
      assert f == [CharOf(Tens(h)), CharOf(h - 10 * Tens(h))];
    }
    DigitsAppend("", f);
    assert "" + f == f;
  }

  lemma MoneyShape(c: nat)
    ensures IsMoney(Money(c)) && Amount(Money(c)) == c
    ensures Whole(Money(c)) == Numeral(c / 100) && |Money(c)| == |Numeral(c / 100)| + 3
  {
    DivisionByHundred(c);
    NumeralValue(Hundreds(c));
    TwoDigits(c - 100 * Hundreds(c));
    SplitJoin(Numeral(Hundreds(c)), FormatInt02(c - 100 * Hundreds(c)));
  }

  lemma TwoDigitsUnique(f: string)
    requires AllDigits(f) && |f| == 2
    ensures f == FormatInt02(Hundredths(Some(f)))
  {
    var h := Hundredths(Some(f));
    DivisionByTen(h);
    if h < 10 {
      assert f == "0" + [CharOf(h)];
    } else {
      assert Numeral(Tens(h)) == [CharOf(Tens(h))];
      assert f == [CharOf(Tens(h)), CharOf(h - 10 * Tens(h))];
    }
  }

  // Two canonical prints of the same number are the same string.
  lemma MoneyUnique(s: string)
    requires IsMoney(s)
    ensures s == Money(Amount(s))
  {
    var w, f := Whole(s), Fraction(s).value;
    assert s == w + "." + f;
    ValueNumeral(w);
    TwoDigitsUnique(f);
    DivisionByHundred(Amount(s));
    assert Hundreds(Amount(s)) == DigitsValue(w);
  }

  // ---------------------------------------------------------------- whitespace

  // strings.TrimSpace (unicode.IsSpace).
  predicate GoSpace(c: char) {
    var n := c as int;
    (9 <= n <= 13) || n == 32 || n == 0x85 || n == 0xA0 || n == 0x1680 || (0x2000 <= n <= 0x200A) ||
    n == 0x2028 || n == 0x2029 || n == 0x202F || n == 0x205F || n == 0x3000
  }

  // String.prototype.trim: adds the byte-order mark, drops NEL.
  predicate JsSpace(c: char) {
    c as int == 0xFEFF || (GoSpace(c) && c as int != 0x85)
  }

  function Trim(s: string, space: char -> bool): string
    decreases |s|
  {
    if s != "" && space(s[0]) then Trim(s[1..], space)
    else if s != "" && space(s[|s| - 1]) then Trim(s[..|s| - 1], space)
    else s
  }

  // What is left has no space at its ends, and only spaces were taken off.
  ghost predicate Stripped(s: string, space: char -> bool, kept: string, i: nat, j: nat) {
    && i <= j <= |s| && kept == s[i..j] && (forall k :: 0 <= k < i ==> space(s[k])) && (forall k :: j <= k < |s| ==> space(s[k]))
    && (kept != "" ==> !space(kept[0]) && !space(kept[|kept| - 1]))
  }

  lemma {:induction false} TrimStrips(s: string, space: char -> bool) returns (i: nat, j: nat)
    ensures Stripped(s, space, Trim(s, space), i, j)
    decreases |s|
  {
    if s != "" && space(s[0]) {
      i, j := TrimStrips(s[1..], space);
      i, j := i + 1, j + 1;
      assert s[1..][i - 1..j - 1] == s[i..j];
      assert forall k :: 0 < k < |s| ==> s[k] == s[1..][k - 1];
    } else if s != "" && space(s[|s| - 1]) {
      i, j := TrimStrips(s[..|s| - 1], space);
      assert s[..|s| - 1][i..j] == s[i..j];
    } else {
      i, j := 0, |s|;
    }
  }

  lemma AmountEnds(s: string)
    requires IsAmount(s)
    ensures s != "" && IsDigit(s[0]) && IsDigit(s[|s| - 1])
  {
    var dot := IndexOf(s, '.');
    assert s[0] == Whole(s)[0];
    if dot == |s| {
      assert s[|s| - 1] == Whole(s)[dot - 1];
    } else {
      var f := Fraction(s).value;
      assert s[|s| - 1] == f[|f| - 1];
    }
  }

  lemma DigitNotSpace(c: char)
    requires IsDigit(c)
    ensures !GoSpace(c) && !JsSpace(c)
  {
  }

  lemma TrimExact(s: string, space: char -> bool)
    requires s != "" && !space(s[0]) && !space(s[|s| - 1])
    ensures Trim(s, space) == s
  {
  }

  lemma AmountUntrimmed(s: string)
    requires IsAmount(s)
    ensures s != "" && IsDigit(s[0]) && IsDigit(s[|s| - 1])
    ensures Trim(s, GoSpace) == s && Trim(s, JsSpace) == s
  {
    AmountEnds(s);
    DigitNotSpace(s[0]);
    DigitNotSpace(s[|s| - 1]);
    TrimExact(s, GoSpace);
    TrimExact(s, JsSpace);
  }

  // ---------------------------------------------------------------- Go: matching contract

  // cents (contract.go): pattern, then ParseInt of the digits without the point.
  function GoCents(s: string): Option<int> {
    if !IsMoney(s) then None else ParseInt(Whole(s) + Fraction(s).value)
  }

  // money (contract.go) and formatTreatmentCents: fmt.Sprintf("%d.%02d", n/100, n%100).
  function GoMoney(n: int): string {
    if n >= 0 then Money(n) else FormatInt(Quotient(n)) + "." + FormatInt02(Remainder(n))
  }

  lemma GoCentsReads(s: string)
    ensures GoCents(s) == if IsMoney(s) && Amount(s) <= MAX_INT64 then Some(Amount(s)) else None
  {
    if IsMoney(s) {
      var w, f := Whole(s), Fraction(s).value;
      DigitsAppend(w, f);
      assert (w + f)[0] == w[0];
    }
  }

  lemma NegativeMoneyRefused(n: int)
    requires n < 0
    ensures GoCents(GoMoney(n)) == None
  {
    var q, r := Quotient(n), Remainder(n);
    DivisionByHundred(-n);
    assert -100 < r <= 0 && q <= 0 && (r < 0 || q < 0);
    var w, f := FormatInt(q), FormatInt02(r);
    NumeralValue(-q);
    SplitJoin(w, f);
    assert (if q < 0 then w[0] else f[0]) == '-';
  }

  // The printer and the parser undo each other exactly on the non-negative amounts.
  lemma MoneyRoundTrip(n: int)
    requires IsInt64(n)
    ensures GoCents(GoMoney(n)) == Some(n) <==> 0 <= n
    ensures 0 <= n ==> GoMoney(n) == Money(n)
  {
    if n >= 0 {
      MoneyShape(n);
      GoCentsReads(Money(n));
    } else {
      NegativeMoneyRefused(n);
    }
  }

  // ---------------------------------------------------------------- Go: treatment

  // parseTreatmentCents.
  function TreatmentCents(raw: string): (r: Option<int>)
    ensures r.Some? ==> 0 <= r.value <= 5_000_000_099
  {
    var s := Trim(raw, GoSpace);
    if !IsAmount(s) then None
    else if DigitsValue(Whole(s)) > 50_000_000 then None
    else Some(DigitsValue(Whole(s)) * 100 + Hundredths(Fraction(s)))
  }

  lemma TreatmentCentsReads(s: string)
    requires IsAmount(s)
    ensures TreatmentCents(s) == if Amount(s) <= 5_000_000_099 then Some(Amount(s)) else None
  {
    AmountUntrimmed(s);
  }

  // formatTreatmentCents and parseTreatmentCents undo each other on the supported range.
  lemma TreatmentRoundTrip(c: int)
    requires IsInt64(c)
    ensures TreatmentCents(GoMoney(c)) == Some(c) <==> 0 <= c <= 5_000_000_099
  {
    if c >= 0 {
      MoneyRoundTrip(c);
      MoneyShape(c);
      TreatmentCentsReads(Money(c));
    }
  }

  // ---------------------------------------------------------------- Go: analytics

  // The fraction field of signedCents: at most two characters, padded, read by ParseInt.
  function FractionField(f: Option<string>): Option<int> {
    match f
    case None => Some(0)
    case Some(f) => if |f| > 2 || f == "" then None else ParseInt(if |f| == 1 then f + "0" else f)
  }

  // signedCents (analytics.go) after trimming and removing one '-', int64 wrap-around kept.
  function UnsignedCents(s: string): (r: Option<int>)
    ensures r.Some? ==> IsInt64(r.value)
  {
    var whole, fraction := ParseInt(Whole(s)), FractionField(Fraction(s));
    if whole.None? || fraction.None? then None
    else Some(Wrap64(Wrap64(whole.value * 100) + fraction.value))
  }

  function SignedCents(raw: string): (r: Option<int>)
    ensures r.Some? ==> IsInt64(r.value)
  {
    var s := Trim(raw, GoSpace);
    if s == "" then None
    else if s[0] != '-' then UnsignedCents(s)
    else
      var r := UnsignedCents(s[1..]);
      if r.None? then None else Some(Wrap64(-r.value))
  }

  // formatSignedCents (analytics.go); -value wraps at the smallest int64.
  function FormatSignedCents(value: int): string {
    if value < 0 then "-" + GoMoney(Wrap64(-value)) else GoMoney(value)
  }

  lemma WrapExact(n: int)
    requires IsInt64(n)
    ensures Wrap64(n) == n
  {
  }

  const TWO64: int := 0x1_0000_0000_0000_0000

  lemma CongruentEqual(v: int, w: int, k: int)
    requires IsInt64(v) && IsInt64(w) && v - w == TWO64 * k
    ensures v == w
  {
  }

  lemma WrapOffset(n: int) returns (k: int)
    ensures Wrap64(n) == n + TWO64 * k
  {
    k := (Wrap64(n) - n) / TWO64;
  }

  lemma WrapAdds(a: int, b: int)
    ensures Wrap64(Wrap64(a) + b) == Wrap64(a + b)
  {
    var i := WrapOffset(a);
    var j := WrapOffset(Wrap64(a) + b);
    var k := WrapOffset(a + b);
    CongruentEqual(Wrap64(Wrap64(a) + b), Wrap64(a + b), i + j - k);
  }

  lemma FractionFieldReads(f: Option<string>)
    requires f.Some? ==> AllDigits(f.value) && 1 <= |f.value| <= 2
    ensures FractionField(f) == Some(Hundredths(f))
  {
    if f.Some? {
      var padded := if |f.value| == 1 then f.value + "0" else f.value;
      DigitsAppend("", padded);
      assert "" + padded == padded;
      assert AllDigits(padded) && padded[0] == f.value[0];
      assert DigitsValue(padded) == Hundredths(f);
      ParseDigits(padded);
      assert FractionField(f) == ParseInt(padded);
    }
  }

  lemma SignedCentsReads(s: string)
    requires IsAmount(s)
    ensures SignedCents(s) == if DigitsValue(Whole(s)) <= MAX_INT64 then Some(Wrap64(Amount(s))) else None
  {
    AmountUntrimmed(s);
    assert s[0] == Whole(s)[0];
    FractionFieldReads(Fraction(s));
    WrapAdds(DigitsValue(Whole(s)) * 100, Hundredths(Fraction(s)));
  }

  lemma SignedCentsExact(s: string)
    requires IsAmount(s)
    ensures SignedCents(s) == Some(Amount(s)) <==> Amount(s) <= MAX_INT64
  {
    SignedCentsReads(s);
    if Amount(s) <= MAX_INT64 { WrapExact(Amount(s)); }
  }

  // The smallest int64 negates to itself, so it is the one negative number GoMoney is given.
  predicate Negated(n: int) { n == MIN_INT64 || 0 <= n <= MAX_INT64 }

  lemma NegatedFields(n: int)
    requires Negated(n)
    ensures n >= 0 ==> Quotient(n) == n / 100 && Remainder(n) == n % 100
    ensures n < 0 ==> Quotient(n) == -92233720368547758 && Remainder(n) == -8
    ensures Quotient(n) * 100 + Remainder(n) == n && IsInt64(Quotient(n))
  {
    DivisionByHundred(if n < 0 then -n else n);
  }

  // Both printed fields survive ParseInt, sign and all.
  lemma WholeField(q: int)
    requires IsInt64(q)
    ensures var w := FormatInt(q);
            '.' !in w && w != "" && !GoSpace(w[0]) && (w[0] == '-' <==> q < 0) && ParseInt(w) == Some(q)
  {
    ParseFormatInt(q);
    NumeralValue(if q < 0 then -q else q);
  }

  lemma HundredthField(r: int)
    requires 0 <= r < 100 || r == -8
    ensures var f := FormatInt02(r); |f| == 2 && !GoSpace(f[1]) && ParseInt(f) == Some(r)
  {
    if r == -8 {
      assert FormatInt02(r) == "-" + [CharOf(8)];
      ParseFormatInt(r);
    } else {
      TwoDigits(r);
    }
  }

  lemma UnsignedOfFields(w: string, f: string, q: int, r: int)
    requires '.' !in w && |f| == 2 && ParseInt(w) == Some(q) && ParseInt(f) == Some(r)
    ensures UnsignedCents(w + "." + f) == Some(Wrap64(q * 100 + r))
  {
    SplitJoin(w, f);
    WrapAdds(q * 100, r);
  }

  lemma UnsignedReads(n: int)
    requires Negated(n)
    ensures UnsignedCents(GoMoney(n)) == Some(n)
  {
    var q, r := Quotient(n), Remainder(n);
    NegatedFields(n);
    WholeField(q);
    HundredthField(r);
    UnsignedOfFields(FormatInt(q), FormatInt02(r), q, r);
  }

  lemma NegationIsNegated(v: int)
    requires IsInt64(v) && v < 0
    ensures Negated(Wrap64(-v)) && Wrap64(-Wrap64(-v)) == v
    ensures v > MIN_INT64 ==> Wrap64(-v) == -v
  {
  }

  lemma PrintedEnds(n: int)
    requires Negated(n)
    ensures var s := GoMoney(n);
            s != "" && !GoSpace(s[0]) && (s[0] == '-' <==> n < 0) && !GoSpace(s[|s| - 1])
  {
    var q, r := Quotient(n), Remainder(n);
    NegatedFields(n);
    WholeField(q);
    HundredthField(r);
    var s, w, f := GoMoney(n), FormatInt(q), FormatInt02(r);
    assert s[0] == w[0] && s[|s| - 1] == f[1];
  }

  lemma SignedOfNegative(s: string)
    requires s != "" && !GoSpace(s[|s| - 1])
    ensures SignedCents("-" + s) ==
            if UnsignedCents(s).None? then None else Some(Wrap64(-UnsignedCents(s).value))
  {
    var printed := "-" + s;
    assert printed[1..] == s && printed[|printed| - 1] == s[|s| - 1];
    TrimExact(printed, GoSpace);
  }

  lemma SignedOfPlain(s: string)
    requires s != "" && !GoSpace(s[0]) && s[0] != '-' && !GoSpace(s[|s| - 1])
    ensures SignedCents(s) == UnsignedCents(s)
  {
    TrimExact(s, GoSpace);
  }

  lemma NegativeRoundTrip(v: int, n: int, s: string)
    requires s != "" && !GoSpace(s[|s| - 1]) && UnsignedCents(s) == Some(n) && Wrap64(-n) == v
    ensures SignedCents("-" + s) == Some(v)
  {
    SignedOfNegative(s);
  }

  // The signed printer and parser undo each other on every int64, the smallest included.
  lemma SignedRoundTrip(v: int)
    requires IsInt64(v)
    ensures SignedCents(FormatSignedCents(v)) == Some(v)
  {
    if v >= 0 {
      PrintedEnds(v);
      UnsignedReads(v);
      SignedOfPlain(GoMoney(v));
    } else {
      var n := Wrap64(-v);
      NegationIsNegated(v);
      PrintedEnds(n);
      UnsignedReads(n);
      NegativeRoundTrip(v, n, GoMoney(n));
    }
  }

  lemma SignedIsMoney(c: int)
    requires MIN_INT64 < c <= MAX_INT64
    ensures FormatSignedCents(c) == if c < 0 then "-" + Money(-c) else Money(c)
  {
    if c < 0 {
      NegationIsNegated(c);
    } else {
      assert GoMoney(c) == Money(c);
    }
  }

  // ---------------------------------------------------------------- Python

  datatype WeightError = InvalidWeightFormat | NegativeOutcomeWeight | ExcessPrecision

  // weight (analytics.py): a Decimal is an exact real.
  function PyWeight(s: string): Result<real, WeightError> {
    if s != "" && s[0] == '-' then Err(NegativeOutcomeWeight)
    else if AllDigits(Whole(s)) && Whole(s) != "" && Fraction(s).Some? &&
      AllDigits(Fraction(s).value) && |Fraction(s).value| >= 3 then Err(ExcessPrecision)
    else if IsAmount(s) && |s| <= 8 then Ok(PyDecimal(s))
    else Err(InvalidWeightFormat)
  }

  // Decimal(s) of a plain amount: whole part plus scaled fraction digits.
  function PyDecimal(s: string): real
    requires IsAmount(s)
  {
    DigitsValue(Whole(s)) as real +
    match Fraction(s)
    case None => 0.0
    case Some(f) => DigitsValue(f) as real / Pow10(|f|) as real
  }

  // format(value, ".2f") of a decimal with at most two places.
  function PyKg(x: real): string {
    if x < 0.0 then "-" + Money(Magnitude(-x)) else Money(Magnitude(x))
  }

  function Magnitude(x: real): nat
    requires x >= 0.0
  {
    (x * 100.0).Floor
  }

  function Kg(cents: int): real { cents as real / 100.0 }

  // Python's decimal and Go's cents denote the same number.
  lemma PyDecimalIsAmount(s: string)
    requires IsAmount(s)
    ensures PyDecimal(s) == Kg(Amount(s))
  {
    match Fraction(s)
    case None =>
    case Some(f) =>
      DigitsAppend("", f);
      assert "" + f == f;
      assert Pow10(0) == 1 && Pow10(1) == 10 * Pow10(0) && Pow10(2) == 10 * Pow10(1);
  }

  lemma MagnitudeOfCents(c: nat)
    ensures Magnitude(Kg(c)) == c
  {
    assert Kg(c) * 100.0 == c as real;
  }

  lemma PyKgOfCents(c: int)
    ensures PyKg(Kg(c)) == if c < 0 then "-" + Money(-c) else Money(c)
  {
    MagnitudeOfCents(if c < 0 then -c else c);
    assert -Kg(c) == Kg(-c);
    assert Kg(c) < 0.0 <==> c < 0;
  }

  // Python prints every exact cent value, signed or not, as Go's formatSignedCents does.
  lemma PrintersAgree(c: int)
    requires MIN_INT64 < c <= MAX_INT64
    ensures PyKg(Kg(c)) == FormatSignedCents(c)
  {
    SignedIsMoney(c);
    PyKgOfCents(c);
  }

  lemma PyWeightReads(s: string)
    requires IsAmount(s)
    ensures PyWeight(s) == if |s| <= 8 then Ok(Kg(Amount(s))) else Err(InvalidWeightFormat)
  {
    AmountUntrimmed(s);
    PyDecimalIsAmount(s);
  }

  // Eight characters hold at most 99999.99.
  lemma PyWidth(c: nat)
    ensures |Money(c)| <= 8 <==> c <= 9_999_999
  {
    MoneyShape(c);
    NumeralValue(c / 100);
    WidthBound(Numeral(c / 100), 5);
    assert Pow10(5) == 100_000 by { assert Pow10(3) == 1000; }
  }

  lemma PyNegativeRefused(s: string)
    ensures PyWeight("-" + s) == Err(NegativeOutcomeWeight)
  {
  }

  lemma PyReadsPrinted(c: nat)
    ensures PyWeight(Money(c)) == if |Money(c)| <= 8 then Ok(Kg(c)) else Err(InvalidWeightFormat)
  {
    MoneyShape(c);
    PyWeightReads(Money(c));
  }

  // weight and kg undo each other up to 99999.99 kg, the widest amount weight accepts.
  lemma PyRoundTrip(c: int)
    requires IsInt64(c)
    ensures PyWeight(PyKg(Kg(c))) == Ok(Kg(c)) <==> 0 <= c <= 9_999_999
  {
    PyKgOfCents(c);
    if c < 0 {
      PyNegativeRefused(Money(-c));
    } else {
      PyReadsPrinted(c);
      PyWidth(c);
    }
  }

  // parseKg (kg.ts): /^\d{1,6}(\.\d{1,2})?$/ allows leading zeros.
  function JsParseKg(raw: string): Option<int> {
    var s := Trim(raw, JsSpace);
    var w := Whole(s);
    if !AllDigits(w) || !(1 <= |w| <= 6) then None else
    match Fraction(s)
    case None => Some(DigitsValue(w) * 100)
    case Some(f) =>
      if AllDigits(f) && 1 <= |f| <= 2 then Some(DigitsValue(w) * 100 + Hundredths(Some(f))) else None
  }

  // formatKg (kg.ts): Math.floor and a truncating remainder, padStart(2, "0").
  function JsFormatKg(h: int): string {
    FormatInt(h / 100) + "." + FormatInt02(Remainder(h))
  }

  lemma JsParseKgReads(s: string)
    requires IsAmount(s)
    ensures JsParseKg(s) == if |Whole(s)| <= 6 then Some(Amount(s)) else None
  {
    AmountUntrimmed(s);
  }

  lemma JsNegativeRefused(h: int)
    requires h < 0
    ensures JsParseKg(JsFormatKg(h)) == None
  {
    var w, f := FormatInt(h / 100), FormatInt02(Remainder(h));
    assert w[0] == '-';
    NumeralValue(-(h / 100));
    JsSigned(JsFormatKg(h), w, f);
  }

  lemma JsPrintsMoney(h: nat)
    ensures JsFormatKg(h) == Money(h)
  {
    DivisionByHundred(h);
  }

  lemma JsRoundTrip(h: int)
    ensures JsParseKg(JsFormatKg(h)) == Some(h) <==> 0 <= h <= 99_999_999
  {
    if h >= 0 {
      JsPrintsMoney(h);
      MoneyShape(h);
      JsParseKgReads(Money(h));
      NumeralValue(h / 100);
      WidthBound(Numeral(h / 100), 6);
      assert Pow10(6) == 1_000_000 by { assert Pow10(3) == 1000; }
    } else {
      JsNegativeRefused(h);
    }
  }

  // Trimming never removes a leading sign, so a signed text is refused.
  lemma JsSigned(s: string, w: string, f: string)
    requires s == w + "." + f && w != "" && w[0] == '-' && '.' !in w
    ensures JsParseKg(s) == None
  {
    TrimKeepsHead(s, JsSpace);
    var t := Trim(s, JsSpace);
    var dot := IndexOf(t, '.');
    assert dot > 0 ==> Whole(t)[0] == '-';
  }

  lemma {:induction false} TrimKeepsHead(s: string, space: char -> bool)
    requires s != "" && !space(s[0])
    ensures Trim(s, space) != "" && Trim(s, space)[0] == s[0]
    decreases |s|
  {
    if |s| > 1 && space(s[|s| - 1]) {
      TrimKeepsHead(s[..|s| - 1], space);
    }
  }

  // ---------------------------------------------------------------- agreement

  /** On their common grammar all five parsers read the same number; they differ only in the range
      each accepts. */
  lemma ParsersAgree(s: string)
    requires IsAmount(s)
    ensures GoCents(s) == if IsMoney(s) && Amount(s) <= MAX_INT64 then Some(Amount(s)) else None
    ensures TreatmentCents(s) == if Amount(s) <= 5_000_000_099 then Some(Amount(s)) else None
    ensures SignedCents(s) == Some(Amount(s)) <==> Amount(s) <= MAX_INT64
    ensures PyWeight(s) == if |s| <= 8 then Ok(Kg(Amount(s))) else Err(InvalidWeightFormat)
    ensures JsParseKg(s) == if |Whole(s)| <= 6 then Some(Amount(s)) else None
  {
    GoCentsReads(s);
    TreatmentCentsReads(s);
    SignedCentsExact(s);
    PyWeightReads(s);
    JsParseKgReads(s);
  }
}
