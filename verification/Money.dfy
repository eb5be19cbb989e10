/**
 * Exact money: decimal display strings and integer base units (src/utils/money.ts),
 * with the two comparisons built on them: `normalizeAmount` of the transaction
 * service and `isAtLeast` of the external-transfer service.
 */
module Money {
  import opened Common

  // ----- digit strings

  predicate IsDigit(c: char) { '0' <= c <= '9' }

  predicate AllDigits(s: string) {
    forall i :: 0 <= i < |s| ==> IsDigit(s[i])
  }

  function DigitValue(c: char): (v: nat)
    requires IsDigit(c)
    ensures v < 10
  {
    c as int - '0' as int
  }

  function DigitChar(v: nat): (c: char)
    requires v < 10
    ensures IsDigit(c) && DigitValue(c) == v
  {
    ('0' as int + v) as char
  }

  function Pow10(k: nat): (p: nat)
    ensures p >= 1
  {
    if k == 0 then 1 else 10 * Pow10(k - 1)
  }

  /** `BigInt(s)` for a string of decimal digits. */
  function Value(s: string): (v: nat)
    requires AllDigits(s)
  {
    if s == [] then 0 else 10 * Value(s[..|s| - 1]) + DigitValue(s[|s| - 1])
  }

  /** The last `k` decimal digits of `n`, zero-padded on the left. */
  function LowDigits(n: nat, k: nat): (s: string)
    ensures |s| == k && AllDigits(s)
  {
    if k == 0 then "" else LowDigits(n / 10, k - 1) + [DigitChar(n % 10)]
  }

  /** `n` without its last `k` decimal digits. */
  function DropDigits(n: nat, k: nat): nat {
    if k == 0 then n else DropDigits(n / 10, k - 1)
  }

  /** `n.toString()` for a non-negative bigint. */
  function Digits(n: nat): (s: string)
    ensures |s| > 0 && AllDigits(s)
  {
    if n < 10 then [DigitChar(n)] else Digits(n / 10) + [DigitChar(n % 10)]
  }

  function Zeros(k: nat): (s: string)
    ensures |s| == k && AllDigits(s)
    ensures forall i :: 0 <= i < k ==> s[i] == '0'
  {
    seq(k, i => '0')
  }

  /** Drops leading zeros, keeping at least one character. */
  function StripLeading(s: string): string {
    if |s| > 1 && s[0] == '0' then StripLeading(s[1..]) else s
  }

  /** `s.replace(/^0+/, "")`: drops every leading zero. */
  function StripAllLeading(s: string): string {
    if |s| > 0 && s[0] == '0' then StripAllLeading(s[1..]) else s
  }

  /** Drops every trailing zero. */
  function StripTrailing(s: string): string {
    if |s| > 0 && s[|s| - 1] == '0' then StripTrailing(s[..|s| - 1]) else s
  }

  /** Drops trailing zeros, keeping at least one character. */
  function TrimFraction(s: string): string {
    if |s| > 1 && s[|s| - 1] == '0' then TrimFraction(s[..|s| - 1]) else s
  }

  predicate AllZeros(s: string) {
    forall i :: 0 <= i < |s| ==> s[i] == '0'
  }

  // ----- plain decimals

  /** `const [whole, frac = ""] = s.split(".")`, the whole part. */
  function Whole(s: string): string {
    match IndexOf(s, '.')
    case None => s
    case Some(i) => s[..i]
  }

  /** The fraction part: what follows the first point, or nothing. */
  function Fraction(s: string): string {
    match IndexOf(s, '.')
    case None => ""
    case Some(i) => s[i + 1..]
  }

  /** The shape `^\d+(\.\d+)?$`. */
  predicate IsPlainDecimal(s: string) {
    |Whole(s)| > 0 && AllDigits(Whole(s)) && AllDigits(Fraction(s))
    && (IndexOf(s, '.').Some? ==> |Fraction(s)| > 0)
  }

  /** `decimalPlacesOf`. */
  function DecimalPlacesOf(s: string): (n: nat) {
    match IndexOf(s, '.')
    case None => 0
    case Some(i) => |s| - i - 1
  }

  /** `isPositiveDecimalString`. */
  predicate IsPositiveDecimalString(s: string) {
    IsPlainDecimal(s) && !(AllZeros(Whole(s)) && AllZeros(Fraction(s)))
  }

  /** `frac.padEnd(d, "0")`. */
  function PadEnd(s: string, d: nat): (r: string)
    requires |s| <= d
    ensures |r| == d
    ensures AllDigits(s) ==> AllDigits(r)
  {
    s + Zeros(d - |s|)
  }

  /** The fraction digits a scale of `d` places can hold. */
  function Kept(f: string, d: nat): (k: string)
    ensures |k| <= d && |k| <= |f|
    ensures AllDigits(f) ==> AllDigits(k)
  {
    if |f| <= d then f else f[..d]
  }

  /** Surplus fraction digits are harmless when they are zeros. */
  predicate Fits(f: string, d: nat) {
    |f| <= d || AllZeros(f[d..])
  }

  /** `toBaseUnits`: None where the original throws. */
  function ToBaseUnits(s: string, d: nat): (r: Option<nat>) {
    if IsPlainDecimal(s) && Fits(Fraction(s), d)
    then Some(Value(Whole(s) + PadEnd(Kept(Fraction(s), d), d)))
    else None
  }

  /** `formatUnits`: digits with the point `d` places from the right, trimmed to one fraction digit. */
  function FormatUnits(n: nat, d: nat): (s: string) {
    if d == 0 then Digits(n)
    else Digits(DropDigits(n, d)) + "." + TrimFraction(LowDigits(n, d))
  }

  /** `.replace(/\.0+$/, "")` on a string with at most one point. */
  function DropZeroFraction(s: string): string {
    if |Fraction(s)| > 0 && AllZeros(Fraction(s)) then Whole(s) else s
  }

  /** `fromBaseUnits`. */
  function FromBaseUnits(n: nat, d: nat): (s: string) {
    DropZeroFraction(FormatUnits(n, d))
  }

  /** The canonical spelling: no redundant leading zero, no trailing fraction zero, no bare point. */
  function Canonical(s: string): string {
    WithFraction(StripLeading(Whole(s)), StripTrailing(Fraction(s)))
  }

  function WithFraction(whole: string, frac: string): string {
    if frac == "" then whole else whole + "." + frac
  }

  // ----- arithmetic of digit strings

  lemma {:induction false} Pow10Monotone(a: nat, b: nat)
    requires a <= b
    ensures Pow10(a) <= Pow10(b)
  {
    if a < b {
      Pow10Monotone(a, b - 1);
    }
  }

  lemma {:induction false} ValueBound(s: string)
    requires AllDigits(s)
    ensures Value(s) < Pow10(|s|)
  {
    if s != [] {
      ValueBound(s[..|s| - 1]);
    }
  }

  /** `v` times ten, `k` times: `v * 10^k`. */
  function Scale(v: nat, k: nat): nat {
    if k == 0 then v else 10 * Scale(v, k - 1)
  }

  lemma {:induction false} ScaleMonotone(v: nat, w: nat, k: nat)
    requires v <= w
    ensures Scale(v, k) <= Scale(w, k)
    ensures Scale(0, k) == 0 && Scale(1, k) == Pow10(k)
  {
    if k > 0 {
      ScaleMonotone(v, w, k - 1);
    }
  }

  lemma ValueSnoc(p: string, c: char)
    requires AllDigits(p) && IsDigit(c)
    ensures AllDigits(p + [c]) && Value(p + [c]) == 10 * Value(p) + DigitValue(c)
  {
    assert (p + [c])[..|p|] == p;
  }

  lemma {:induction false} ValueConcat(a: string, b: string)
    requires AllDigits(a) && AllDigits(b)
    ensures AllDigits(a + b)
    ensures Value(a + b) == Scale(Value(a), |b|) + Value(b)
  {
    if b == [] {
      assert a + b == a;
    } else {
      var p, c := b[..|b| - 1], b[|b| - 1];
      ValueConcat(a, p);
      assert a + b == (a + p) + [c] && b == p + [c];
      ValueSnoc(a + p, c);
      ValueSnoc(p, c);
    }
  }

  lemma {:induction false} ZerosValue(s: string)
    requires AllDigits(s)
    ensures Value(s) == 0 <==> AllZeros(s)
  {
    if s != [] {
      ZerosValue(s[..|s| - 1]);
      assert AllZeros(s) <==> AllZeros(s[..|s| - 1]) && s[|s| - 1] == '0';
    }
  }

  /** Splitting a number `k` digits from the right loses nothing. */
  lemma {:induction false} SplitValue(n: nat, k: nat)
    ensures Value(Digits(DropDigits(n, k)) + LowDigits(n, k)) == n
  {
    if k == 0 {
      assert Digits(n) + "" == Digits(n);
      DigitsValue(n);
    } else {
      var s := Digits(DropDigits(n, k)) + LowDigits(n, k);
      assert s[..|s| - 1] == Digits(DropDigits(n / 10, k - 1)) + LowDigits(n / 10, k - 1);
      SplitValue(n / 10, k - 1);
    }
  }

  lemma DivModTen(v: nat, c: nat)
    requires c < 10
    ensures (10 * v + c) / 10 == v && (10 * v + c) % 10 == c
  {
  }

  /** A digit string is recovered from its value, given where it is split. */
  lemma {:induction false} SplitOfValue(w: string, f: string)
    requires AllDigits(w) && AllDigits(f)
    ensures AllDigits(w + f)
    ensures DropDigits(Value(w + f), |f|) == Value(w)
    ensures LowDigits(Value(w + f), |f|) == f
  {
    if f == "" {
      assert w + f == w;
    } else {
      var p, c := f[..|f| - 1], f[|f| - 1];
      SplitOfValue(w, p);
      assert w + f == (w + p) + [c] && f == p + [c];
      ValueSnoc(w + p, c);
      DivModTen(Value(w + p), DigitValue(c));
      assert DigitChar(DigitValue(c)) == c;
    }
  }

  lemma {:induction false} DigitsValue(n: nat)
    ensures Value(Digits(n)) == n
  {
    var s := Digits(n);
    if n >= 10 {
      assert s[..|s| - 1] == Digits(n / 10);
      DigitsValue(n / 10);
    } else {
      assert s[..0] == "";
    }
  }

  /** A digit string without a redundant leading zero is what `toString` prints. */
  lemma {:induction false} DigitsOfUnpadded(s: string)
    requires AllDigits(s) && |s| > 0 && (|s| == 1 || s[0] != '0')
    ensures Digits(Value(s)) == s
  {
    var p := s[..|s| - 1];
    assert s == p + [s[|s| - 1]];
    if |s| > 1 {
      assert p[0] == s[0];
      DigitsOfUnpadded(p);
      ZerosValue(p);
      if |p| == 1 && p[0] == '0' { assert false; }
      assert Value(p) >= 1;
    } else {
      assert p == "";
    }
  }

  lemma {:induction false} DropLeadingZero(s: string)
    requires AllDigits(s) && |s| > 0 && s[0] == '0'
    ensures Value(s[1..]) == Value(s)
  {
    assert s == "0" + s[1..];
    assert "0"[..0] == "";
    ValueConcat("0", s[1..]);
    ScaleMonotone(0, 0, |s| - 1);
  }

  lemma {:induction false} StripLeadingDigits(s: string)
    requires AllDigits(s) && |s| > 0
    ensures Digits(Value(s)) == StripLeading(s)
  {
    if |s| > 1 && s[0] == '0' {
      DropLeadingZero(s);
      StripLeadingDigits(s[1..]);
    } else {
      DigitsOfUnpadded(s);
    }
  }

  /** Trailing zeros are exactly what padding restores. */
  lemma {:induction false} StripTrailingPads(s: string, d: nat)
    requires AllDigits(s) && |s| <= d
    ensures |StripTrailing(s)| <= |s| && AllDigits(StripTrailing(s))
    ensures PadEnd(StripTrailing(s), d) == PadEnd(s, d)
    ensures StripTrailing(s) == "" <==> AllZeros(s)
    ensures StripTrailing(s) != "" ==> StripTrailing(s)[|StripTrailing(s)| - 1] != '0'
  {
    if |s| > 0 && s[|s| - 1] == '0' {
      var p := s[..|s| - 1];
      StripTrailingPads(p, d);
      assert s == p + "0";
      assert PadEnd(p, d) == PadEnd(s, d);
      assert AllZeros(s) <==> AllZeros(p);
    }
  }

  lemma {:induction false} StripPadded(s: string, k: nat)
    ensures StripTrailing(s + Zeros(k)) == StripTrailing(s)
  {
    if k == 0 {
      assert s + Zeros(0) == s;
    } else {
      assert (s + Zeros(k))[..|s| + k - 1] == s + Zeros(k - 1);
      StripPadded(s, k - 1);
    }
  }

  lemma {:induction false} TrimFractionIsStrip(s: string)
    requires AllDigits(s) && |s| > 0
    ensures TrimFraction(s) == if AllZeros(s) then "0" else StripTrailing(s)
  {
    if |s| > 1 && s[|s| - 1] == '0' {
      var p := s[..|s| - 1];
      TrimFractionIsStrip(p);
      assert AllZeros(s) <==> AllZeros(p);
    } else if |s| == 1 && s[0] == '0' {
      assert s == "0";
    } else {
      assert s[|s| - 1] != '0';
    }
  }

  // ----- structure of plain decimals

  lemma SplitJoined(w: string, f: string)
    requires AllDigits(w) && AllDigits(f)
    ensures IndexOf(w + "." + f, '.') == Some(|w|)
    ensures Whole(w + "." + f) == w && Fraction(w + "." + f) == f
  {
    var s := w + "." + f;
    assert s[..|w|] == w;
    FirstIndex(s, '.', |w|);
  }

  lemma SplitDigits(w: string)
    requires AllDigits(w)
    ensures IndexOf(w, '.') == None && Whole(w) == w && Fraction(w) == ""
  {
    NoIndex(w, '.');
  }

  lemma SplitWithFraction(w: string, f: string)
    requires AllDigits(w) && AllDigits(f)
    ensures Whole(WithFraction(w, f)) == w && Fraction(WithFraction(w, f)) == f
    ensures |w| > 0 ==> IsPlainDecimal(WithFraction(w, f))
    ensures DecimalPlacesOf(WithFraction(w, f)) == |f|
  {
    SplitDigits(w);
    SplitJoined(w, f);
  }

  /** A string is its whole part, and its fraction if it has one. */
  lemma Rejoin(s: string)
    requires IsPlainDecimal(s)
    ensures s == WithFraction(Whole(s), Fraction(s))
  {
    match IndexOf(s, '.')
    case None =>
    case Some(i) => assert s == s[..i] + "." + s[i + 1..];
  }

  /** What the printer produces, as a whole part and a stripped fraction. */
  lemma FromBaseUnitsShape(n: nat, d: nat)
    ensures FromBaseUnits(n, d) == WithFraction(Digits(DropDigits(n, d)), StripTrailing(LowDigits(n, d)))
  {
    var w, f := Digits(DropDigits(n, d)), LowDigits(n, d);
    if d == 0 {
      SplitDigits(w);
    } else {
      TrimFractionIsStrip(f);
      StripTrailingPads(f, |f|);
      SplitJoined(w, TrimFraction(f));
    }
  }

  // ----- the two directions of the conversion

  /** `whole * 10^d + fraction`, the integer arithmetic the parser stands for. */
  lemma ParserMeaning(s: string, d: nat)
    requires IsPlainDecimal(s) && Fits(Fraction(s), d)
    ensures ToBaseUnits(s, d) == Some(Scale(Value(Whole(s)), d) + Value(PadEnd(Kept(Fraction(s), d), d)))
  {
    ValueConcat(Whole(s), PadEnd(Kept(Fraction(s), d), d));
  }

  /** Printing and parsing again gives back every amount of base units, at every scale. */
  lemma ParseAfterPrint(n: nat, d: nat)
    ensures ToBaseUnits(FromBaseUnits(n, d), d) == Some(n)
  {
    FromBaseUnitsShape(n, d);
    var w, f := Digits(DropDigits(n, d)), LowDigits(n, d);
    StripTrailingPads(f, d);
    SplitWithFraction(w, StripTrailing(f));
    assert PadEnd(StripTrailing(f), d) == PadEnd(f, d) == f;
    SplitValue(n, d);
  }

  /** Dropping surplus zeros changes neither the stripped fraction nor its value. */
  lemma KeptIsSame(f: string, d: nat)
    requires AllDigits(f) && Fits(f, d)
    ensures StripTrailing(Kept(f, d)) == StripTrailing(f)
    ensures FractionValue(Kept(f, d)) == FractionValue(f)
    ensures AllZeros(Kept(f, d)) <==> AllZeros(f)
  {
    if |f| > d {
      assert PadEnd(f[..d], |f|) == f;
      StripPadded(f[..d], |f| - d);
      PaddedFraction(f[..d], |f|);
      AllZerosConcat(f[..d], f[d..]);
      assert f[..d] + f[d..] == f;
    }
  }

  /** Parsing and printing again gives the canonical spelling of everything that converts. */
  lemma PrintAfterParse(s: string, d: nat)
    requires ToBaseUnits(s, d).Some?
    ensures FromBaseUnits(ToBaseUnits(s, d).value, d) == Canonical(s)
  {
    var w, f := Whole(s), Kept(Fraction(s), d);
    SplitOfValue(w, PadEnd(f, d));
    FromBaseUnitsShape(Value(w + PadEnd(f, d)), d);
    StripLeadingDigits(w);
    StripPadded(f, d - |f|);
    KeptIsSame(Fraction(s), d);
  }

  lemma {:induction false} StripLeadingShape(s: string)
    requires AllDigits(s) && |s| > 0
    ensures AllDigits(StripLeading(s)) && |StripLeading(s)| > 0
    ensures |StripLeading(s)| == 1 || StripLeading(s)[0] != '0'
  {
    if |s| > 1 && s[0] == '0' {
      StripLeadingShape(s[1..]);
    }
  }

  /** Canonical spellings are fixed points with no redundant digit. */
  lemma CanonicalShape(s: string)
    requires IsPlainDecimal(s)
    ensures IsPlainDecimal(Canonical(s))
    ensures |Whole(Canonical(s))| == 1 || Whole(Canonical(s))[0] != '0'
    ensures var f := Fraction(Canonical(s)); f == "" || f[|f| - 1] != '0'
    ensures Canonical(Canonical(s)) == Canonical(s)
  {
    StripLeadingShape(Whole(s));
    StripTrailingPads(Fraction(s), |Fraction(s)|);
    SplitWithFraction(StripLeading(Whole(s)), StripTrailing(Fraction(s)));
  }

  // ----- exact numeric value

  /** The rational number a plain decimal denotes, read position by position. */
  ghost function NumericValue(s: string): real
    requires IsPlainDecimal(s)
  {
    Value(Whole(s)) as real + FractionValue(Fraction(s))
  }

  ghost function FractionValue(f: string): real
    requires AllDigits(f)
  {
    if f == "" then 0.0 else (DigitValue(f[0]) as real + FractionValue(f[1..])) / 10.0
  }

  /** `x` with its point moved `d` places to the right. */
  ghost function Shifted(x: real, d: nat): real
    decreases d
  {
    if d == 0 then x else Shifted(10.0 * x, d - 1)
  }

  lemma MovePoint(v: real, c: real, rest: real)
    ensures 10.0 * (v + (c + rest) / 10.0) == 10.0 * v + c + rest
  {
  }

  lemma RealSnoc(v: nat, c: nat)
    ensures (10 * v + c) as real == 10.0 * (v as real) + c as real
  {
  }

  /** Ten times a number with its point one place further right. */
  lemma TenTimes(w: string, c: char, rest: string)
    requires AllDigits(w) && IsDigit(c) && AllDigits(rest)
    ensures AllDigits([c] + rest) && AllDigits(w + [c])
    ensures 10.0 * (Value(w) as real + FractionValue([c] + rest)) == Value(w + [c]) as real + FractionValue(rest)
  {
    ValueSnoc(w, c);
    assert ([c] + rest)[1..] == rest;
    MovePoint(Value(w) as real, DigitValue(c) as real, FractionValue(rest));
    RealSnoc(Value(w), DigitValue(c));
  }

  /** A trailing zero adds nothing to a fraction. */
  lemma {:induction false} PaddedFraction(f: string, d: nat)
    requires AllDigits(f) && |f| <= d
    ensures FractionValue(PadEnd(f, d)) == FractionValue(f)
    decreases d
  {
    if d > 0 {
      var rest := if f == "" then "" else f[1..];
      PaddedFraction(rest, d - 1);
      assert PadEnd(f, d)[1..] == PadEnd(rest, d - 1);
      assert f == "" ==> PadEnd(f, d)[0] == '0';
    }
  }

  /** The first `d` fraction digits move to the left of the point, the others stay to its right. */
  lemma {:induction false} ShiftedDigits(w: string, f: string, d: nat)
    requires AllDigits(w) && AllDigits(f) && d <= |f|
    ensures AllDigits(w + f[..d])
    ensures Value(w + f[..d]) as real + FractionValue(f[d..]) == Shifted(Value(w) as real + FractionValue(f), d)
    decreases d
  {
    if d == 0 {
      assert w + f[..0] == w && f[0..] == f;
    } else {
      var c, rest := f[0], f[1..];
      assert f == [c] + rest && w + f[..d] == (w + [c]) + rest[..d - 1] && f[d..] == rest[d - 1..];
      TenTimes(w, c, rest);
      ShiftedDigits(w + [c], rest, d - 1);
    }
  }

  /** No rounding: base units are the denoted number with the point moved by the scale. */
  lemma ConversionIsExact(s: string, d: nat)
    requires ToBaseUnits(s, d).Some?
    ensures ToBaseUnits(s, d).value as real == Shifted(NumericValue(s), d)
  {
    var padded := PadEnd(Kept(Fraction(s), d), d);
    KeptIsSame(Fraction(s), d);
    PaddedFraction(Kept(Fraction(s), d), d);
    ShiftedDigits(Whole(s), padded, d);
    assert padded[..d] == padded;
  }

  lemma {:induction false} FractionBounds(f: string)
    requires AllDigits(f)
    ensures 0.0 <= FractionValue(f) < 1.0
    ensures FractionValue(f) == 0.0 <==> AllZeros(f)
  {
    if f != "" {
      FractionBounds(f[1..]);
      assert AllZeros(f) <==> f[0] == '0' && AllZeros(f[1..]);
    }
  }

  lemma WholeOnly(m: nat, n: nat, x: real)
    requires m as real + x == n as real && 0.0 <= x < 1.0
    ensures x == 0.0 && m == n
  {
    assert (n - m) as real == x;
  }

  /** The parser accepts exactly the plain decimals that are a whole number of base units, and answers that number. */
  lemma ParserDomain(s: string, d: nat, n: nat)
    ensures ToBaseUnits(s, d) == Some(n) <==> IsPlainDecimal(s) && Shifted(NumericValue(s), d) == n as real
  {
    if ToBaseUnits(s, d).Some? {
      ConversionIsExact(s, d);
    } else if IsPlainDecimal(s) {
      var f := Fraction(s);
      ShiftedDigits(Whole(s), f, d);
      FractionBounds(f[d..]);
      if Shifted(NumericValue(s), d) == n as real { WholeOnly(Value(Whole(s) + f[..d]), n, FractionValue(f[d..])); }
    }
  }

  lemma {:induction false} ShiftedOrder(x: real, y: real, d: nat)
    ensures Shifted(x, d) >= Shifted(y, d) <==> x >= y
    decreases d
  {
    if d > 0 {
      ShiftedOrder(10.0 * x, 10.0 * y, d - 1);
    }
  }

  /** `isAtLeast`: a value that does not convert compares as false. */
  predicate IsAtLeast(available: string, required: string, d: nat) {
    match (ToBaseUnits(available, d), ToBaseUnits(required, d))
    case (Some(a), Some(r)) => a >= r
    case _ => false
  }

  /** `isAtLeast` decides numeric order exactly, and is false outside its domain. */
  lemma IsAtLeastIsExact(a: string, r: string, d: nat)
    ensures IsAtLeast(a, r, d) <==>
            IsPlainDecimal(a) && Fits(Fraction(a), d) &&
            IsPlainDecimal(r) && Fits(Fraction(r), d) &&
            NumericValue(a) >= NumericValue(r)
  {
    if ToBaseUnits(a, d).Some? && ToBaseUnits(r, d).Some? {
      ConversionIsExact(a, d);
      ConversionIsExact(r, d);
      ShiftedOrder(NumericValue(a), NumericValue(r), d);
    }
  }

  // ----- normalizeAmount

  predicate IsSpace(c: char) { c == ' ' || '\t' <= c <= '\r' }

  function TrimStart(s: string): string {
    if |s| > 0 && IsSpace(s[0]) then TrimStart(s[1..]) else s
  }

  function TrimEnd(s: string): string {
    if |s| > 0 && IsSpace(s[|s| - 1]) then TrimEnd(s[..|s| - 1]) else s
  }

  function DropBarePoint(s: string): string {
    if |s| > 0 && s[|s| - 1] == '.' then s[..|s| - 1] else s
  }

  /** `normalizeAmount`. */
  function NormalizeAmount(s: string): string {
    var t := TrimEnd(TrimStart(s));
    if '.' in t then DropBarePoint(StripTrailing(t)) else t
  }

  lemma {:induction false} StripAfterPoint(w: string, f: string)
    ensures StripTrailing(w + "." + f) == w + "." + StripTrailing(f)
  {
    var s := w + "." + f;
    if |f| > 0 {
      assert s[|s| - 1] == f[|f| - 1];
      assert s[..|s| - 1] == w + "." + f[..|f| - 1];
      if f[|f| - 1] == '0' {
        StripAfterPoint(w, f[..|f| - 1]);
      }
    } else {
      assert s[|s| - 1] == '.';
    }
  }

  /** On a plain decimal, normalizing only strips the fraction. */
  lemma NormalizePlain(s: string)
    requires IsPlainDecimal(s)
    ensures NormalizeAmount(s) == WithFraction(Whole(s), StripTrailing(Fraction(s)))
  {
    var w, f := Whole(s), Fraction(s);
    Rejoin(s);
    assert !IsSpace(s[0]) by { assert s[0] == w[0]; }
    assert !IsSpace(s[|s| - 1]) by {
      if f != "" { assert s[|s| - 1] == f[|f| - 1]; } else { assert s[|s| - 1] == w[|w| - 1]; }
    }
    if f == "" {
      SplitDigits(w);
    } else {
      assert s[|w|] == '.';
      StripAfterPoint(w, f);
      StripTrailingPads(f, |f|);
      var t := w + "." + StripTrailing(f);
      if StripTrailing(f) == "" {
        assert t[..|t| - 1] == w;
      } else {
        assert t[|t| - 1] == StripTrailing(f)[|StripTrailing(f)| - 1];
        assert IsDigit(t[|t| - 1]);
      }
    }
  }

  /** White space around an amount is dropped. */
  lemma NormalizeTrims(before: string, s: string, after: string)
    requires IsPlainDecimal(s) && AllBlank(before) && AllBlank(after)
    ensures NormalizeAmount(before + s + after) == NormalizeAmount(s)
  {
    PlainEnds(s);
    TrimsStart(before, s + after);
    TrimsEnd(s, after);
    TrimsStart("", s);
    TrimsEnd(s, "");
    assert before + s + after == before + (s + after) && "" + s == s && s + "" == s;
  }

  predicate AllBlank(s: string) {
    forall i :: 0 <= i < |s| ==> s[i] in {' ', '\t', '\n', '\r', '\U{000b}', '\U{000c}'}
  }

  lemma PlainEnds(s: string)
    requires IsPlainDecimal(s)
    ensures |s| > 0 && IsDigit(s[0]) && IsDigit(s[|s| - 1])
  {
    match IndexOf(s, '.')
    case None => assert Whole(s) == s;
    case Some(i) => assert Whole(s)[0] == s[0] && Fraction(s)[|Fraction(s)| - 1] == s[|s| - 1];
  }

  lemma {:induction false} TrimsStart(before: string, rest: string)
    requires AllBlank(before) && |rest| > 0 && IsDigit(rest[0])
    ensures TrimStart(before + rest) == rest
  {
    if before == "" {
      assert before + rest == rest;
    } else {
      assert (before + rest)[1..] == before[1..] + rest;
      TrimsStart(before[1..], rest);
    }
  }

  lemma {:induction false} TrimsEnd(rest: string, after: string)
    requires AllBlank(after) && |rest| > 0 && IsDigit(rest[|rest| - 1])
    ensures TrimEnd(rest + after) == rest
  {
    if after == "" {
      assert rest + after == rest;
    } else {
      var n := |after| - 1;
      assert (rest + after)[..|rest + after| - 1] == rest + after[..n];
      TrimsEnd(rest, after[..n]);
    }
  }

  /** How many leading zeros the whole part carries beyond its canonical spelling. */
  function RedundantZeros(s: string): int {
    |Whole(s)| - |StripLeading(Whole(s))|
  }

  /** Digit strings with one value and as many redundant zeros are one string. */
  lemma {:induction false} SameValueSamePadding(a: string, b: string)
    requires AllDigits(a) && AllDigits(b) && |a| > 0 && |b| > 0
    requires Value(a) == Value(b)
    requires |a| - |StripLeading(a)| == |b| - |StripLeading(b)|
    ensures a == b
  {
    StripLeadingDigits(a);
    StripLeadingDigits(b);
    SplitOfValue("", a);
    SplitOfValue("", b);
    assert "" + a == a && "" + b == b;
  }

  lemma StripDeterminesPadded(f: string, g: string, d: nat)
    requires AllDigits(f) && AllDigits(g) && |f| <= d && |g| <= d
    ensures StripTrailing(f) == StripTrailing(g) <==> PadEnd(f, d) == PadEnd(g, d)
  {
    StripTrailingPads(f, d);
    StripTrailingPads(g, d);
    StripPadded(f, d - |f|);
    StripPadded(g, d - |g|);
  }

  lemma SameValueConcat(a: string, b: string, f: string)
    requires AllDigits(a) && AllDigits(b) && AllDigits(f) && Value(a) == Value(b)
    ensures Value(a + f) == Value(b + f)
  {
    ValueConcat(a, f);
    ValueConcat(b, f);
  }

  lemma BaseUnitsDecompose(s: string, t: string, d: nat)
    requires ToBaseUnits(s, d).Some? && ToBaseUnits(t, d).Some?
    ensures ToBaseUnits(s, d) == ToBaseUnits(t, d) <==>
            Value(Whole(s)) == Value(Whole(t)) && StripTrailing(Fraction(s)) == StripTrailing(Fraction(t))
  {
    var fs, ft := Kept(Fraction(s), d), Kept(Fraction(t), d);
    KeptIsSame(Fraction(s), d);
    KeptIsSame(Fraction(t), d);
    SplitOfValue(Whole(s), PadEnd(fs, d));
    SplitOfValue(Whole(t), PadEnd(ft, d));
    if Value(Whole(s)) == Value(Whole(t)) && PadEnd(fs, d) == PadEnd(ft, d) {
      SameValueConcat(Whole(s), Whole(t), PadEnd(fs, d));
    }
    StripDeterminesPadded(fs, ft, d);
  }

  /**
   * Two plain decimals normalize alike exactly when they convert alike, at any scale
   * where both convert, and carry the same number of redundant leading zeros.
   */
  lemma NormalizeDecidesEquality(s: string, t: string, d: nat)
    requires ToBaseUnits(s, d).Some? && ToBaseUnits(t, d).Some?
    ensures NormalizeAmount(s) == NormalizeAmount(t) <==>
            ToBaseUnits(s, d) == ToBaseUnits(t, d) && RedundantZeros(s) == RedundantZeros(t)
  {
    NormalizeSplits(s, t);
    BaseUnitsDecompose(s, t, d);
    if Value(Whole(s)) == Value(Whole(t)) && RedundantZeros(s) == RedundantZeros(t) {
      SameValueSamePadding(Whole(s), Whole(t));
    }
  }

  /** Normalized spellings agree part by part. */
  lemma NormalizeSplits(s: string, t: string)
    requires IsPlainDecimal(s) && IsPlainDecimal(t)
    ensures NormalizeAmount(s) == NormalizeAmount(t) <==>
            Whole(s) == Whole(t) && StripTrailing(Fraction(s)) == StripTrailing(Fraction(t))
  {
    NormalizePlain(s);
    NormalizePlain(t);
    StripTrailingPads(Fraction(s), |Fraction(s)|);
    StripTrailingPads(Fraction(t), |Fraction(t)|);
    SplitWithFraction(Whole(s), StripTrailing(Fraction(s)));
    SplitWithFraction(Whole(t), StripTrailing(Fraction(t)));
  }

  /** Leading zeros are why the converse needs its second condition: one more converts alike and normalizes apart. */
  lemma LeadingZerosNormalizeApart(s: string, d: nat)
    requires ToBaseUnits(s, d).Some?
    ensures ToBaseUnits("0" + s, d) == ToBaseUnits(s, d)
    ensures NormalizeAmount("0" + s) != NormalizeAmount(s)
  {
    var z := "0" + s;
    var w, f := Whole(s), Fraction(s);
    Rejoin(s);
    assert z == WithFraction("0" + w, f);
    SplitWithFraction("0" + w, f);
    assert ("0" + w)[1..] == w;
    DropLeadingZero("0" + w);
    BaseUnitsDecompose(z, s, d);
    StripLeadingShorter(w);
    NormalizeDecidesEquality(z, s, d);
  }

  lemma {:induction false} StripLeadingShorter(w: string)
    ensures |StripLeading(w)| <= |w|
  {
    if |w| > 1 && w[0] == '0' {
      StripLeadingShorter(w[1..]);
    }
  }

  // ----- moneyString

  const MAX_AMOUNT_INTEGER_DIGITS: nat := 18
  const MAX_AMOUNT_DECIMALS: nat := 18
  const TWO_256: nat := 0x1_0000000000000000_0000000000000000_0000000000000000_0000000000000000

  /** What the `moneyString` schema accepts. */
  predicate MoneyString(s: string, maxDecimals: nat, maxIntegerDigits: nat) {
    IsPositiveDecimalString(s)
    && DecimalPlacesOf(s) <= maxDecimals
    && |StripAllLeading(Whole(s))| <= maxIntegerDigits
  }

  lemma LeadingDigitBound(s: string)
    requires AllDigits(s) && |s| > 0 && s[0] != '0'
    ensures Pow10(|s| - 1) <= Value(s) < Pow10(|s|)
  {
    ValueBound(s);
    var rest := s[1..];
    assert s == [s[0]] + rest && [s[0]] == [] + [s[0]];
    ValueSnoc([], s[0]);
    ValueConcat([s[0]], rest);
    ScaleMonotone(1, DigitValue(s[0]), |s| - 1);
  }

  lemma {:induction false} IntegerDigitBudget(s: string, m: nat)
    requires AllDigits(s)
    ensures |StripAllLeading(s)| <= m <==> Value(s) < Pow10(m)
  {
    if |s| > 0 && s[0] == '0' {
      DropLeadingZero(s);
      IntegerDigitBudget(s[1..], m);
    } else if |s| == 0 {
    } else {
      LeadingDigitBound(s);
      if |s| <= m { Pow10Monotone(|s|, m); } else { Pow10Monotone(m, |s| - 1); }
    }
  }

  lemma AllZerosConcat(a: string, b: string)
    ensures AllZeros(a + b) <==> AllZeros(a) && AllZeros(b)
  {
    if AllZeros(a + b) {
      assert forall i :: 0 <= i < |a| ==> a[i] == (a + b)[i];
      assert forall i :: 0 <= i < |b| ==> b[i] == (a + b)[|a| + i];
    }
  }

  lemma {:induction false} StripConcat(w: string, f: string)
    ensures |StripAllLeading(f)| <= |f|
    ensures if AllZeros(w) then StripAllLeading(w) == "" && StripAllLeading(w + f) == StripAllLeading(f)
            else StripAllLeading(w) != "" && StripAllLeading(w + f) == StripAllLeading(w) + f
    decreases |w| + |f|
  {
    if w == "" {
      assert w + f == f;
      if f != "" { StripConcat("", f[1..]); assert "" + f[1..] == f[1..]; }
    } else {
      StripConcat(w[1..], f);
      assert (w + f)[1..] == w[1..] + f;
      assert AllZeros(w) <==> w[0] == '0' && AllZeros(w[1..]);
    }
  }

  /**
   * Among amounts that convert at `d` places, the schema accepts exactly those that are spelt with at most
   * `maxDecimals` places and convert to 1 .. 10^(maxIntegerDigits + d) - 1.
   */
  lemma MoneyStringRange(s: string, d: nat, maxDecimals: nat, maxIntegerDigits: nat)
    requires ToBaseUnits(s, d).Some?
    ensures MoneyString(s, maxDecimals, maxIntegerDigits) <==>
            |Fraction(s)| <= maxDecimals && 1 <= ToBaseUnits(s, d).value < Pow10(maxIntegerDigits + d)
  {
    var w, f := Whole(s), Kept(Fraction(s), d);
    IntegerDigitBudget(w + PadEnd(f, d), maxIntegerDigits + d);
    StripConcat(w, PadEnd(f, d));
    ZerosValue(w + PadEnd(f, d));
    KeptIsSame(Fraction(s), d);
    AllZerosConcat(w, PadEnd(f, d));
    AllZerosConcat(f, Zeros(d - |f|));
  }

  /** The ledger schema on every string: a plain decimal of at most 18 places, positive and below 10^18. */
  lemma LedgerAmountsIff(s: string)
    ensures MoneyString(s, MAX_AMOUNT_DECIMALS, MAX_AMOUNT_INTEGER_DIGITS) <==>
            IsPlainDecimal(s) && |Fraction(s)| <= 18 && 0.0 < NumericValue(s) < 1_000_000_000_000_000_000.0
  {
    if IsPlainDecimal(s) {
      MoneyStringRange(s, |Fraction(s)|, MAX_AMOUNT_DECIMALS, MAX_AMOUNT_INTEGER_DIGITS);
      UnitsBound(s, |Fraction(s)|, MAX_AMOUNT_INTEGER_DIGITS);
      TwelveMoreZeros(0);
      SixMoreZeros(12);
    }
  }

  /** Base units in 1 .. 10^(k + d) - 1 are a number above 0 and below 10^k. */
  lemma UnitsBound(s: string, d: nat, k: nat)
    requires ToBaseUnits(s, d).Some?
    ensures 1 <= ToBaseUnits(s, d).value < Pow10(k + d) <==> 0.0 < NumericValue(s) < Pow10(k) as real
  {
    ConversionIsExact(s, d);
    ShiftedPower(k, d);
    ShiftedZero(d);
    ShiftedOrder(NumericValue(s), Pow10(k) as real, d);
    ShiftedOrder(0.0, NumericValue(s), d);
  }

  lemma {:induction false} ShiftedPower(k: nat, d: nat)
    ensures Shifted(Pow10(k) as real, d) == Pow10(k + d) as real
    decreases d
  {
    if d > 0 {
      assert Pow10(k + 1) as real == 10.0 * Pow10(k) as real;
      ShiftedPower(k + 1, d - 1);
    }
  }

  lemma {:induction false} ShiftedZero(d: nat)
    ensures Shifted(0.0, d) == 0.0
  {
    if d > 0 { ShiftedZero(d - 1); }
  }

  lemma SixMoreZeros(k: nat)
    ensures Pow10(k + 6) == 1_000_000 * Pow10(k)
  {
    assert Pow10(k + 2) == 100 * Pow10(k);
    assert Pow10(k + 4) == 100 * Pow10(k + 2);
    assert Pow10(k + 6) == 100 * Pow10(k + 4);
  }

  lemma TwelveMoreZeros(k: nat)
    ensures Pow10(k + 12) == 1_000_000_000_000 * Pow10(k)
  {
    SixMoreZeros(k);
    SixMoreZeros(k + 6);
  }

  lemma AmountFitsUint256(d: nat)
    requires d <= 18
    ensures Pow10(MAX_AMOUNT_INTEGER_DIGITS + d) < TWO_256
  {
    TwelveMoreZeros(0);
    TwelveMoreZeros(12);
    TwelveMoreZeros(24);
    Pow10Monotone(18 + d, 36);
  }

  /** Every amount the ledger schema accepts is a positive uint256 in base units. */
  lemma LedgerAmountsConvert(s: string, d: nat)
    requires MoneyString(s, MAX_AMOUNT_DECIMALS, MAX_AMOUNT_INTEGER_DIGITS)
    requires Fits(Fraction(s), d) && d <= 18
    ensures ToBaseUnits(s, d).Some?
    ensures 1 <= ToBaseUnits(s, d).value <= Pow10(18 + d) - 1
    ensures ToBaseUnits(s, d).value < TWO_256
  {
    MoneyStringRange(s, d, MAX_AMOUNT_DECIMALS, MAX_AMOUNT_INTEGER_DIGITS);
    AmountFitsUint256(d);
  }
}
