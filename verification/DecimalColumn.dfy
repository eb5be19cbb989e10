/**
 * What an amount looks like when it is read back from its `Decimal(36, 18)` column with `toString()`:
 * the canonical spelling, or exponent notation below 10^-6.
 */
module DecimalColumn {
  import opened Common
  import opened Money

  /** Positive, with at least six zeros right after the point. */
  predicate IsTiny(s: string)
    requires IsPlainDecimal(s)
  {
    AllZeros(Whole(s)) && |Fraction(s)| > 6 && AllZeros(Fraction(s)[..6]) && !AllZeros(Fraction(s))
  }

  function ZerosInFront(f: string): (k: nat)
    ensures k <= |f| && AllZeros(f[..k]) && (k < |f| ==> f[k] != '0')
  {
    if f == "" || f[0] != '0' then 0
    else
      var k := 1 + ZerosInFront(f[1..]);
      assert forall i :: 1 <= i < k ==> f[i] == f[1..][..k - 1][i - 1];
      k
  }

  /** The digits after the zeros, the point after the first of them. */
  function Mantissa(f: string): string {
    var digits := f[ZerosInFront(f)..];
    if digits == "" then "" else WithFraction(digits[..1], digits[1..])
  }

  /** `0.0000012` as `1.2e-6`, from the digits after the point. */
  function ExponentForm(f: string): string {
    Mantissa(f) + "e-" + Digits(ZerosInFront(f) + 1)
  }

  /** The stored amount, read back. What is not a plain decimal never reaches the column. */
  function ReadBack(s: string): string {
    if !IsPlainDecimal(s) then s
    else if IsTiny(s) then ExponentForm(StripTrailing(Fraction(s)))
    else Canonical(s)
  }

  /** Tiny means a value strictly between 0 and 10^-6. */
  lemma TinyMeaning(s: string)
    requires IsPlainDecimal(s)
    ensures IsTiny(s) <==> 0.0 < NumericValue(s) < 0.000001
  {
    var w, f := Whole(s), Fraction(s);
    FractionBounds(f);
    ZerosValue(w);
    var padded := if |f| < 6 then PadEnd(f, 6) else f;
    if |f| < 6 { PaddedFraction(f, 6); AllZerosConcat(f, Zeros(6 - |f|)); }
    ShiftedDigits(w, padded, 6);
    FractionBounds(padded[6..]);
    ZerosValue(w + padded[..6]);
    AllZerosConcat(w, padded[..6]);
    AllZerosConcat(padded[..6], padded[6..]);
    assert padded[..6] + padded[6..] == padded;
    MillionthShifted();
    ShiftedOrder(NumericValue(s), 0.000001, 6);
  }

  lemma MillionthShifted()
    ensures Shifted(0.000001, 6) == 1.0
  {
    assert Shifted(0.000001, 6) == Shifted(0.00001, 5) == Shifted(0.0001, 4) == Shifted(0.001, 3);
    assert Shifted(0.001, 3) == Shifted(0.01, 2) == Shifted(0.1, 1);
  }

  /** `m` is from 1 up to 10, and `x` with its point moved `n` places to the right. */
  ghost predicate Spells(m: string, n: nat, x: real) {
    IsPlainDecimal(m) && 1.0 <= NumericValue(m) < 10.0 && Shifted(x, n) == NumericValue(m)
  }

  /** One more zero in front, one more place to move. */
  lemma SpellsOneMore(m: string, n: nat, x: real, y: real)
    requires y == 10.0 * x && Spells(m, n, y)
    ensures Spells(m, n + 1, x)
  {
  }

  /**
   * The exponent form spells the number: a mantissa from 1 up to 10, and the exponent that moves its point back
   * to where it was.
   */
  lemma {:induction false} ExponentMeaning(f: string)
    requires f != "" && AllDigits(f) && !AllZeros(f)
    ensures Spells(Mantissa(f), ZerosInFront(f) + 1, FractionValue(f))
  {
    if f[0] == '0' {
      var g := f[1..];
      ZeroInFront(f);
      ExponentMeaning(g);
      SpellsOneMore(Mantissa(g), ZerosInFront(g) + 1, FractionValue(f), FractionValue(g));
    } else {
      NoZeroInFront(f);
    }
  }

  lemma ZeroInFront(f: string)
    requires f != "" && AllDigits(f) && !AllZeros(f) && f[0] == '0'
    ensures f[1..] != "" && !AllZeros(f[1..]) && Mantissa(f) == Mantissa(f[1..])
            && ZerosInFront(f) == ZerosInFront(f[1..]) + 1
    ensures 10.0 * FractionValue(f) == FractionValue(f[1..])
  {
    assert f[1..][ZerosInFront(f[1..])..] == f[ZerosInFront(f)..];
  }

  lemma NoZeroInFront(f: string)
    requires AllDigits(f) && f != "" && f[0] != '0'
    ensures ZerosInFront(f) == 0 && Spells(Mantissa(f), 1, FractionValue(f))
  {
    var (w, r) := (f[..1], f[1..]);
    SplitWithFraction(w, r);
    FractionBounds(r);
    assert f[0..] == f && w == [] + [f[0]];
    ValueSnoc([], f[0]);
  }

  // ----- converting what was read back

  lemma LetterIsNotPlain(s: string, i: nat)
    requires i < |s| && !IsDigit(s[i]) && s[i] != '.'
    ensures !IsPlainDecimal(s)
  {
    match IndexOf(s, '.')
    case None => assert Whole(s)[i] == s[i];
    case Some(p) => if i < p { assert Whole(s)[i] == s[i]; } else { assert Fraction(s)[i - p - 1] == s[i]; }
  }

  lemma ExponentHasLetter(f: string)
    ensures 'e' in ExponentForm(f)
  {
    var head := ExponentForm(f)[..|ExponentForm(f)| - 2 - |Digits(ZerosInFront(f) + 1)|];
    assert ExponentForm(f)[|head|] == 'e';
  }

  lemma CanonicalIsSame(s: string)
    requires IsPlainDecimal(s)
    ensures IsPlainDecimal(Canonical(s)) && NumericValue(Canonical(s)) == NumericValue(s)
    ensures Whole(Canonical(s)) == StripLeading(Whole(s)) && Fraction(Canonical(s)) == StripTrailing(Fraction(s))
  {
    var w, f := Whole(s), Fraction(s);
    StripLeadingShape(w);
    StripLeadingDigits(w);
    DigitsValue(Value(w));
    StripTrailingPads(f, |f|);
    SplitWithFraction(StripLeading(w), StripTrailing(f));
    PaddedFraction(StripTrailing(f), |f|);
    assert PadEnd(f, |f|) == f;
  }

  /** A stored amount converts as it was typed, unless it is tiny: then it does not convert at any scale. */
  lemma ReadBackConverts(s: string, d: nat)
    requires IsPlainDecimal(s)
    ensures ToBaseUnits(ReadBack(s), d) == if IsTiny(s) then None else ToBaseUnits(s, d)
  {
    if IsTiny(s) {
      ExponentHasLetter(StripTrailing(Fraction(s)));
      var i :| 0 <= i < |ReadBack(s)| && ReadBack(s)[i] == 'e';
      LetterIsNotPlain(ReadBack(s), i);
    } else {
      CanonicalIsSame(s);
      if ToBaseUnits(s, d).Some? {
        ParserDomain(s, d, ToBaseUnits(s, d).value);
        ParserDomain(Canonical(s), d, ToBaseUnits(s, d).value);
      }
      if ToBaseUnits(Canonical(s), d).Some? {
        ParserDomain(s, d, ToBaseUnits(Canonical(s), d).value);
        ParserDomain(Canonical(s), d, ToBaseUnits(Canonical(s), d).value);
      }
    }
  }

  /** A tiny amount is read back as the same number, in exponent form. */
  lemma TinyReadBack(s: string)
    requires IsPlainDecimal(s) && IsTiny(s)
    ensures var g := StripTrailing(Fraction(s));
            && ReadBack(s) == Mantissa(g) + "e-" + Digits(ZerosInFront(g) + 1)
            && Spells(Mantissa(g), ZerosInFront(g) + 1, NumericValue(s))
  {
    var (f, g) := (Fraction(s), StripTrailing(Fraction(s)));
    StripTrailingPads(f, |f|);
    PaddedFraction(g, |f|);
    assert PadEnd(f, |f|) == f;
    ZerosValue(Whole(s));
    AllZerosConcat(g, Zeros(|f| - |g|));
    ExponentMeaning(g);
  }

  /** What is read back as a plain decimal is the number that was stored. */
  lemma ReadBackKeepsNumber(s: string)
    requires IsPlainDecimal(s) && IsPlainDecimal(ReadBack(s))
    ensures !IsTiny(s) && NumericValue(ReadBack(s)) == NumericValue(s)
  {
    ReadBackConverts(s, |Fraction(ReadBack(s))|);
    if !IsTiny(s) { CanonicalIsSame(s); }
  }

  // ----- matching a retry against what was read back

  lemma {:induction false} TrimStartKeeps(s: string, c: char)
    requires c in s && !IsSpace(c)
    ensures c in TrimStart(s)
  {
    if |s| > 0 && IsSpace(s[0]) {
      assert s == [s[0]] + s[1..];
      TrimStartKeeps(s[1..], c);
    }
  }

  lemma {:induction false} TrimEndKeeps(s: string, c: char)
    requires c in s && !IsSpace(c)
    ensures c in TrimEnd(s)
  {
    if |s| > 0 && IsSpace(s[|s| - 1]) {
      assert s == s[..|s| - 1] + [s[|s| - 1]];
      TrimEndKeeps(s[..|s| - 1], c);
    }
  }

  lemma {:induction false} StripTrailingKeeps(s: string, c: char)
    requires c in s && c != '0'
    ensures c in StripTrailing(s)
  {
    if |s| > 0 && s[|s| - 1] == '0' {
      assert s == s[..|s| - 1] + [s[|s| - 1]];
      StripTrailingKeeps(s[..|s| - 1], c);
    }
  }

  lemma NormalizeKeepsLetter(s: string)
    requires 'e' in s
    ensures 'e' in NormalizeAmount(s)
  {
    TrimStartKeeps(s, 'e');
    TrimEndKeeps(TrimStart(s), 'e');
    var t := TrimEnd(TrimStart(s));
    StripTrailingKeeps(t, 'e');
    var u := StripTrailing(t);
    assert u == u[..|u| - 1] + [u[|u| - 1]];
  }

  lemma PlainHasNoLetter(s: string)
    requires IsPlainDecimal(s)
    ensures 'e' !in NormalizeAmount(s)
  {
    NormalizePlain(s);
    StripTrailingPads(Fraction(s), |Fraction(s)|);
    SplitWithFraction(Whole(s), StripTrailing(Fraction(s)));
    if 'e' in NormalizeAmount(s) {
      var i :| 0 <= i < |NormalizeAmount(s)| && NormalizeAmount(s)[i] == 'e';
      LetterIsNotPlain(NormalizeAmount(s), i);
    }
  }

  lemma SameValueIffSameUnits(a: string, b: string, d: nat)
    requires ToBaseUnits(a, d).Some? && ToBaseUnits(b, d).Some?
    ensures ToBaseUnits(a, d) == ToBaseUnits(b, d) <==> NumericValue(a) == NumericValue(b)
  {
    ConversionIsExact(a, d);
    ConversionIsExact(b, d);
    ShiftedOrder(NumericValue(a), NumericValue(b), d);
    ShiftedOrder(NumericValue(b), NumericValue(a), d);
  }

  lemma {:induction false} StripLeadingTwice(w: string)
    ensures StripLeading(StripLeading(w)) == StripLeading(w)
  {
    if |w| > 1 && w[0] == '0' { StripLeadingTwice(w[1..]); }
  }

  /**
   * A typed amount matches a stored one exactly when they are one number, the typed one has no redundant
   * leading zero, and the stored one is not tiny.
   */
  lemma StoredMatchesIff(stored: string, typed: string)
    requires IsPlainDecimal(stored) && IsPlainDecimal(typed)
    ensures NormalizeAmount(ReadBack(stored)) == NormalizeAmount(typed) <==>
            NumericValue(stored) == NumericValue(typed) && RedundantZeros(typed) == 0 && !IsTiny(stored)
  {
    if IsTiny(stored) {
      ExponentHasLetter(StripTrailing(Fraction(stored)));
      NormalizeKeepsLetter(ReadBack(stored));
      PlainHasNoLetter(typed);
    } else {
      CanonicalIsSame(stored);
      var d := |Fraction(Canonical(stored))| + |Fraction(typed)|;
      NormalizeDecidesEquality(Canonical(stored), typed, d);
      SameValueIffSameUnits(Canonical(stored), typed, d);
      StripLeadingTwice(Whole(stored));
    }
  }

  /**
   * A retry that resends the very amount it sent first is recognised exactly when that amount is not tiny and
   * not zero-padded.
   */
  lemma RetryRecognisedIff(amount: string)
    requires IsPlainDecimal(amount)
    ensures NormalizeAmount(ReadBack(amount)) == NormalizeAmount(amount) <==>
              RedundantZeros(amount) == 0 && !IsTiny(amount)
  {
    StoredMatchesIff(amount, amount);
  }
}
