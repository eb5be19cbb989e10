/**
 * When a stored transfer is the one a request asks for, field by field: what `matchesIntent`
 * (src/services/transaction/transaction.service.ts:206-215) comes to without its normal forms.
 */
module TransferTerms {
  import opened Common
  import Money
  import DecimalColumn
  import opened Evm
  import opened Transfers

  /** One number, both where they are plain decimals. */
  ghost predicate SameNumber(a: string, b: string) {
    Money.IsPlainDecimal(a) && Money.IsPlainDecimal(b) ==> Money.NumericValue(a) == Money.NumericValue(b)
  }

  /** The chain, the asset and the number `req` asks for. */
  ghost predicate SameFigures(terms: Terms, req: SendRequest) {
    terms.chain == req.network && terms.asset == req.asset && SameNumber(terms.amount, req.amount)
  }

  /** And paid to `to`, up to case. */
  ghost predicate SameTransfer(terms: Terms, req: SendRequest, to: string) {
    SameFigures(terms, req) && (to == "" || SameLetters(terms.recipient, to))
  }

  /** What makes two spellings of an amount pass for one: the number and the redundant leading zeros. */
  ghost predicate AmountsMatch(stored: string, typed: string) {
    if Money.IsPlainDecimal(stored) && Money.IsPlainDecimal(typed) then
      && Money.NumericValue(stored) == Money.NumericValue(typed)
      && Money.RedundantZeros(stored) == Money.RedundantZeros(typed)
    else Money.NormalizeAmount(stored) == Money.NormalizeAmount(typed)
  }

  ghost predicate FiguresMatch(terms: Terms, req: SendRequest) {
    terms.chain == req.network && terms.asset == req.asset && AmountsMatch(terms.amount, req.amount)
  }

  /** No recipient given, or the same one up to case. */
  predicate PayeeMatches(terms: Terms, to: Option<string>) {
    to.None? || to.value == "" || SameLetters(terms.recipient, to.value)
  }

  lemma AmountsMatchIff(stored: string, typed: string)
    ensures Money.NormalizeAmount(stored) == Money.NormalizeAmount(typed) <==> AmountsMatch(stored, typed)
  {
    if Money.IsPlainDecimal(stored) && Money.IsPlainDecimal(typed) {
      var d := |Money.Fraction(stored)| + |Money.Fraction(typed)|;
      DecimalColumn.SameValueIffSameUnits(stored, typed, d);
      Money.NormalizeDecidesEquality(stored, typed, d);
    }
  }

  /** `matchesIntent` on every input: chain, asset, amount, and the recipient where there is one to compare. */
  lemma MatchesIff(terms: Terms, req: SendRequest, to: Option<string>)
    ensures MatchesIntent(terms, req, to) <==> FiguresMatch(terms, req) && PayeeMatches(terms, to)
  {
    AmountsMatchIff(terms.amount, req.amount);
    if to.Some? { LowerIsSameLetters(terms.recipient, to.value); }
  }

  /** A stored amount that passes for a typed one was typed as the same number. */
  lemma StoredIsSameNumber(typedFirst: string, typed: string)
    requires AmountsMatch(DecimalColumn.ReadBack(typedFirst), typed)
    ensures SameNumber(typedFirst, typed)
  {
    AmountsMatchIff(DecimalColumn.ReadBack(typedFirst), typed);
    if Money.IsPlainDecimal(typedFirst) && Money.IsPlainDecimal(typed) {
      DecimalColumn.StoredMatchesIff(typedFirst, typed);
    }
  }

  /** What is read back is the number that was stored, or is no plain decimal. */
  lemma ReadBackIsSameNumber(amount: string)
    ensures SameNumber(DecimalColumn.ReadBack(amount), amount)
  {
    if Money.IsPlainDecimal(amount) && Money.IsPlainDecimal(DecimalColumn.ReadBack(amount)) {
      DecimalColumn.ReadBackKeepsNumber(amount);
    }
  }
}
