/** Properties of the invoice editor helpers that relate several calls. */
module InvoiceBuilderProperties {
  import opened Wrappers
  import opened Text
  import opened Money
  import opened InvoiceBuilder

  /** With an idempotent cleaning, cleaning an already cleaned record
      changes nothing. */
  lemma SanitizeIdempotent(keys: seq<string>, clean: string -> string, issuer: IssuerInput)
    requires forall s :: clean(clean(s)) == clean(s)
    requires Sanitize(keys, clean, issuer).Some?
    ensures Sanitize(keys, clean, AsInput(Sanitize(keys, clean, issuer).value)) == Sanitize(keys, clean, issuer)
  {
    var m := Sanitize(keys, clean, issuer).value;
    CleanFieldsOfClean(keys, m, clean);
    var k :| k in m;
  }

  /** Cleaning an already cleaned issuer changes nothing. */
  lemma SanitizeIssuerIdempotent(issuer: IssuerInput)
    requires SanitizeIssuer(issuer).Some?
    ensures SanitizeIssuer(AsInput(SanitizeIssuer(issuer).value)) == SanitizeIssuer(issuer)
  {
    forall s ensures Trim(Trim(s)) == Trim(s) {
      TrimIdempotent(s);
    }
    SanitizeIdempotent(IssuerKeys, Trim, issuer);
  }

  /** Without a tax rate the balance shown is the exact sum of the lines less
      the amount paid, so paying more than the total shows a negative
      balance on the form, where the server would store zero. */
  lemma UntaxedFormBalance(items: seq<FormItem>, paid: real, sum: real)
    requires FiniteForm(items) && sum == ExactSum(items)
    ensures ComputeFormTotals(items, None, Some(Fin(paid))).balanceDue == Fin(sum - paid)
  {
    UntaxedTotals(items, paid);
    UntaxedBalance(sum, paid);
  }

  lemma UntaxedTotals(items: seq<FormItem>, paid: real)
    requires FiniteForm(items)
    ensures ComputeFormTotals(items, None, Some(Fin(paid))) == TotalsFrom(Fin(ExactSum(items)), Fin(0.0), Fin(paid))
  {
    assert NumberOrZero(Some(Fin(paid))) == Fin(paid);
    assert NumberOrZero(None) == Fin(0.0);
  }

  lemma UntaxedBalance(sum: real, paid: real)
    ensures TotalsFrom(Fin(sum), Fin(0.0), Fin(paid)).balanceDue == Fin(sum - paid)
  {
    assert TaxOn(sum, 0.0) == 0.0;
  }

  /** One line of 1 at 10 paid with 15 shows a balance of -5. */
  lemma FormBalanceCanBeNegative()
    ensures var items := [FormItem(None, None, Some(Fin(1.0)), Some(Fin(10.0)))];
      ComputeFormTotals(items, None, Some(Fin(15.0))).balanceDue == Fin(-5.0)
  {
    var items := [FormItem(None, None, Some(Fin(1.0)), Some(Fin(10.0)))];
    assert FiniteForm(items) by { assert FiniteLine(items[0]); }
    assert ExactSum(items) == 10.0 by { assert items[..0] == []; }
    UntaxedFormBalance(items, 15.0, 10.0);
  }
}
