/** Properties of the invoice engine that relate several of its steps: what a
    schema-valid payload can still fail on, how the separately rounded figures
    of the stored record drift from the aggregates, and the documented
    scenarios. */
module InvoiceProperties {
  import opened Wrappers
  import opened Text
  import opened Money
  import opened HttpErrors
  import opened Schema
  import opened InvoiceEngine

  // ---------------------------------------------------------------------
  // The schema and the engine

  /** An item whose quantity and unit cost are both finite; the schema also
      admits +Infinity for either. */
  predicate FiniteNumbers(item: RawItem) {
    && item.quantity.Some? && item.quantity.value.Fin?
    && item.unitCost.Some? && item.unitCost.value.Fin?
  }

  /** A payload the schema accepts has at least one item, so it never fails
      with a 400. Its items pass the engine's number checks exactly when all
      their quantities and unit costs are finite: +Infinity is the one value
      the schema admits there and the engine rejects. */
  lemma SchemaValidItemsPass(p: Payload, fmt: Formats)
    requires ValidPayload(p, fmt)
    ensures |NormalizeItems(p.items)| > 0
    ensures AllItemsValid(NormalizeItems(p.items)) <==> forall i :: 0 <= i < |p.items| ==> FiniteNumbers(p.items[i])
    ensures forall i :: 0 <= i < |p.items| ==>
      NormalizeItems(p.items)[i].description ==
        (if AllWhitespace(p.items[i].description.value) then DefaultDescription
         else Trim(p.items[i].description.value))
  {
    var items := NormalizeItems(p.items);
    forall i | 0 <= i < |items|
      ensures ItemNumbersValid(items[i]) <==> FiniteNumbers(p.items[i])
    {
      assert ValidItem(p.items[i], fmt);
    }
  }

  /** For a payload the schema accepts, the engine's verdict depends only on
      the item numbers being finite, the aggregates and the USD rate, and
      every rejection is a 422. */
  lemma SchemaValidBuildIff(p: Payload, fmt: Formats, userId: string)
    requires ValidPayload(p, fmt)
    ensures var items := NormalizeItems(p.items);
      BuildInvoiceData(p, userId).Success? <==>
        AllItemsValid(items) && Consistent(p, Subtotal(items)) && CheckUsdRate(p.currencyUsdRate).None?
    ensures BuildInvoiceData(p, userId).Success? ==> forall i :: 0 <= i < |p.items| ==> FiniteNumbers(p.items[i])
    ensures BuildInvoiceData(p, userId).Failure? ==> BuildInvoiceData(p, userId).error.status == 422
  {
    SchemaValidItemsPass(p, fmt);
    BuildSucceedsIff(p, userId);
  }

  /** The schema accepts a USD rate of 0 (it only asks for `>= 0`), but the
      engine rejects it: setting the rate of any valid payload to 0 keeps it
      valid and makes `buildInvoiceData` fail with a 422, on `currencyUsdRate`
      when the items and figures are otherwise acceptable. */
  lemma SchemaAdmitsZeroRate(p: Payload, fmt: Formats, userId: string)
    requires ValidPayload(p, fmt)
    ensures var q := p.(currencyUsdRate := Some(Fin(0.0)));
      && ValidPayload(q, fmt)
      && BuildInvoiceData(q, userId).Failure?
      && BuildInvoiceData(q, userId).error.status == 422
      && (AllItemsValid(NormalizeItems(q.items)) && Consistent(q, Subtotal(NormalizeItems(q.items))) ==>
            HasSingleIssueAt(BuildInvoiceData(q, userId).error, "currencyUsdRate"))
  {
    var q := p.(currencyUsdRate := Some(Fin(0.0)));
    assert ValidPayload(q, fmt);
    SchemaValidBuildIff(q, fmt, userId);
    SchemaValidItemsPass(q, fmt);
    BuildReportsLaterErrors(q, userId);
  }

  /** The schema accepts an infinite quantity, but the engine rejects it:
      making the first item's quantity +Infinity keeps any valid payload
      valid and makes `buildInvoiceData` fail with a 422 on
      `items.0.quantity`. */
  lemma SchemaAdmitsInfiniteQuantity(p: Payload, fmt: Formats, userId: string)
    requires ValidPayload(p, fmt)
    ensures var q := p.(items := p.items[0 := p.items[0].(quantity := Some(PosInf))]);
      && ValidPayload(q, fmt)
      && BuildInvoiceData(q, userId).Failure?
      && BuildInvoiceData(q, userId).error.status == 422
      && HasSingleIssueAt(BuildInvoiceData(q, userId).error, "items.0.quantity")
  {
    var q := p.(items := p.items[0 := p.items[0].(quantity := Some(PosInf))]);
    assert ValidItem(q.items[0], fmt) by {
      assert ValidItem(p.items[0], fmt);
    }
    assert forall i :: 0 <= i < |q.items| ==> ValidItem(q.items[i], fmt) by {
      forall i | 0 <= i < |q.items| ensures ValidItem(q.items[i], fmt) {
        if i != 0 {
          assert q.items[i] == p.items[i];
        }
      }
    }
    RejectedFirstQuantityReported(q, userId);
  }

  // ---------------------------------------------------------------------
  // Item errors

  /** A first-item quantity the engine rejects (negative, NaN or infinite) is
      reported on `items.0.quantity`, whatever else the payload holds. */
  lemma RejectedFirstQuantityReported(p: Payload, userId: string)
    requires |p.items| > 0 && p.items[0].quantity.Some? && !NonNegativeNumber(p.items[0].quantity.value)
    ensures BuildInvoiceData(p, userId).Failure?
    ensures BuildInvoiceData(p, userId).error.status == 422
    ensures HasSingleIssueAt(BuildInvoiceData(p, userId).error, "items.0.quantity")
  {
    var items := NormalizeItems(p.items);
    assert !ItemNumbersValid(items[0]);
    var e := CheckItem(items[0], 0).value;
    assert e.status == 422 && HasSingleIssueAt(e, "items.0.quantity") by {
      assert ItemPath(0, "quantity") == "items.0.quantity";
    }
    assert BuildInvoiceData(p, userId) == Failure(e) by {
      BuildReportsFirstInvalidItem(p, userId);
      var i :| 0 <= i < |items| && !ItemNumbersValid(items[i])
        && (forall j :: 0 <= j < i ==> ItemNumbersValid(items[j]))
        && BuildInvoiceData(p, userId) == Failure(CheckItem(items[i], i).value);
      assert i == 0;
    }
  }

  /** A negative quantity on the first item is reported on
      `items.0.quantity`. */
  lemma NegativeFirstQuantityReported(p: Payload, userId: string, q: real)
    requires |p.items| > 0 && p.items[0].quantity == Some(Fin(q)) && q < 0.0
    ensures BuildInvoiceData(p, userId).Failure?
    ensures BuildInvoiceData(p, userId).error.status == 422
    ensures HasSingleIssueAt(BuildInvoiceData(p, userId).error, "items.0.quantity")
  {
    RejectedFirstQuantityReported(p, userId);
  }

  // ---------------------------------------------------------------------
  // Rounding once versus rounding each item

  /** The sum of the stored item amounts, each rounded on its own. */
  function StoredSum(items: seq<Item>): (r: real)
    requires AllItemsValid(items)
    ensures r >= 0.0
  {
    if |items| == 0 then 0.0 else Round(Product(items[0]), MoneyScale) + StoredSum(items[1..])
  }

  /** Each item amount is at most half a cent off its product, so their sum
      drifts from the exact sum by at most half a cent per item. */
  lemma {:induction false} StoredSumDrift(items: seq<Item>)
    requires AllItemsValid(items)
    ensures -(|items| as real) * 0.005 <= StoredSum(items) - LineSum(items) <= |items| as real * 0.005
  {
    if |items| > 0 {
      RoundMoneyError(Product(items[0]));
      StoredSumDrift(items[1..]);
    }
  }

  /** The subtotal, rounded once, and the sum of the stored item amounts are
      at most `(n + 1)` half-cents apart. */
  lemma SubtotalVersusStoredItems(items: seq<Item>)
    requires AllItemsValid(items)
    ensures Abs(Round(LineSum(items), MoneyScale) - StoredSum(items)) <= (|items| + 1) as real * 0.005
  {
    StoredSumDrift(items);
    RoundMoneyError(LineSum(items));
  }

  /** Six items of one unit at half a cent: the subtotal is 0.03 while the
      stored item amounts add up to 0.06, further apart than the tolerance. */
  lemma StoredItemsCanMissSubtotal()
    ensures var items := seq(6, _ => Item("Item", Fin(1.0), Fin(0.005)));
      && AllItemsValid(items)
      && Round(LineSum(items), MoneyScale) == 0.03
      && StoredSum(items) == 0.06
      && StoredSum(items) - Round(LineSum(items), MoneyScale) > Tolerance
  {
    var it := Item("Item", Fin(1.0), Fin(0.005));
    assert Product(it) == 0.005;
    RoundToCents(0.005, 1);
    UniformSums(it, 6);
    RoundToCents(0.03, 3);
  }

  /** `n` copies of one item: the exact sum is `n` products and the stored
      amounts sum to `n` rounded products. */
  lemma {:induction false} UniformSums(it: Item, n: nat)
    requires ItemNumbersValid(it)
    ensures var items := seq(n, _ => it);
      && AllItemsValid(items)
      && LineSum(items) == n as real * Product(it)
      && StoredSum(items) == n as real * Round(Product(it), MoneyScale)
  {
    var items := seq(n, _ => it);
    if n > 0 {
      assert items[1..] == seq(n - 1, _ => it);
      UniformSums(it, n - 1);
      assert n as real * Product(it) == Product(it) + (n - 1) as real * Product(it);
      assert n as real * Round(Product(it), MoneyScale)
        == Round(Product(it), MoneyScale) + (n - 1) as real * Round(Product(it), MoneyScale);
    }
  }

  // ---------------------------------------------------------------------
  // Balance and amount paid in the stored record

  /** The balance is `max(total - paid, 0)` rounded; against the amount paid
      as stored (rounded separately) it is either `max(total - stored paid, 0)`
      or one cent more. */
  lemma StoredBalanceWithinCent(total: real, paid: real)
    requires OnGrid(total, MoneyScale) && total >= 0.0 && paid >= 0.0
    ensures var balance := Round(Max(total - paid, 0.0), MoneyScale);
      var storedPaid := Round(paid, MoneyScale);
      || balance == Max(total - storedPaid, 0.0)
      || balance == total - storedPaid + 0.01
  {
    var storedPaid := Round(paid, MoneyScale);
    if total - paid > 0.0 {
      RoundShift(total, -paid, MoneyScale);
      RoundNegate(paid, MoneyScale);
      MoneyScaled(1.0);
      RoundMonotone(paid, total, MoneyScale);
      RoundOnGrid(total, MoneyScale);
    } else {
      ScaledZero(MoneyScale);
      RoundOnGrid(0.0, MoneyScale);
      RoundMonotone(total, paid, MoneyScale);
      RoundOnGrid(total, MoneyScale);
    }
  }

  /** The cent does occur: a total of 1 with 0.125 paid leaves a balance of
      0.88, while the stored amount paid is 0.13. */
  lemma StoredBalanceCentOff()
    ensures Round(Max(1.0 - 0.125, 0.0), MoneyScale) == 0.88
    ensures Round(0.125, MoneyScale) == 0.13
    ensures Round(Max(1.0 - 0.125, 0.0), MoneyScale) != 1.0 - Round(0.125, MoneyScale)
  {
    RoundToCents(0.875, 88);
    RoundToCents(0.125, 13);
  }

  /** A USD rate below half a millionth passes the engine's check but is
      stored, at six decimals, as 0. */
  lemma StoredRateCanVanish()
    ensures CheckUsdRate(Some(Fin(0.0000001))).None?
    ensures RoundNum(Fin(0.0000001), RateScale) == Fin(0.0)
  {
    RateScaled(0.0000001);
    RateScaled(0.0);
    RoundToGridPoint(0.0000001, RateScale, 0);
  }

  // ---------------------------------------------------------------------
  // Errors after the items

  /** Paying more than the tolerance above the total is reported on
      `amountPaid` once the tax figures agree. */
  lemma OverpaymentReported(p: Payload, userId: string)
    requires var items := NormalizeItems(p.items); |items| > 0 && AllItemsValid(items)
    requires var subtotal := Subtotal(NormalizeItems(p.items));
      && TaxConsistent(p, subtotal)
      && NonNegativeNumber(PaidOf(p))
      && PaidOf(p).v - Round(subtotal + TaxFor(subtotal, p.taxRate), MoneyScale) > Tolerance
    ensures BuildInvoiceData(p, userId).Failure?
    ensures BuildInvoiceData(p, userId).error.status == 422
    ensures HasSingleIssueAt(BuildInvoiceData(p, userId).error, "amountPaid")
  {
    AggregateOverpaid(p, Subtotal(NormalizeItems(p.items)));
    BuildReportsLaterErrors(p, userId);
  }

  lemma AggregateOverpaid(p: Payload, subtotal: real)
    requires subtotal >= 0.0
    requires && TaxConsistent(p, subtotal)
      && NonNegativeNumber(PaidOf(p))
      && PaidOf(p).v - Round(subtotal + TaxFor(subtotal, p.taxRate), MoneyScale) > Tolerance
    ensures Aggregate(p, subtotal).Failure?
    ensures HasSingleIssueAt(Aggregate(p, subtotal).error, "amountPaid")
  {
    var tax := TaxFor(subtotal, p.taxRate);
    var total := Round(subtotal + tax, MoneyScale);
    assert !PaymentConsistent(p, total);
    var e := CheckOverpayment(PaidOf(p).v, total).value;
    assert TaxStage(p, subtotal) == Success(tax);
    assert PaymentStage(p, total) == Failure(e) by {
      assert CheckNonNegative(PaidOf(p), "amountPaid").None?;
    }
    assert AfterTax(p, subtotal, tax) == Failure(e);
  }

  /** A non-positive USD rate on an otherwise consistent payload is reported
      on `currencyUsdRate`. */
  lemma NonPositiveRateReported(p: Payload, userId: string, rate: real)
    requires var items := NormalizeItems(p.items);
      |items| > 0 && AllItemsValid(items) && Consistent(p, Subtotal(items))
    requires p.currencyUsdRate == Some(Fin(rate)) && rate <= 0.0
    ensures BuildInvoiceData(p, userId).Failure?
    ensures BuildInvoiceData(p, userId).error.status == 422
    ensures HasSingleIssueAt(BuildInvoiceData(p, userId).error, "currencyUsdRate")
  {
    BuildReportsLaterErrors(p, userId);
  }

  // ---------------------------------------------------------------------
  // The stored record

  /** On success the stored record carries the computed figures unchanged
      (they are already on the cent grid), the balance is never negative, the
      tax fields are null exactly when no rate was given, and each stored item
      amount is its own product rounded. */
  lemma BuildStoresComputedFigures(p: Payload, userId: string)
    requires BuildInvoiceData(p, userId).Success?
    ensures var b := BuildInvoiceData(p, userId).value;
      && b.data.subtotal == b.computed.subtotal
      && b.data.total == b.computed.total
      && b.data.balanceDue == b.computed.balanceDue >= 0.0
      && b.computed.balanceDue == Round(Max(b.computed.total - b.computed.amountPaid, 0.0), MoneyScale)
      && b.data.amountPaid == Round(PaidOf(p).v, MoneyScale)
      && (b.data.taxRate.None? <==> p.taxRate.None?)
      && (b.data.taxAmount.None? <==> p.taxRate.None?)
      && (p.taxRate.None? ==> b.computed.taxAmount == 0.0)
      && (p.taxRate.Some? ==> b.data.taxAmount == Some(b.computed.taxAmount))
      && |b.data.items| == |p.items|
  {
    var items := NormalizeItems(p.items);
    BuildComputes(p, userId);
    StoredFigures(p, userId, items, Subtotal(items));
  }

  lemma StoredFigures(p: Payload, userId: string, items: seq<Item>, subtotal: real)
    requires AllItemsValid(items) && subtotal >= 0.0 && OnGrid(subtotal, MoneyScale)
    requires Consistent(p, subtotal)
    ensures var c := Expected(p, subtotal);
      var d := Assemble(p, userId, items, c);
      && d.subtotal == c.subtotal
      && d.total == c.total
      && d.balanceDue == c.balanceDue >= 0.0
      && d.amountPaid == Round(PaidOf(p).v, MoneyScale)
      && (d.taxRate.None? <==> p.taxRate.None?)
      && (d.taxAmount.None? <==> p.taxRate.None?)
      && (p.taxRate.None? ==> c.taxAmount == 0.0)
      && (p.taxRate.Some? ==> d.taxAmount == Some(c.taxAmount))
      && |d.items| == |items|
  {
    var c := Expected(p, subtotal);
    RoundOnGrid(c.subtotal, MoneyScale);
    RoundOnGrid(c.total, MoneyScale);
    RoundOnGrid(c.balanceDue, MoneyScale);
    RoundOnGrid(c.taxAmount, MoneyScale);
    ScaledZero(MoneyScale);
    RoundMonotone(0.0, Max(c.total - c.amountPaid, 0.0), MoneyScale);
    RoundOnGrid(0.0, MoneyScale);
  }

  // ---------------------------------------------------------------------
  // Documented scenarios

  /** Two items, 2 x 50 and 1 x 25, a 10% tax rate and 100 already paid,
      with the client's figures matching. */
  function ScenarioPayload(): Payload {
    Payload("Fact-0001", None, "2024-01-15T00:00:00.000Z", None, None, "Client", None, None, None, "USD",
      Some(Fin(125.0)), Some(Fin(10.0)), Some(Fin(12.5)), Some(Fin(137.5)), Some(Fin(100.0)), Some(Fin(37.5)),
      None, None, None, None, None,
      [RawItem(None, None, Some(Fin(2.0)), Some(Fin(50.0)), None),
       RawItem(None, None, Some(Fin(1.0)), Some(Fin(25.0)), None)])
  }

  /** The scenario's figures: the items sum to 125 and the client's values
      agree with the recomputed ones. */
  lemma ScenarioFigures(p: Payload)
    requires p.items == ScenarioPayload().items
    requires p.subtotal == Some(Fin(125.0)) && p.taxRate == Some(Fin(10.0)) && p.taxAmount == Some(Fin(12.5))
    requires p.total == Some(Fin(137.5)) && p.amountPaid == Some(Fin(100.0)) && p.balanceDue == Some(Fin(37.5))
    ensures var items := NormalizeItems(p.items);
      && |items| == 2 && AllItemsValid(items)
      && Subtotal(items) == 125.0
      && TaxFor(125.0, p.taxRate) == 12.5
      && Consistent(p, Subtotal(items))
      && Expected(p, 125.0) == Computed(125.0, Some(10.0), 12.5, 137.5, 100.0, 37.5)
  {
    var items := NormalizeItems(p.items);
    assert items == [Item(DefaultDescription, Fin(2.0), Fin(50.0)), Item(DefaultDescription, Fin(1.0), Fin(25.0))];
    assert AllItemsValid(items);
    assert LineSum(items) == 125.0 by {
      var rest := items[1..];
      assert rest[1..] == [] && LineSum(rest[1..]) == 0.0;
      assert LineSum(rest) == Product(rest[0]) + LineSum(rest[1..]) == 25.0;
      assert LineSum(items) == Product(items[0]) + LineSum(rest);
    }
    RoundToCents(125.0, 12500);
    RoundToCents(12.5, 1250);
    assert TaxFor(125.0, p.taxRate) == 12.5;
    RoundToCents(137.5, 13750);
    RoundToCents(37.5, 3750);
    assert TaxConsistent(p, 125.0);
    assert PaymentConsistent(p, 137.5);
  }

  /** The scenario is accepted with subtotal 125.00, tax 12.50, total 137.50
      and balance due 37.50. */
  lemma ScenarioComputes(userId: string)
    ensures BuildInvoiceData(ScenarioPayload(), userId).Success?
    ensures BuildInvoiceData(ScenarioPayload(), userId).value.computed
      == Computed(125.0, Some(10.0), 12.5, 137.5, 100.0, 37.5)
  {
    var p := ScenarioPayload();
    ScenarioFigures(p);
    BuildSucceedsIff(p, userId);
    BuildComputes(p, userId);
  }

  /** The same scenario with a USD rate of -1 is rejected on
      `currencyUsdRate`. */
  lemma ScenarioNegativeRate(userId: string)
    ensures var p := ScenarioPayload().(currencyUsdRate := Some(Fin(-1.0)));
      && BuildInvoiceData(p, userId).Failure?
      && BuildInvoiceData(p, userId).error.status == 422
      && HasSingleIssueAt(BuildInvoiceData(p, userId).error, "currencyUsdRate")
  {
    var p := ScenarioPayload().(currencyUsdRate := Some(Fin(-1.0)));
    ScenarioFigures(p);
    NonPositiveRateReported(p, userId, -1.0);
  }
}
