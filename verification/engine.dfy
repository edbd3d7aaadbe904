/** The server's invoice engine (`buildInvoiceData` and `prismaDuplicateGuard`):
    it normalises the line items, recomputes every aggregate with a single
    rounding rule, checks the client's figures against them within a tolerance,
    and produces the canonical record to persist plus the `computed` block. */
module InvoiceEngine {
  import opened Wrappers
  import opened Text
  import opened Money
  import opened HttpErrors
  import opened Schema

  /** The description given to an item whose description is blank or missing. */
  const DefaultDescription: string := "Item"

  const NoItemsMessage: string := "Une facture doit contenir au moins un élément."
  const OverpaidMessage: string := "Le montant payé dépasse le total calculé"
  const UsdRateMessage: string := "Le taux de conversion USD doit être supérieur à 0."
  const UsdRateIssueMessage: string := "Le taux USD doit être supérieur à 0"

  function MustBePositiveMessage(field: string): string {
    "Le champ " + field + " doit être positif"
  }

  function InconsistentMessage(field: string): string {
    "Le champ " + field + " est incohérent par rapport aux éléments"
  }

  function ExpectedValueMessage(computed: real): string {
    "Valeur attendue: " + Fixed2(computed)
  }

  function PaidAtMostMessage(total: real): string {
    "Le montant payé doit être inférieur ou égal à " + Fixed2(total)
  }

  function DuplicateMessage(field: string): string {
    "Une facture avec ce " + field + " existe déjà."
  }

  /** The `{ error: [{ path: [field], message }] }` payload every 422 and 409 carries. */
  function SingleIssue(field: string, message: string): (p: ErrorPayload)
    ensures |p.error| == 1 && p.error[0].path == [field]
  {
    ErrorPayload([Issue([field], message)])
  }

  /** The path of a numeric field of the item at `index`: `items.<index>.<name>`. */
  function ItemPath(index: nat, name: string): string {
    "items." + NatToString(index) + "." + name
  }

  /** `sanitizeString`: the trimmed text, or nothing when absent or blank. */
  function SanitizeString(value: Option<string>): (r: Option<string>)
    ensures r.Some? <==> value.Some? && !AllWhitespace(value.value)
    ensures r.Some? ==> r.value == Trim(value.value) && |r.value| > 0
  {
    match value
    case None => None
    case Some(s) => var t := Trim(s); if |t| > 0 then Some(t) else None
  }

  /** A line item after normalisation. */
  datatype Item = Item(description: string, quantity: Num, unitCost: Num)

  /** The `map` over the raw items: a missing number counts as 0, a blank or
      missing description becomes `"Item"`. */
  function NormalizeItem(raw: RawItem): (item: Item)
    ensures |item.description| > 0
    ensures raw.description.None? || AllWhitespace(raw.description.value) ==> item.description == DefaultDescription
    ensures raw.description.Some? && !AllWhitespace(raw.description.value) ==> item.description == Trim(raw.description.value)
    ensures item.quantity == (if raw.quantity.Some? then raw.quantity.value else Fin(0.0))
    ensures item.unitCost == (if raw.unitCost.Some? then raw.unitCost.value else Fin(0.0))
  {
    Item(SanitizeString(raw.description).GetOr(DefaultDescription),
         raw.quantity.GetOr(Fin(0.0)),
         raw.unitCost.GetOr(Fin(0.0)))
  }

  function NormalizeItems(raw: seq<RawItem>): (items: seq<Item>)
    ensures |items| == |raw|
    ensures forall i :: 0 <= i < |raw| ==> items[i] == NormalizeItem(raw[i])
  {
    seq(|raw|, i requires 0 <= i < |raw| => NormalizeItem(raw[i]))
  }

  /** What `assertNonNegative` accepts: a finite number that is not negative. */
  predicate NonNegativeNumber(n: Num) {
    n.Fin? && n.v >= 0.0
  }

  /** `assertNonNegative`: no error exactly when the value is a finite number
      that is not negative; otherwise a 422 naming the field. */
  function CheckNonNegative(value: Num, field: string): (r: Option<HttpError>)
    ensures r.None? <==> NonNegativeNumber(value)
    ensures r.Some? ==> r.value.status == 422 && HasSingleIssueAt(r.value, field)
  {
    if value.Fin? && value.v >= 0.0 then None
    else
      var message := MustBePositiveMessage(field);
      Some(UnprocessableError(message, Some(SingleIssue(field, message))))
  }

  predicate ItemNumbersValid(item: Item) {
    NonNegativeNumber(item.quantity) && NonNegativeNumber(item.unitCost)
  }

  predicate AllItemsValid(items: seq<Item>) {
    forall i :: 0 <= i < |items| ==> ItemNumbersValid(items[i])
  }

  /** The two checks on one item, quantity first. */
  function CheckItem(item: Item, index: nat): (r: Option<HttpError>)
    ensures r.None? <==> ItemNumbersValid(item)
    ensures r.Some? ==> r.value.status == 422
    ensures r.Some? && !NonNegativeNumber(item.quantity) ==> HasSingleIssueAt(r.value, ItemPath(index, "quantity"))
    ensures r.Some? && NonNegativeNumber(item.quantity) ==> HasSingleIssueAt(r.value, ItemPath(index, "unitCost"))
  {
    var q := CheckNonNegative(item.quantity, ItemPath(index, "quantity"));
    if q.Some? then q else CheckNonNegative(item.unitCost, ItemPath(index, "unitCost"))
  }

  /** The `forEach` over the items from index `from` on: the error of the first
      item, in index order, whose quantity or unit cost is rejected. */
  function CheckItems(items: seq<Item>, from: nat): (r: Option<HttpError>)
    requires from <= |items|
    decreases |items| - from
    ensures r.None? <==> forall j :: from <= j < |items| ==> ItemNumbersValid(items[j])
    ensures r.Some? ==> exists i :: (from <= i < |items| && !ItemNumbersValid(items[i])
      && (forall j :: from <= j < i ==> ItemNumbersValid(items[j]))
      && r == CheckItem(items[i], i))
  {
    if from == |items| then None
    else
      var e := CheckItem(items[from], from);
      if e.Some? then e else CheckItems(items, from + 1)
  }

  function Product(item: Item): (p: real)
    requires ItemNumbersValid(item)
    ensures p >= 0.0
  {
    item.quantity.v * item.unitCost.v
  }

  /** The sum of quantity times unit cost over the items. */
  function LineSum(items: seq<Item>): (r: real)
    requires AllItemsValid(items)
    ensures r >= 0.0
  {
    if |items| == 0 then 0.0 else Product(items[0]) + LineSum(items[1..])
  }

  /** The sum can be split off at its last item. */
  lemma {:induction false} LineSumSnoc(items: seq<Item>)
    requires AllItemsValid(items) && |items| > 0
    ensures LineSum(items) == LineSum(items[..|items| - 1]) + Product(items[|items| - 1])
  {
    if |items| > 1 {
      assert items[1..][..|items| - 2] == items[..|items| - 1][1..];
      LineSumSnoc(items[1..]);
    }
  }

  /** The source's `reduce`, a running sum taken left to right from 0. It is
      the sum of the products, and never negative. */
  function RunningSum(items: seq<Item>): (r: real)
    requires AllItemsValid(items)
    ensures r == LineSum(items)
    ensures r >= 0.0
  {
    if |items| == 0 then 0.0
    else
      LineSumSnoc(items);
      RunningSum(items[..|items| - 1]) + Product(items[|items| - 1])
  }

  /** `assertClose`: no error when nothing was provided or the provided value
      is within `Tolerance` of the computed one (a gap of exactly `Tolerance`
      passes). A NaN passes too, since `NaN > 0.02` is false; an infinity fails. */
  function CheckClose(field: string, provided: Option<Num>, computed: real): (r: Option<HttpError>)
    ensures r.None? <==> Agrees(provided, computed)
    ensures r.Some? ==> r.value.status == 422 && HasSingleIssueAt(r.value, field)
    ensures r.Some? ==> r.value.payload.value.error[0].message == ExpectedValueMessage(computed)
  {
    var failure := Some(UnprocessableError(InconsistentMessage(field),
      Some(SingleIssue(field, ExpectedValueMessage(computed)))));
    match provided
    case None => None
    case Some(Fin(p)) => if Abs(p - computed) > Tolerance then failure else None
    case Some(NaN) => None
    case Some(_) => failure
  }

  /** A client-supplied aggregate is acceptable: absent, NaN, or a finite value
      at most `Tolerance` away from the computed one. */
  predicate Agrees(provided: Option<Num>, computed: real) {
    || provided.None?
    || provided.value.NaN?
    || (provided.value.Fin? && -Tolerance <= provided.value.v - computed <= Tolerance)
  }

  /** The overpayment check: paying more than `Tolerance` above the total is a 422. */
  function CheckOverpayment(amountPaid: real, total: real): (r: Option<HttpError>)
    ensures r.None? <==> amountPaid <= total + Tolerance
    ensures r.Some? ==> r.value.status == 422 && HasSingleIssueAt(r.value, "amountPaid")
  {
    if amountPaid - total > Tolerance then
      Some(UnprocessableError(OverpaidMessage, Some(SingleIssue("amountPaid", PaidAtMostMessage(total)))))
    else None
  }

  /** The USD-rate check: a supplied rate must not be `<= 0`. NaN and +Infinity
      are not `<= 0` and pass. */
  function CheckUsdRate(rate: Option<Num>): (r: Option<HttpError>)
    ensures r.None? <==> rate.None? || rate.value.NaN? || rate.value.PosInf? || (rate.value.Fin? && rate.value.v > 0.0)
    ensures r.Some? ==> r.value.status == 422 && HasSingleIssueAt(r.value, "currencyUsdRate")
  {
    if rate.Some? && (rate.value.NegInf? || (rate.value.Fin? && rate.value.v <= 0.0)) then
      Some(UnprocessableError(UsdRateMessage, Some(SingleIssue("currencyUsdRate", UsdRateIssueMessage))))
    else None
  }

  /** `toDecimal(value, scale)` on a number that may be NaN or infinite:
      finite values are rounded, the special values pass through. */
  function RoundNum(n: Num, s: nat): (r: Num)
    ensures n.Fin? ==> r == Fin(Round(n.v, s))
    ensures !n.Fin? ==> r == n
  {
    if n.Fin? then Fin(Round(n.v, s)) else n
  }

  /** The `computed` block returned next to the record. */
  datatype Computed = Computed(
    subtotal: real,
    taxRate: Option<real>,
    taxAmount: real,
    total: real,
    amountPaid: real,
    balanceDue: real)

  /** An item as handed to persistence. */
  datatype StoredItem = StoredItem(description: string, quantity: real, unitCost: real, amount: real)

  /** The canonical record handed to persistence. */
  datatype InvoiceData = InvoiceData(
    userId: string,
    number: string,
    title: Option<string>,
    issueDate: string,
    dueDate: Option<string>,
    terms: Option<string>,
    customerName: string,
    customerEmail: Option<string>,
    customerAddress: Option<string>,
    shipTo: Option<string>,
    currency: string,
    subtotal: real,
    taxRate: Option<real>,
    taxAmount: Option<real>,
    total: real,
    amountPaid: real,
    balanceDue: real,
    notes: Option<string>,
    additionalTerms: Option<string>,
    currencyUsdRate: Option<Num>,
    exchangeRatesSnapshot: Option<Snapshot>,
    items: seq<StoredItem>)

  datatype Built = Built(data: InvoiceData, computed: Computed)

  /** The tax on a subtotal: the rate is a percentage; no rate, no tax. */
  function TaxFor(subtotal: real, rate: Option<Num>): (tax: real)
    requires rate.Some? ==> NonNegativeNumber(rate.value)
    requires subtotal >= 0.0
    ensures tax >= 0.0 && OnGrid(tax, MoneyScale)
    ensures rate.None? ==> tax == 0.0
  {
    if rate.Some? then
      assert subtotal * (rate.value.v / 100.0) >= 0.0;
      Round(subtotal * (rate.value.v / 100.0), MoneyScale)
    else
      ScaledZero(MoneyScale);
      0.0
  }

  /** The checks on the tax rate, the subtotal and the tax amount, in the
      source's order; the computed tax when all pass. An omitted tax amount is
      replaced by the computed one, so it always agrees. */
  function TaxStage(payload: Payload, subtotal: real): (r: Result<real, HttpError>)
    requires subtotal >= 0.0
    ensures r.Success? <==> TaxConsistent(payload, subtotal)
    ensures r.Success? ==> r.value == TaxFor(subtotal, payload.taxRate)
    ensures r.Failure? ==> r.error.status == 422
  {
    var rateError := if payload.taxRate.Some? then CheckNonNegative(payload.taxRate.value, "taxRate") else None;
    if rateError.Some? then Failure(rateError.value)
    else
      var tax := TaxFor(subtotal, payload.taxRate);
      var providedTax := if payload.taxAmount.Some? then payload.taxAmount else Some(Fin(tax));
      var subtotalError := CheckClose("subtotal", payload.subtotal, subtotal);
      if subtotalError.Some? then Failure(subtotalError.value)
      else
        var taxError := CheckClose("taxAmount", providedTax, tax);
        if taxError.Some? then Failure(taxError.value)
        else Success(tax)
  }

  predicate TaxConsistent(payload: Payload, subtotal: real)
    requires subtotal >= 0.0
  {
    && (payload.taxRate.Some? ==> NonNegativeNumber(payload.taxRate.value))
    && Agrees(payload.subtotal, subtotal)
    && (payload.taxAmount.Some? ==> Agrees(payload.taxAmount, TaxFor(subtotal, payload.taxRate)))
  }

  /** The amount paid, as `Number(payload.amountPaid ?? 0)`. */
  function PaidOf(payload: Payload): Num {
    payload.amountPaid.GetOr(Fin(0.0))
  }

  /** The checks on the amount paid and the total and balance figures, in the
      source's order; the amount paid and the balance due when all pass. */
  function PaymentStage(payload: Payload, total: real): (r: Result<(real, real), HttpError>)
    requires total >= 0.0
    ensures r.Success? <==> PaymentConsistent(payload, total)
    ensures r.Success? ==> (PaidOf(payload).Fin? && r.value.0 == PaidOf(payload).v
      && r.value.1 == Round(Max(total - r.value.0, 0.0), MoneyScale))
    ensures r.Failure? ==> r.error.status == 422
  {
    var paid := PaidOf(payload);
    var paidError := CheckNonNegative(paid, "amountPaid");
    if paidError.Some? then Failure(paidError.value)
    else
      var overpaid := CheckOverpayment(paid.v, total);
      if overpaid.Some? then Failure(overpaid.value)
      else
        var balance := Round(Max(total - paid.v, 0.0), MoneyScale);
        var totalError := CheckClose("total", payload.total, total);
        if totalError.Some? then Failure(totalError.value)
        else
          var balanceError := CheckClose("balanceDue", payload.balanceDue, balance);
          if balanceError.Some? then Failure(balanceError.value)
          else Success((paid.v, balance))
  }

  predicate PaymentConsistent(payload: Payload, total: real) {
    && NonNegativeNumber(PaidOf(payload))
    && PaidOf(payload).v <= total + Tolerance
    && Agrees(payload.total, total)
    && Agrees(payload.balanceDue, Round(Max(total - PaidOf(payload).v, 0.0), MoneyScale))
  }

  /** The tax rate as returned in the `computed` block. */
  function RateOf(payload: Payload): Option<real>
    requires payload.taxRate.Some? ==> payload.taxRate.value.Fin?
  {
    if payload.taxRate.Some? then Some(payload.taxRate.value.v) else None
  }

  /** The part of `buildInvoiceData` after the tax checks passed: total,
      payment checks and the `computed` block. */
  function AfterTax(payload: Payload, subtotal: real, tax: real): (r: Result<Computed, HttpError>)
    requires subtotal >= 0.0 && TaxConsistent(payload, subtotal)
    requires tax == TaxFor(subtotal, payload.taxRate)
    ensures r.Success? <==> Consistent(payload, subtotal)
    ensures r.Failure? ==> r.error.status == 422
    ensures r.Success? ==> r.value == Expected(payload, subtotal)
  {
    var total := Round(subtotal + tax, MoneyScale);
    match PaymentStage(payload, total)
    case Failure(e) => Failure(e)
    case Success(pair) =>
      assert pair.0 == PaidOf(payload).v;
      Success(Computed(subtotal, RateOf(payload), tax, total, pair.0, pair.1))
  }

  /** The subtotal: the products summed first, left to right, and rounded
      once. */
  function Subtotal(items: seq<Item>): (r: real)
    requires AllItemsValid(items)
    ensures r == Round(LineSum(items), MoneyScale)
    ensures r >= 0.0 && OnGrid(r, MoneyScale)
  {
    Round(RunningSum(items), MoneyScale)
  }

  /** Everything `buildInvoiceData` checks after the items, in the source's
      order, given the subtotal; the `computed` block when all pass. */
  function Aggregate(payload: Payload, subtotal: real): (r: Result<Computed, HttpError>)
    requires subtotal >= 0.0
    ensures r.Success? <==> Consistent(payload, subtotal)
    ensures r.Failure? ==> r.error.status == 422
    ensures r.Success? ==> r.value == Expected(payload, subtotal)
  {
    match TaxStage(payload, subtotal)
    case Failure(e) => Failure(e)
    case Success(tax) => AfterTax(payload, subtotal, tax)
  }

  /** The conditions under which the aggregates pass, stated at once rather
      than as a sequence of checks. */
  predicate Consistent(payload: Payload, subtotal: real)
    requires subtotal >= 0.0
  {
    && TaxConsistent(payload, subtotal)
    && PaymentConsistent(payload, Round(subtotal + TaxFor(subtotal, payload.taxRate), MoneyScale))
  }

  /** The `computed` block of a consistent payload, from the definitions:
      the tax is the rate's share of the rounded subtotal, the total is their
      rounded sum, and the balance is what is left to pay, never below zero. */
  function Expected(payload: Payload, subtotal: real): Computed
    requires subtotal >= 0.0 && Consistent(payload, subtotal)
  {
    var tax := TaxFor(subtotal, payload.taxRate);
    var total := Round(subtotal + tax, MoneyScale);
    var paid := PaidOf(payload).v;
    Computed(subtotal, RateOf(payload), tax, total, paid, Round(Max(total - paid, 0.0), MoneyScale))
  }

  function StoreItem(item: Item): (s: StoredItem)
    requires ItemNumbersValid(item)
    ensures s.amount == Round(Product(item), MoneyScale) && s.amount >= 0.0
  {
    StoredItem(item.description, Round(item.quantity.v, MoneyScale), Round(item.unitCost.v, MoneyScale),
               Round(Product(item), MoneyScale))
  }

  /** The record to persist, each figure passed through `toDecimal`. */
  function Assemble(payload: Payload, userId: string, items: seq<Item>, c: Computed): InvoiceData
    requires AllItemsValid(items)
  {
    InvoiceData(
      userId, payload.number, SanitizeString(payload.title), payload.issueDate, payload.dueDate,
      SanitizeString(payload.terms), payload.customerName, SanitizeString(payload.customerEmail),
      SanitizeString(payload.customerAddress), SanitizeString(payload.shipTo), payload.currency,
      Round(c.subtotal, MoneyScale),
      if c.taxRate.Some? then Some(Round(c.taxRate.value, MoneyScale)) else None,
      if c.taxRate.Some? then Some(Round(c.taxAmount, MoneyScale)) else None,
      Round(c.total, MoneyScale), Round(c.amountPaid, MoneyScale), Round(c.balanceDue, MoneyScale),
      SanitizeString(payload.notes), SanitizeString(payload.additionalTerms),
      if payload.currencyUsdRate.Some? then Some(RoundNum(payload.currencyUsdRate.value, RateScale)) else None,
      payload.exchangeRatesSnapshot,
      seq(|items|, i requires 0 <= i < |items| => StoreItem(items[i])))
  }

  /** `buildInvoiceData(payload, userId)`: the canonical record and the
      `computed` block, or the error the source throws. */
  function BuildInvoiceData(payload: Payload, userId: string): (r: Result<Built, HttpError>)
    ensures |payload.items| == 0 ==> r == Failure(BadRequestError(NoItemsMessage, None))
    ensures r.Failure? ==> (r.error.status == 400 <==> |payload.items| == 0)
    ensures r.Failure? ==> r.error.status == 400 || r.error.status == 422
  {
    var items := NormalizeItems(payload.items);
    if |items| == 0 then Failure(BadRequestError(NoItemsMessage, None))
    else
      var itemError := CheckItems(items, 0);
      if itemError.Some? then Failure(itemError.value)
      else
        match Aggregate(payload, Subtotal(items))
        case Failure(e) => Failure(e)
        case Success(c) =>
          var rateError := CheckUsdRate(payload.currencyUsdRate);
          if rateError.Some? then Failure(rateError.value)
          else Success(Built(Assemble(payload, userId, items, c), c))
  }

  /** An invalid item is reported by its index and field, the first invalid
      item winning. */
  lemma BuildReportsFirstInvalidItem(payload: Payload, userId: string)
    ensures var items := NormalizeItems(payload.items);
      |items| > 0 && !AllItemsValid(items) ==>
        exists i :: (0 <= i < |items| && !ItemNumbersValid(items[i])
          && (forall j :: 0 <= j < i ==> ItemNumbersValid(items[j]))
          && BuildInvoiceData(payload, userId) == Failure(CheckItem(items[i], i).value))
  {
    var items := NormalizeItems(payload.items);
    if |items| > 0 && !AllItemsValid(items) {
      var e := CheckItems(items, 0);
      assert e.Some?;
      assert BuildInvoiceData(payload, userId) == Failure(e.value);
      var i :| 0 <= i < |items| && !ItemNumbersValid(items[i])
        && (forall j :: 0 <= j < i ==> ItemNumbersValid(items[j])) && e == CheckItem(items[i], i);
    }
  }

  /** `buildInvoiceData` succeeds exactly when there is an item, every item is
      valid, the submitted figures agree with the recomputed ones and the USD
      rate is acceptable. */
  lemma BuildSucceedsIff(payload: Payload, userId: string)
    ensures var items := NormalizeItems(payload.items);
      BuildInvoiceData(payload, userId).Success? <==>
        |items| > 0 && AllItemsValid(items) && Consistent(payload, Subtotal(items))
        && CheckUsdRate(payload.currencyUsdRate).None?
  {
  }

  /** On success the `computed` block is the declarative one and the stored
      record carries its figures. */
  lemma BuildComputes(payload: Payload, userId: string)
    requires BuildInvoiceData(payload, userId).Success?
    ensures var items := NormalizeItems(payload.items);
      && |items| > 0 && AllItemsValid(items) && Consistent(payload, Subtotal(items))
      && BuildInvoiceData(payload, userId).value.computed == Expected(payload, Subtotal(items))
      && BuildInvoiceData(payload, userId).value.data
           == Assemble(payload, userId, items, Expected(payload, Subtotal(items)))
  {
    BuildSucceedsIff(payload, userId);
  }

  /** Once the items pass, an error from the aggregates is the one reported,
      and with the aggregates passing, an error from the USD-rate check is. */
  lemma BuildReportsLaterErrors(payload: Payload, userId: string)
    ensures var items := NormalizeItems(payload.items);
      |items| > 0 && AllItemsValid(items) ==>
        && (Aggregate(payload, Subtotal(items)).Failure? ==>
              BuildInvoiceData(payload, userId) == Failure(Aggregate(payload, Subtotal(items)).error))
        && (Aggregate(payload, Subtotal(items)).Success? && CheckUsdRate(payload.currencyUsdRate).Some? ==>
              BuildInvoiceData(payload, userId) == Failure(CheckUsdRate(payload.currencyUsdRate).value))
  {
    var items := NormalizeItems(payload.items);
    if |items| > 0 && AllItemsValid(items) {
      assert CheckItems(items, 0).None?;
    }
  }

  /** An error as thrown by the persistence layer; `code` is its `code`
      property when it has one. */
  datatype CaughtError = CaughtError(code: Option<string>, detail: string)

  /** What `prismaDuplicateGuard` throws: its own conflict, or what it caught. */
  datatype Thrown = Raised(error: HttpError) | Rethrown(original: Option<CaughtError>)

  /** `prismaDuplicateGuard(error, field = 'number')`: a unique-constraint
      failure (code `P2002`) becomes a 409 naming the field; anything else,
      including a null error, is rethrown unchanged. */
  function DuplicateGuard(error: Option<CaughtError>, field: Option<string>): (t: Thrown)
    ensures error.Some? && error.value.code == Some("P2002") ==>
      && t.Raised? && t.error.status == 409 && t.error.name == "HttpError"
      && HasSingleIssueAt(t.error, field.GetOr("number"))
      && t.error.message == DuplicateMessage(field.GetOr("number"))
    ensures !(error.Some? && error.value.code == Some("P2002")) ==> t == Rethrown(error)
  {
    var name := field.GetOr("number");
    if error.Some? && error.value.code == Some("P2002") then
      Raised(ConflictError(DuplicateMessage(name), Some(SingleIssue(name, DuplicateMessage(name)))))
    else Rethrown(error)
  }
}
