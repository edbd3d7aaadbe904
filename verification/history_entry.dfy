/** The client's view of a saved invoice: the server record mapped to a
    history entry (`toLocalHistoryEntry`) and the total shown for an entry
    (`formatInvoiceTotal`). */
module HistoryEntry {
  import opened Wrappers
  import opened Text
  import opened Money
  import Schema
  import Currencies

  /** One line item of an invoice as the API returns it. */
  datatype ApiItem = ApiItem(description: Option<string>, quantity: Option<Num>, unitCost: Option<Num>)

  /** The invoice record as the API returns it; every field may be missing. */
  datatype ApiInvoice = ApiInvoice(
    id: Option<string>,
    number: Option<string>,
    customerName: Option<string>,
    issueDate: Option<string>,
    dueDate: Option<string>,
    currency: Option<string>,
    subtotal: Option<Num>,
    taxRate: Option<Num>,
    total: Option<Num>,
    amountPaid: Option<Num>,
    balanceDue: Option<Num>,
    terms: Option<string>,
    notes: Option<string>,
    additionalTerms: Option<string>,
    currencyUsdRate: Option<Num>,
    exchangeRatesSnapshot: Option<Schema.Snapshot>,
    exchangeRatesFetchedAt: Option<string>,
    createdAt: Option<string>,
    updatedAt: Option<string>,
    issuerLegal: Option<Schema.IssuerLegal>,
    issuerLegalInfo: Option<Schema.IssuerLegal>,
    clientPhone: Option<string>,
    clientContactEmail: Option<string>,
    clientEmail: Option<string>,
    items: Option<seq<ApiItem>>)

  /** One line item of a history entry; the unit cost is stored under the
      key `unit_cost`. */
  datatype LocalItem = LocalItem(description: Option<string>, quantity: Option<Num>, unitCost: Option<Num>)

  /** A history entry as kept in local storage. `kind` is the entry's `type`,
      `dueDate` its `due_date`, `exchangeRatesUsd` its `exchangeRatesUSD`. */
  datatype LocalEntry = LocalEntry(
    id: Option<string>,
    kind: string,
    number: Option<string>,
    customer: Option<string>,
    customerName: Option<string>,
    date: string,
    dueDate: string,
    currency: Option<string>,
    currencyCode: Option<string>,
    currencySymbol: string,
    currencyLabel: string,
    subtotal: Option<Num>,
    tax: Option<Num>,
    total: Option<Num>,
    amountPaid: Option<Num>,
    balanceDue: Option<Num>,
    paymentTerms: Option<string>,
    notes: Option<string>,
    terms: Option<string>,
    currencyUsdRate: Option<Num>,
    exchangeRatesUsd: Option<Schema.Snapshot>,
    exchangeRatesFetchedAt: Option<string>,
    createdAt: Option<string>,
    updatedAt: Option<string>,
    issuerLegal: Option<Schema.IssuerLegal>,
    clientPhone: string,
    clientEmail: string,
    items: seq<LocalItem>)

  /** `date ? date.slice(0, 10) : ''`: the calendar-date part of an ISO-8601
      timestamp, or the empty string for a missing or empty date. */
  function DatePart(date: Option<string>): (r: string)
    ensures |r| <= 10
    ensures r == [] <==> date.None? || date.value == []
    ensures date.Some? ==> |r| <= |date.value| && r == date.value[..|r|]
    ensures date.Some? && |date.value| >= 10 ==> |r| == 10
  {
    match date
    case None => ""
    case Some(s) => if |s| <= 10 then s else s[..10]
  }

  /** `a ?? b`: the first value that is present. */
  function FirstPresent<T>(a: Option<T>, b: Option<T>): (r: Option<T>)
    ensures r.Some? <==> a.Some? || b.Some?
    ensures a.Some? ==> r == a
    ensures a.None? ==> r == b
  {
    if a.Some? then a else b
  }

  function ToLocalItem(item: ApiItem): (r: LocalItem)
    ensures r.description == item.description
    ensures r.quantity == item.quantity && r.unitCost == item.unitCost
  {
    LocalItem(item.description, item.quantity, item.unitCost)
  }

  /** `(items || []).map(...)`: one local item per API item, in order. */
  function ToLocalItems(items: Option<seq<ApiItem>>): (r: seq<LocalItem>)
    ensures items.None? ==> r == []
    ensures items.Some? ==> |r| == |items.value|
    ensures items.Some? ==> forall i :: 0 <= i < |r| ==> r[i] == ToLocalItem(items.value[i])
  {
    match items
    case None => []
    case Some(xs) => seq(|xs|, i requires 0 <= i < |xs| => ToLocalItem(xs[i]))
  }

  /** `toLocalHistoryEntry(invoice)`. */
  function ToLocalHistoryEntry(inv: ApiInvoice): (e: LocalEntry)
    ensures e.kind == "invoice"
    ensures e.customer == e.customerName == inv.customerName
    ensures e.currency == e.currencyCode == inv.currency
    ensures e.date == DatePart(inv.issueDate) && e.dueDate == DatePart(inv.dueDate)
    ensures e.terms == (if inv.additionalTerms.Some? then inv.additionalTerms else inv.terms)
    ensures e.paymentTerms == inv.terms
    ensures e.clientEmail == (if inv.clientContactEmail.Some? then inv.clientContactEmail.value
                              else if inv.clientEmail.Some? then inv.clientEmail.value else "")
    ensures e.clientPhone == inv.clientPhone.GetOr("")
    ensures e.issuerLegal == (if inv.issuerLegal.Some? then inv.issuerLegal else inv.issuerLegalInfo)
    ensures e.currencySymbol == Currencies.GetCurrencyMeta(inv.currency).symbol
    ensures e.currencyLabel == Currencies.GetCurrencyMeta(inv.currency).labelText
    ensures e.items == ToLocalItems(inv.items)
    ensures e.subtotal == inv.subtotal && e.tax == inv.taxRate && e.total == inv.total
    ensures e.amountPaid == inv.amountPaid && e.balanceDue == inv.balanceDue
  {
    var meta := Currencies.GetCurrencyMeta(inv.currency);
    LocalEntry(
      inv.id, "invoice", inv.number, inv.customerName, inv.customerName,
      DatePart(inv.issueDate), DatePart(inv.dueDate),
      inv.currency, inv.currency, meta.symbol, meta.labelText,
      inv.subtotal, inv.taxRate, inv.total, inv.amountPaid, inv.balanceDue,
      inv.terms, inv.notes, FirstPresent(inv.additionalTerms, inv.terms),
      inv.currencyUsdRate, inv.exchangeRatesSnapshot, inv.exchangeRatesFetchedAt,
      inv.createdAt, inv.updatedAt,
      FirstPresent(inv.issuerLegal, inv.issuerLegalInfo),
      inv.clientPhone.GetOr(""),
      FirstPresent(inv.clientContactEmail, inv.clientEmail).GetOr(""),
      ToLocalItems(inv.items))
  }

  /** The fields `formatInvoiceTotal` reads. Entries written by older versions
      of the client may lack any of them. */
  datatype TotalView = TotalView(
    total: Option<Num>,
    currencyCode: Option<string>,
    currency: Option<string>,
    currencySymbol: Option<string>,
    currencyLabel: Option<string>)

  /** The fields of a history entry that its total is formatted from. */
  function ViewOf(e: LocalEntry): TotalView {
    TotalView(e.total, e.currencyCode, e.currency, Some(e.currencySymbol), Some(e.currencyLabel))
  }

  /** `(0).toFixed(2)` is `'0.00'`, which reads back as zero. */
  lemma ZeroText()
    ensures Fixed2(0.0) == "0.00"
    ensures ParseFixed2("0.00") == Some(0.0)
  {
    assert (0.0 * 100.0 + 0.5).Floor == 0;
    assert NatToString(0) == "0";
    ParseFixed2RoundTrip(0.0);
    ScaledZero(MoneyScale);
    RoundOnGrid(0.0, MoneyScale);
  }

  /** The numeric part of the formatted total: `total.toFixed(2)` when the total
      is finite (a missing total counts as 0), `'0.00'` otherwise. It reads
      back as the total rounded to cents. */
  function AmountText(total: Option<Num>): (r: string)
    ensures total.Some? && total.value.Fin? ==> ParseFixed2(r) == Some(HalfAway(total.value.v, MoneyScale))
    ensures !(total.Some? && total.value.Fin?) ==> ParseFixed2(r) == Some(0.0)
  {
    var value := total.GetOr(Fin(0.0));
    if value.Fin? then
      ParseFixed2RoundTrip(value.v);
      ScaledZero(MoneyScale);
      RoundOnGrid(0.0, MoneyScale);
      Fixed2(value.v)
    else
      ZeroText();
      "0.00"
  }

  /** The amount, then a space and the first non-empty of the symbol, the
      label and the code, if any. */
  function WithCurrency(amount: string, symbol: string, caption: string, code: string): (r: string)
    ensures |r| >= |amount| && r[..|amount|] == amount
    ensures |r| == |amount| <==> symbol == [] && caption == [] && code == []
    ensures symbol != [] ==> r[|amount|..] == " " + symbol
    ensures symbol == [] && caption != [] ==> r[|amount|..] == " " + caption
    ensures symbol == [] && caption == [] && code != [] ==> r[|amount|..] == " " + code
  {
    if symbol != [] then amount + " " + symbol
    else if caption != [] then amount + " " + caption
    else if code != [] then amount + " " + code
    else amount
  }

  /** `formatInvoiceTotal(invoice)`: the total with two decimals and the
      entry's currency sign. */
  function FormatInvoiceTotal(view: TotalView): (r: string)
    ensures var amount := AmountText(view.total);
      var symbol := view.currencySymbol.GetOr("");
      var caption := view.currencyLabel.GetOr("");
      var code := FirstPresent(view.currencyCode, view.currency).GetOr("");
      && |r| >= |amount| && r[..|amount|] == amount
      && (|r| == |amount| <==> symbol == [] && caption == [] && code == [])
      && (symbol != [] ==> r[|amount|..] == " " + symbol)
      && (symbol == [] && caption != [] ==> r[|amount|..] == " " + caption)
      && (symbol == [] && caption == [] && code != [] ==> r[|amount|..] == " " + code)
  {
    WithCurrency(AmountText(view.total), view.currencySymbol.GetOr(""), view.currencyLabel.GetOr(""),
      FirstPresent(view.currencyCode, view.currency).GetOr(""))
  }

  /** An entry mapped from an API invoice always shows its total with the
      symbol of its currency (the US dollar sign for an unknown currency), never
      the label or the code. */
  lemma MappedEntryShowsSymbol(inv: ApiInvoice)
    ensures var amount := AmountText(inv.total);
      var r := FormatInvoiceTotal(ViewOf(ToLocalHistoryEntry(inv)));
      r == amount + " " + Currencies.GetCurrencyMeta(inv.currency).symbol
  {
    var meta := Currencies.GetCurrencyMeta(inv.currency);
    assert meta.symbol != [];
    var amount := AmountText(inv.total);
    var r := FormatInvoiceTotal(ViewOf(ToLocalHistoryEntry(inv)));
    assert r == r[..|amount|] + r[|amount|..];
  }

  /** A missing or non-finite total shows as `0.00`. */
  lemma MissingTotalShowsZero(view: TotalView)
    requires view.total.None? || !view.total.value.Fin?
    ensures FormatInvoiceTotal(view)[..4] == "0.00"
  {
    ZeroText();
  }
}
