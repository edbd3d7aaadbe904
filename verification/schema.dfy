/** The request shape the invoice routes accept (`invoicePayloadSchema`), as a
    datatype for the parsed JSON plus a validity predicate. String formats that
    the schema library checks (e-mail, ISO-8601 date-time, UUID) stay opaque. */
module Schema {
  import opened Wrappers
  import opened Money

  /** `currencyEnum`. */
  datatype Currency = USD | EUR | CDF | GBP | CAD {
    function Code(): string {
      match this
      case USD => "USD"
      case EUR => "EUR"
      case CDF => "CDF"
      case GBP => "GBP"
      case CAD => "CAD"
    }
  }

  /** The currency codes, in the order the enumeration lists them. */
  const CurrencyCodes: seq<string> := ["USD", "EUR", "CDF", "GBP", "CAD"]

  /** Parsing a code against `currencyEnum`. */
  function ParseCurrency(code: string): (r: Option<Currency>)
    ensures r.Some? <==> code in CurrencyCodes
    ensures r.Some? ==> r.value.Code() == code
  {
    if code == "USD" then Some(USD)
    else if code == "EUR" then Some(EUR)
    else if code == "CDF" then Some(CDF)
    else if code == "GBP" then Some(GBP)
    else if code == "CAD" then Some(CAD)
    else None
  }

  /** Every member of the enumeration parses back from its code. */
  lemma CurrencyCodeRoundTrip(c: Currency)
    ensures ParseCurrency(c.Code()) == Some(c)
    ensures c.Code() in CurrencyCodes
  {
  }

  /** One entry of `items` as received; absent fields are `None`. */
  datatype RawItem = RawItem(
    id: Option<string>,
    description: Option<string>,
    quantity: Option<Num>,
    unitCost: Option<Num>,
    amount: Option<Num>)

  /** `exchangeRatesSnapshot`: an opaque record passed through unchecked. */
  datatype Snapshot = Snapshot(json: string)

  /** The `issuerLegal` object: the string fields that were supplied. */
  datatype IssuerLegal = IssuerLegal(fields: map<string, string>)

  /** The invoice payload as parsed from the request body. Dates are the
      ISO-8601 strings the client sends. */
  datatype Payload = Payload(
    number: string,
    title: Option<string>,
    issueDate: string,
    dueDate: Option<string>,
    terms: Option<string>,
    customerName: string,
    customerEmail: Option<string>,
    customerAddress: Option<string>,
    shipTo: Option<string>,
    currency: string,
    subtotal: Option<Num>,
    taxRate: Option<Num>,
    taxAmount: Option<Num>,
    total: Option<Num>,
    amountPaid: Option<Num>,
    balanceDue: Option<Num>,
    notes: Option<string>,
    additionalTerms: Option<string>,
    currencyUsdRate: Option<Num>,
    exchangeRatesSnapshot: Option<Snapshot>,
    issuerLegal: Option<IssuerLegal>,
    items: seq<RawItem>)

  /** The string formats the schema delegates to its validation library. */
  datatype Formats = Formats(
    isUuid: string -> bool,
    isEmail: string -> bool,
    isDateTime: string -> bool)

  /** `z.number().nonnegative()` (equivalently `.min(0)`): a number that is
      not NaN and not below 0. Without `.finite()` the schema lets +Infinity
      through, which a JSON body carries as an overflowing literal such as
      `1e999`. */
  predicate ZodNonNegative(n: Num) {
    (n.Fin? && n.v >= 0.0) || n.PosInf?
  }

  predicate OptionalNonNegative(n: Option<Num>) {
    n.None? || ZodNonNegative(n.value)
  }

  predicate RequiredNonNegative(n: Option<Num>) {
    n.Some? && ZodNonNegative(n.value)
  }

  /** `invoiceItemSchema`. */
  predicate ValidItem(item: RawItem, fmt: Formats) {
    && (item.id.None? || fmt.isUuid(item.id.value))
    && item.description.Some? && |item.description.value| >= 1
    && RequiredNonNegative(item.quantity)
    && RequiredNonNegative(item.unitCost)
    && OptionalNonNegative(item.amount)
  }

  /** The nested `issuerLegal` object: every field is an optional string and
      `email`, when present, must be an e-mail address. */
  predicate ValidIssuerLegal(issuer: IssuerLegal, fmt: Formats) {
    "email" in issuer.fields ==> fmt.isEmail(issuer.fields["email"])
  }

  /** `invoicePayloadSchema`. */
  predicate ValidPayload(p: Payload, fmt: Formats) {
    && |p.number| >= 1
    && fmt.isDateTime(p.issueDate)
    && (p.dueDate.None? || fmt.isDateTime(p.dueDate.value))
    && |p.customerName| >= 1
    && (p.customerEmail.None? || p.customerEmail.value == "" || fmt.isEmail(p.customerEmail.value))
    && ParseCurrency(p.currency).Some?
    && RequiredNonNegative(p.subtotal)
    && OptionalNonNegative(p.taxRate)
    && OptionalNonNegative(p.taxAmount)
    && RequiredNonNegative(p.total)
    && RequiredNonNegative(p.amountPaid)
    && RequiredNonNegative(p.balanceDue)
    && OptionalNonNegative(p.currencyUsdRate)
    && (p.issuerLegal.None? || ValidIssuerLegal(p.issuerLegal.value, fmt))
    && |p.items| >= 1
    && forall i :: 0 <= i < |p.items| ==> ValidItem(p.items[i], fmt)
  }
}
