/** The pure helpers of the invoice editor hook: invoice numbering, rounding a
    form value to cents, the exchange-rate table, the issuer record clean-up,
    currency conversion, the totals shown while editing, and the rescale of
    the form when the currency changes. */
module InvoiceBuilder {
  import opened Wrappers
  import opened Text
  import opened Money
  import Currencies

  // ---------------------------------------------------------------------------
  // Invoice numbers

  const InvoiceNumberPrefix: string := "Fact-"
  const InvoiceNumberWidth: nat := 4

  /** `formatInvoiceNumber(index)`: the prefix, then the index's digits padded
      on the left with zeros to four characters (never truncated). */
  function FormatInvoiceNumber(index: nat): (r: string)
    ensures |r| == |InvoiceNumberPrefix| + (if |NatToString(index)| >= InvoiceNumberWidth then |NatToString(index)| else InvoiceNumberWidth)
    ensures r[..|InvoiceNumberPrefix|] == InvoiceNumberPrefix
    ensures r[|r| - |NatToString(index)|..] == NatToString(index)
  {
    var r := InvoiceNumberPrefix + PadStart(NatToString(index), InvoiceNumberWidth, '0');
    assert r[..|InvoiceNumberPrefix|] == InvoiceNumberPrefix;
    r
  }

  /** Reading an invoice number back: the prefix followed by at least one digit. */
  function ParseInvoiceNumber(t: string): Option<nat> {
    if |t| > |InvoiceNumberPrefix| && t[..|InvoiceNumberPrefix|] == InvoiceNumberPrefix
       && AllDigits(t[|InvoiceNumberPrefix|..])
    then Some(DigitsValue(t[|InvoiceNumberPrefix|..]))
    else None
  }

  /** Every formatted number reads back as its index, so distinct indexes
      never share a number. */
  lemma InvoiceNumberRoundTrip(index: nat)
    ensures ParseInvoiceNumber(FormatInvoiceNumber(index)) == Some(index)
  {
    var digits := NatToString(index);
    var padded := PadStart(digits, InvoiceNumberWidth, '0');
    var zeros := padded[..|padded| - |digits|];
    assert padded == zeros + digits;
    LeadingZerosValue(zeros, digits);
    NatToStringRoundTrip(index);
    var r := FormatInvoiceNumber(index);
    assert r[|InvoiceNumberPrefix|..] == padded;
  }

  lemma InvoiceNumberInjective(i: nat, j: nat)
    requires FormatInvoiceNumber(i) == FormatInvoiceNumber(j)
    ensures i == j
  {
    InvoiceNumberRoundTrip(i);
    InvoiceNumberRoundTrip(j);
  }

  // ---------------------------------------------------------------------------
  // Numbers read from the form

  /** JavaScript truthiness of a number: zero and NaN are false. */
  predicate Truthy(n: Num) {
    !(n.NaN? || n == Fin(0.0))
  }

  /** `Number(x || 0)` (equally `Number(x) || 0`) for a numeric field that may
      be missing: missing, zero and NaN all read as zero. */
  function NumberOrZero(x: Option<Num>): (r: Num)
    ensures !r.NaN?
    ensures x.Some? && Truthy(x.value) ==> r == x.value
    ensures !(x.Some? && Truthy(x.value)) ==> r == Fin(0.0)
  {
    if x.Some? && Truthy(x.value) then x.value else Fin(0.0)
  }

  /** `toCurrencyNumber(value)`: `Number(Number(value || 0).toFixed(2))`. A
      finite value becomes the nearest whole number of cents, halves away
      from zero; infinities print as `Infinity` and read back unchanged; NaN
      becomes zero. */
  function ToCurrencyNumber(value: Num): (r: Num)
    ensures value.Fin? ==> r.Fin? && OnGrid(r.v, MoneyScale)
    ensures value.Fin? ==> r == Fin(HalfAway(value.v, MoneyScale))
    ensures value.Fin? && value.v >= 0.0 ==>
      Scaled(r.v, MoneyScale) - 0.5 <= Scaled(value.v, MoneyScale) < Scaled(r.v, MoneyScale) + 0.5
    ensures value.Fin? && value.v < 0.0 ==>
      Scaled(r.v, MoneyScale) - 0.5 < Scaled(value.v, MoneyScale) <= Scaled(r.v, MoneyScale) + 0.5
    ensures value.Fin? ==> (value.v >= 0.0 ==> r.v >= 0.0) && (value.v <= 0.0 ==> r.v <= 0.0)
    ensures value.NaN? ==> r == Fin(0.0)
    ensures value.PosInf? || value.NegInf? ==> r == value
  {
    HalfAwayZero(MoneyScale);
    match NumberOrZero(Some(value))
    case Fin(x) => Fin(HalfAway(x, MoneyScale))
    case numeric => numeric
  }

  /** The rounding is what printing with two decimals and reading back gives. */
  lemma ToCurrencyNumberReadsFixed2(x: real)
    ensures ParseFixed2(Fixed2(x)).Some?
    ensures ToCurrencyNumber(Fin(x)) == Fin(ParseFixed2(Fixed2(x)).value)
  {
    ParseFixed2RoundTrip(x);
    HalfAwayZero(MoneyScale);
  }

  /** Rounding to cents twice is rounding once. */
  lemma ToCurrencyNumberIdempotent(value: Num)
    ensures ToCurrencyNumber(ToCurrencyNumber(value)) == ToCurrencyNumber(value)
  {
    var r := ToCurrencyNumber(value);
    if r.Fin? {
      HalfAwayOnGrid(r.v, MoneyScale);
    }
  }

  /** On non-negative amounts the client rounds exactly as the server does. */
  lemma ToCurrencyNumberMatchesServer(x: real)
    requires x >= 0.0
    ensures ToCurrencyNumber(Fin(x)) == Fin(Round(x, MoneyScale))
  {
  }

  // ---------------------------------------------------------------------------
  // Exchange rates

  /** `fallbackUsdRates` as numbers. */
  function FallbackRates(): (m: map<string, Num>)
    ensures m.Keys == Currencies.FallbackUsdRates().Keys
    ensures forall c :: c in m ==> m[c] == Fin(Currencies.FallbackUsdRates()[c])
  {
    map c | c in Currencies.FallbackUsdRates() :: Fin(Currencies.FallbackUsdRates()[c])
  }

  /** The fallback table `fallback` overridden by the caller's entries, extra
      caller keys kept, and the US dollar forced to 1. */
  function Normalize(fallback: map<string, Num>, rates: map<string, Num>): (r: map<string, Num>)
    ensures r.Keys == fallback.Keys + rates.Keys + {Currencies.DefaultCurrencyCode}
    ensures r[Currencies.DefaultCurrencyCode] == Fin(1.0)
    ensures forall c :: c in rates && c != Currencies.DefaultCurrencyCode ==> r[c] == rates[c]
    ensures forall c :: c in fallback && c !in rates && c != Currencies.DefaultCurrencyCode ==> r[c] == fallback[c]
  {
    (fallback + rates)[Currencies.DefaultCurrencyCode := Fin(1.0)]
  }

  /** `normalizeRates(rates)`: the normalisation over the fallback table. */
  function NormalizeRates(rates: map<string, Num>): map<string, Num> {
    Normalize(FallbackRates(), rates)
  }

  /** Normalising twice is normalising once. */
  lemma NormalizeIdempotent(fallback: map<string, Num>, rates: map<string, Num>)
    ensures Normalize(fallback, Normalize(fallback, rates)) == Normalize(fallback, rates)
  {
    var once := Normalize(fallback, rates);
    var twice := Normalize(fallback, once);
    assert twice.Keys == once.Keys;
    forall c | c in once ensures twice[c] == once[c] {
      if c != Currencies.DefaultCurrencyCode {
        assert c in once && c != Currencies.DefaultCurrencyCode;
      }
    }
  }

  lemma NormalizeRatesIdempotent(rates: map<string, Num>)
    ensures NormalizeRates(NormalizeRates(rates)) == NormalizeRates(rates)
  {
    NormalizeIdempotent(FallbackRates(), rates);
  }

  /** Normalising positive rates over a positive table gives positive rates
      only, and a rate for every currency of the table. */
  lemma NormalizePositive(fallback: map<string, Num>, rates: map<string, Num>)
    requires forall c :: c in fallback ==> fallback[c].Fin? && fallback[c].v > 0.0
    requires forall c :: c in rates ==> rates[c].Fin? && rates[c].v > 0.0
    ensures forall c :: c in fallback ==> c in Normalize(fallback, rates)
    ensures forall c :: c in Normalize(fallback, rates) ==> Normalize(fallback, rates)[c].Fin? && Normalize(fallback, rates)[c].v > 0.0
  {
  }

  /** Every fallback rate is a positive number. */
  lemma FallbackRatesPositiveNumbers()
    ensures forall c :: c in FallbackRates() ==> FallbackRates()[c].Fin? && FallbackRates()[c].v > 0.0
  {
    Currencies.FallbackRatesPositive();
  }

  /** Every known currency has a rate after normalisation, and when the caller's
      rates are positive numbers so is every normalised rate. */
  lemma NormalizedRatesPositive(rates: map<string, Num>)
    requires forall c :: c in rates ==> rates[c].Fin? && rates[c].v > 0.0
    ensures forall c :: c in Currencies.FallbackUsdRates() ==> c in NormalizeRates(rates)
    ensures forall c :: c in NormalizeRates(rates) ==> NormalizeRates(rates)[c].Fin? && NormalizeRates(rates)[c].v > 0.0
  {
    FallbackRatesPositiveNumbers();
    NormalizePositive(FallbackRates(), rates);
  }

  // ---------------------------------------------------------------------------
  // Issuer record

  /** The keys of `defaultIssuer`, in order. */
  const IssuerKeys: seq<string> := [
    "companyName", "address", "phone", "email", "rccm", "idNat",
    "niu", "taxCentre", "bankName", "bankAccount", "swift", "other"]

  /** What `sanitizeIssuer` may be given: something that is not an object
      (including `null`), or an object whose fields are strings or `null`
      (an absent key is an absent field). */
  datatype IssuerInput = NotAnObject | Record(fields: map<string, Option<string>>)

  /** The field `key` survives `clean`: it is present, not `null`, and not
      empty once cleaned. */
  predicate KeptBy(fields: map<string, Option<string>>, key: string, clean: string -> string) {
    key in fields && fields[key].Some? && clean(fields[key].value) != []
  }

  /** The field `key` survives: present, not `null`, and not blank. */
  predicate Kept(fields: map<string, Option<string>>, key: string) {
    KeptBy(fields, key, Trim)
  }

  /** The `forEach` over `keys`: every surviving field, cleaned. */
  function CleanFields(keys: seq<string>, fields: map<string, Option<string>>, clean: string -> string): (m: map<string, string>)
    ensures forall k :: k in m <==> k in keys && KeptBy(fields, k, clean)
    ensures forall k :: k in m ==> KeptBy(fields, k, clean) && m[k] == clean(fields[k].value)
  {
    if |keys| == 0 then map[]
    else
      var key := keys[|keys| - 1];
      var m := CleanFields(keys[..|keys| - 1], fields, clean);
      assert forall k :: k in keys <==> k in keys[..|keys| - 1] || k == key;
      if KeptBy(fields, key, clean) then m[key := clean(fields[key].value)] else m
  }

  lemma NonEmptyMapHasKey<K, V>(m: map<K, V>)
    requires |m| > 0
    ensures exists k :: k in m
  {
    var k :| k in m.Keys;
  }

  /** The clean-up over any key list and any cleaning of the values:
      nothing for a non-object, otherwise the listed keys whose values survive
      cleaning, cleaned, or nothing when none does. */
  function Sanitize(keys: seq<string>, clean: string -> string, issuer: IssuerInput): (r: Option<map<string, string>>)
    ensures issuer.NotAnObject? ==> r.None?
    ensures issuer.Record? ==> (r.Some? <==> exists k :: k in keys && KeptBy(issuer.fields, k, clean))
    ensures r.Some? ==> forall k :: k in r.value <==> k in keys && KeptBy(issuer.fields, k, clean)
    ensures r.Some? ==> forall k :: k in r.value ==> r.value[k] == clean(issuer.fields[k].value) && r.value[k] != []
  {
    match issuer
    case NotAnObject => None
    case Record(fields) =>
      var cleaned := CleanFields(keys, fields, clean);
      if |cleaned| > 0 then
        NonEmptyMapHasKey(cleaned);
        Some(cleaned)
      else
        assert forall k :: k !in cleaned;
        None
  }

  /** `sanitizeIssuer(issuer)`: `null` for a non-object, otherwise the default
      issuer keys whose values are non-blank, trimmed, or `null` when none is. */
  function SanitizeIssuer(issuer: IssuerInput): (r: Option<map<string, string>>)
    ensures issuer.NotAnObject? ==> r.None?
    ensures issuer.Record? ==> (r.Some? <==> exists k :: k in IssuerKeys && Kept(issuer.fields, k))
    ensures r.Some? ==> forall k :: k in r.value <==> k in IssuerKeys && Kept(issuer.fields, k)
    ensures r.Some? ==> forall k :: k in r.value ==> r.value[k] == Trim(issuer.fields[k].value) && r.value[k] != []
  {
    Sanitize(IssuerKeys, Trim, issuer)
  }

  /** The record a cleaned issuer is stored as and read back from. */
  function AsInput(m: map<string, string>): IssuerInput {
    Record(map k | k in m :: Some(m[k]))
  }

  /** A map of cleaned, non-empty values under the given keys cleans to itself. */
  lemma CleanFieldsOfClean(keys: seq<string>, m: map<string, string>, clean: string -> string)
    requires forall k :: k in m ==> k in keys && m[k] != [] && clean(m[k]) == m[k]
    ensures CleanFields(keys, AsInput(m).fields, clean) == m
  {
    var fields := AsInput(m).fields;
    var c := CleanFields(keys, fields, clean);
    forall k | k in m ensures k in c {
      assert fields[k].value == m[k];
    }
    assert c.Keys == m.Keys;
  }

  // ---------------------------------------------------------------------------
  // Currency conversion

  /** `code || DEFAULT_CURRENCY_CODE`. */
  function CodeOrDefault(code: Option<string>): (r: Option<string>)
    ensures r.Some? && r.value != []
    ensures code.Some? && code.value != [] ==> r == code
  {
    if code.Some? && code.value != [] then code else Some(Currencies.DefaultCurrencyCode)
  }

  /** `usdRates[meta.code] ?? fallbackUsdRates[meta.code] ?? 1` for the
      currency `getCurrencyMeta` finds for `code || DEFAULT_CURRENCY_CODE`. */
  function RateFor(code: Option<string>, usdRates: map<string, Num>): (r: Num)
    ensures var c := Currencies.GetCurrencyMeta(CodeOrDefault(code)).code;
      r == if c in usdRates then usdRates[c] else Fin(Currencies.FallbackUsdRates()[c])
  {
    var c := Currencies.GetCurrencyMeta(CodeOrDefault(code)).code;
    Currencies.CurrencyMetaCode(CodeOrDefault(code));
    if c in usdRates then usdRates[c]
    else if c in Currencies.FallbackUsdRates() then Fin(Currencies.FallbackUsdRates()[c])
    else Fin(1.0)
  }

  /** `value * fromRate / toRate`: the amount in US dollars, then in the
      target currency, before rounding. */
  function Converted(x: real, fromRate: real, toRate: real): real
    requires toRate != 0.0
  {
    x * fromRate / toRate
  }

  /** Converting at one rate and back gives the amount itself. */
  lemma ConvertedSameRate(x: real, rate: real)
    requires rate != 0.0
    ensures Converted(x, rate, rate) == x
  {
    MulDivCancel(x, rate);
  }

  /** The arithmetic of `convertMoney` once the amount and both rates are
      read: a missing, zero or NaN rate leaves the amount as it is, otherwise
      it is multiplied by the first rate and divided by the second (the finite
      case spelled out); either way it is rounded to cents. */
  function ThroughUsd(x: real, fromRate: Num, toRate: Num): (r: Num)
    ensures x == 0.0 ==> r == Fin(0.0)
    ensures !(Truthy(fromRate) && Truthy(toRate)) ==> r == Fin(HalfAway(x, MoneyScale))
    ensures fromRate.Fin? && toRate.Fin? && fromRate.v != 0.0 && toRate.v != 0.0
      ==> r == Fin(HalfAway(Converted(x, fromRate.v, toRate.v), MoneyScale))
  {
    HalfAwayZero(MoneyScale);
    if !Truthy(fromRate) || !Truthy(toRate) then ToCurrencyNumber(Fin(x))
    else if fromRate.Fin? && toRate.Fin? then ToCurrencyNumber(Fin(Converted(x, fromRate.v, toRate.v)))
    else
      ZeroThroughUsd(fromRate, toRate);
      ToCurrencyNumber(Div(Mul(Fin(x), fromRate), toRate))
  }

  /** With truthy rates the conversion is `toCurrencyNumber(value * from / to)`
      in IEEE arithmetic. */
  lemma ThroughUsdIsIeee(x: real, fromRate: Num, toRate: Num)
    requires Truthy(fromRate) && Truthy(toRate)
    ensures ThroughUsd(x, fromRate, toRate) == ToCurrencyNumber(Div(Mul(Fin(x), fromRate), toRate))
  {
    if fromRate.Fin? && toRate.Fin? {
      FiniteThroughUsd(x, fromRate, toRate);
    }
  }

  /** At finite non-zero rates the conversion is exact before rounding. */
  lemma FiniteThroughUsd(x: real, fromRate: Num, toRate: Num)
    requires fromRate.Fin? && toRate.Fin? && toRate.v != 0.0
    ensures Div(Mul(Fin(x), fromRate), toRate) == Fin(Converted(x, fromRate.v, toRate.v))
  {
  }

  /** Zero stays zero whatever the (truthy) rates, infinite ones included. */
  lemma ZeroThroughUsd(fromRate: Num, toRate: Num)
    requires Truthy(fromRate) && Truthy(toRate)
    ensures ToCurrencyNumber(Div(Mul(Fin(0.0), fromRate), toRate)) == Fin(0.0)
  {
    HalfAwayZero(MoneyScale);
    var usdValue := Mul(Fin(0.0), fromRate);
    if fromRate.Fin? {
      assert usdValue == Fin(0.0);
      if toRate.Fin? {
        assert Div(usdValue, toRate) == Fin(0.0);
      }
    } else {
      assert usdValue == NaN;
    }
  }

  /** `convertMoney(value, fromCode, toCode)`: a non-finite amount gives 0;
      otherwise the amount is converted at the rates of the two currencies. */
  function ConvertMoney(value: Num, fromCode: Option<string>, toCode: Option<string>, usdRates: map<string, Num>): (r: Num)
    ensures !value.Fin? || value.v == 0.0 ==> r == Fin(0.0)
    ensures value.Fin? ==> r == ThroughUsd(value.v, RateFor(fromCode, usdRates), RateFor(toCode, usdRates))
  {
    var numeric := NumberOrZero(Some(value));
    if !numeric.Fin? then Fin(0.0)
    else ThroughUsd(numeric.v, RateFor(fromCode, usdRates), RateFor(toCode, usdRates))
  }

  /** Converting at equal finite rates only rounds to cents. */
  lemma ThroughUsdSameRate(x: real, rate: Num)
    requires rate.Fin?
    ensures ThroughUsd(x, rate, rate) == Fin(HalfAway(x, MoneyScale))
  {
    if rate.v != 0.0 {
      ConvertedSameRate(x, rate.v);
    }
  }

  /** Converting a currency to itself at a finite rate only rounds to cents. */
  lemma ConvertToSameCurrency(value: real, code: Option<string>, usdRates: map<string, Num>)
    requires RateFor(code, usdRates).Fin?
    ensures ConvertMoney(Fin(value), code, code, usdRates) == Fin(HalfAway(value, MoneyScale))
  {
    ThroughUsdSameRate(value, RateFor(code, usdRates));
  }

  /** With normalised positive rates every finite amount converts to a cent
      amount through US dollars. */
  lemma ConvertWithNormalizedRates(value: real, fromCode: Option<string>, toCode: Option<string>, rates: map<string, Num>)
    requires forall c :: c in rates ==> rates[c].Fin? && rates[c].v > 0.0
    ensures var usdRates := NormalizeRates(rates);
      var a := RateFor(fromCode, usdRates); var b := RateFor(toCode, usdRates);
      && a.Fin? && a.v > 0.0 && b.Fin? && b.v > 0.0
      && ConvertMoney(Fin(value), fromCode, toCode, usdRates) == Fin(HalfAway(Converted(value, a.v, b.v), MoneyScale))
  {
    RateForNormalized(fromCode, rates);
    RateForNormalized(toCode, rates);
    ConvertAtPositiveRates(value, fromCode, toCode, NormalizeRates(rates));
  }

  /** At positive rates a finite amount converts through US dollars. */
  lemma ConvertAtPositiveRates(value: real, fromCode: Option<string>, toCode: Option<string>, usdRates: map<string, Num>)
    requires RateFor(fromCode, usdRates).Fin? && RateFor(fromCode, usdRates).v > 0.0
    requires RateFor(toCode, usdRates).Fin? && RateFor(toCode, usdRates).v > 0.0
    ensures ConvertMoney(Fin(value), fromCode, toCode, usdRates)
      == Fin(HalfAway(Converted(value, RateFor(fromCode, usdRates).v, RateFor(toCode, usdRates).v), MoneyScale))
  {
    var a, b := RateFor(fromCode, usdRates), RateFor(toCode, usdRates);
    assert ConvertMoney(Fin(value), fromCode, toCode, usdRates) == ThroughUsd(value, a, b);
  }

  /** Any code finds a positive rate among normalised positive rates. */
  lemma RateForNormalized(code: Option<string>, rates: map<string, Num>)
    requires forall c :: c in rates ==> rates[c].Fin? && rates[c].v > 0.0
    ensures RateFor(code, NormalizeRates(rates)).Fin? && RateFor(code, NormalizeRates(rates)).v > 0.0
  {
    var usdRates := NormalizeRates(rates);
    NormalizedRatesPositive(rates);
    var c := Currencies.GetCurrencyMeta(CodeOrDefault(code)).code;
    Currencies.CurrencyMetaCode(CodeOrDefault(code));
    assert c in usdRates;
  }

  // ---------------------------------------------------------------------------
  // Totals while editing

  /** A line of the form. `id` stands for the fields the form carries along
      untouched. */
  datatype FormItem = FormItem(id: Option<string>, description: Option<string>, quantity: Option<Num>, rate: Option<Num>)

  /** `(Number(item.quantity) || 0) * (Number(item.rate) || 0)`, with the
      finite case spelled out. */
  function LineValue(item: FormItem): Num {
    var q, u := NumberOrZero(item.quantity), NumberOrZero(item.rate);
    if q.Fin? && u.Fin? then Fin(q.v * u.v) else Mul(q, u)
  }

  /** The `reduce` over the items, from the first to the last. */
  function FormSubtotal(items: seq<FormItem>): Num {
    if |items| == 0 then Fin(0.0)
    else Add(FormSubtotal(items[..|items| - 1]), LineValue(items[|items| - 1]))
  }

  /** The quantity and the rate of a line read as finite numbers. */
  predicate FiniteLine(item: FormItem) {
    NumberOrZero(item.quantity).Fin? && NumberOrZero(item.rate).Fin?
  }

  predicate FiniteForm(items: seq<FormItem>) {
    forall i :: 0 <= i < |items| ==> FiniteLine(items[i])
  }

  /** The exact value of a finite line. */
  function ExactLine(item: FormItem): real
    requires FiniteLine(item)
  {
    NumberOrZero(item.quantity).v * NumberOrZero(item.rate).v
  }

  /** A finite line is worth its exact value. */
  lemma LineValueExact(item: FormItem)
    requires FiniteLine(item)
    ensures LineValue(item) == Fin(ExactLine(item))
  {
  }

  /** The exact sum of quantity times rate over the lines. */
  function ExactSum(items: seq<FormItem>): real
    requires FiniteForm(items)
  {
    if |items| == 0 then 0.0 else ExactSum(items[..|items| - 1]) + ExactLine(items[|items| - 1])
  }

  /** With finite fields the running subtotal is the exact sum: no NaN or
      infinity creeps in. */
  lemma {:induction false} FormSubtotalExact(items: seq<FormItem>)
    requires FiniteForm(items)
    ensures FormSubtotal(items) == Fin(ExactSum(items))
  {
    if |items| > 0 {
      var init, last := items[..|items| - 1], items[|items| - 1];
      FormSubtotalExact(init);
      LineValueExact(last);
      AddFinite(ExactSum(init), ExactLine(last));
    }
  }

  lemma FormSubtotalWhenFinite(items: seq<FormItem>)
    ensures FiniteForm(items) ==> FormSubtotal(items) == Fin(ExactSum(items))
  {
    if FiniteForm(items) {
      FormSubtotalExact(items);
    }
  }

  /** The figures shown while editing. */
  datatype FormTotals = FormTotals(subtotal: Num, tax: Num, total: Num, balanceDue: Num)

  /** `subtotal * (taxRate / 100)` on finite figures. */
  function TaxOn(subtotal: real, taxRate: real): real {
    subtotal * taxRate / 100.0
  }

  /** `tax`, `total` and `balanceDue` from the subtotal, the tax rate in
      percent and the amount paid. The balance is not clamped at zero. */
  function TotalsFrom(subtotal: Num, taxRate: Num, paid: Num): (t: FormTotals)
    ensures t.subtotal == subtotal
    ensures subtotal.Fin? && taxRate.Fin? && paid.Fin? ==>
      var tax := TaxOn(subtotal.v, taxRate.v);
      && t.tax == Fin(tax)
      && t.total == Fin(subtotal.v + tax)
      && t.balanceDue == Fin(subtotal.v + tax - paid.v)
  {
    FiniteTotals(subtotal, taxRate, paid);
    var tax := Div(Mul(subtotal, taxRate), Fin(100.0));
    var total := Add(subtotal, tax);
    FormTotals(subtotal, tax, total, Sub(total, paid))
  }

  lemma FiniteTotals(subtotal: Num, taxRate: Num, paid: Num)
    ensures subtotal.Fin? && taxRate.Fin? && paid.Fin? ==>
      var tax := Div(Mul(subtotal, taxRate), Fin(100.0));
      && tax == Fin(TaxOn(subtotal.v, taxRate.v))
      && Add(subtotal, tax) == Fin(subtotal.v + TaxOn(subtotal.v, taxRate.v))
      && Sub(Add(subtotal, tax), paid) == Fin(subtotal.v + TaxOn(subtotal.v, taxRate.v) - paid.v)
  {
  }

  /** The derived `subtotal`, `tax`, `total` and `balanceDue` of the form:
      with finite fields they are the figures of the exact sum of the lines. */
  function ComputeFormTotals(items: seq<FormItem>, taxRate: Option<Num>, amountPaid: Option<Num>): (t: FormTotals)
    ensures t.subtotal == FormSubtotal(items)
    ensures FiniteForm(items) ==>
      t == TotalsFrom(Fin(ExactSum(items)), NumberOrZero(taxRate), NumberOrZero(amountPaid))
  {
    FormSubtotalWhenFinite(items);
    TotalsFrom(FormSubtotal(items), NumberOrZero(taxRate), NumberOrZero(amountPaid))
  }

  // ---------------------------------------------------------------------------
  // Currency switch

  /** The value a field is rescaled from and to: `Number(x ?? 0)`; a finite
      value is converted, anything else is kept. */
  function RescaleValue(x: Option<Num>, fromCode: Option<string>, toCode: Option<string>, usdRates: map<string, Num>): (r: Num)
    ensures x.None? ==> r == Fin(0.0)
    ensures x.Some? && !x.value.Fin? ==> r == x.value
    ensures x.Some? && x.value.Fin? ==> r == ConvertMoney(x.value, fromCode, toCode, usdRates)
  {
    var value := x.GetOr(Fin(0.0));
    if value.Fin? then ConvertMoney(value, fromCode, toCode, usdRates) else value
  }

  /** The `map` over the items: each rate is rescaled, everything else kept. */
  function RescaleItems(items: seq<FormItem>, fromCode: Option<string>, toCode: Option<string>, usdRates: map<string, Num>): (r: seq<FormItem>)
    ensures |r| == |items|
    ensures forall i :: 0 <= i < |r| ==>
      r[i] == items[i].(rate := Some(RescaleValue(items[i].rate, fromCode, toCode, usdRates)))
  {
    seq(|items|, i requires 0 <= i < |items| =>
      items[i].(rate := Some(RescaleValue(items[i].rate, fromCode, toCode, usdRates))))
  }

  /** The form fields the currency switch touches. */
  datatype FormState = FormState(items: seq<FormItem>, amountPaid: Option<Num>)

  /** The rescale of the form from `previous` to `next`: every line rate and
      the amount paid are converted. */
  function Rescale(state: FormState, previous: string, next: string, usdRates: map<string, Num>): (r: FormState)
    ensures r.items == RescaleItems(state.items, Some(previous), Some(next), usdRates)
    ensures r.amountPaid == Some(RescaleValue(state.amountPaid, Some(previous), Some(next), usdRates))
  {
    FormState(
      RescaleItems(state.items, Some(previous), Some(next), usdRates),
      Some(RescaleValue(state.amountPaid, Some(previous), Some(next), usdRates)))
  }

  /** The two references the effect keeps between runs: the code it last
      saw, and the code of an invoice being loaded, whose amounts are already
      in that currency. */
  datatype SwitchRefs = SwitchRefs(previous: Option<string>, pending: Option<string>)

  /** The effect run when the currency code is `current`. On the first run
      (no previous code, or an empty one) it only records the code; when the
      code has not changed it only forgets the pending load; when the change
      comes from loading an invoice in that currency it records the code
      without touching the amounts; otherwise it rescales the form. */
  function CurrencyEffect(state: FormState, refs: SwitchRefs, current: string, usdRates: map<string, Num>): (r: (FormState, SwitchRefs))
    ensures refs.previous.None? || refs.previous.value == [] ==> r == (state, refs.(previous := Some(current)))
    ensures refs.previous.Some? && refs.previous.value != [] && refs.previous.value == current ==> r == (state, refs.(pending := None))
    ensures refs.previous.Some? && refs.previous.value != [] && refs.previous.value != current ==>
      && r.1 == SwitchRefs(Some(current), None)
      && r.0 == (if refs.pending == Some(current) then state else Rescale(state, refs.previous.value, current, usdRates))
  {
    if refs.previous.None? || refs.previous.value == [] then (state, refs.(previous := Some(current)))
    else if refs.previous.value == current then (state, refs.(pending := None))
    else if refs.pending == Some(current) then (state, SwitchRefs(Some(current), None))
    else (Rescale(state, refs.previous.value, current, usdRates), SwitchRefs(Some(current), None))
  }

  /** After any run the effect remembers the current code, so a second run
      with the same code changes nothing in the form. */
  lemma CurrencyEffectSettles(state: FormState, refs: SwitchRefs, current: string, usdRates: map<string, Num>)
    ensures var (s1, refs1) := CurrencyEffect(state, refs, current, usdRates);
      && refs1.previous == Some(current)
      && CurrencyEffect(s1, refs1, current, usdRates).0 == s1
  {
  }

  /** The form is rescaled exactly when a previous non-empty code differs from
      the current one and no load in the current currency is pending. */
  lemma CurrencyEffectRescalesIff(state: FormState, refs: SwitchRefs, current: string, usdRates: map<string, Num>)
    ensures var rescales := refs.previous.Some? && refs.previous.value != [] && refs.previous.value != current
                            && refs.pending != Some(current);
      && (rescales ==> CurrencyEffect(state, refs, current, usdRates).0 == Rescale(state, refs.previous.value, current, usdRates))
      && (!rescales ==> CurrencyEffect(state, refs, current, usdRates).0 == state)
  {
  }

  /** A rescale keeps the number, order, descriptions and quantities of the
      lines, and leaves every finite rate and the amount paid on whole cents. */
  lemma SwitchKeepsLines(state: FormState, previous: string, next: string, usdRates: map<string, Num>)
    ensures var r := Rescale(state, previous, next, usdRates);
      && |r.items| == |state.items|
      && (forall i :: 0 <= i < |r.items| ==>
            r.items[i].id == state.items[i].id
            && r.items[i].description == state.items[i].description
            && r.items[i].quantity == state.items[i].quantity
            && (state.items[i].rate.Some? && !state.items[i].rate.value.Fin? ==> r.items[i].rate == state.items[i].rate)
            && (r.items[i].rate.value.Fin? && RateFor(Some(previous), usdRates).Fin? && RateFor(Some(next), usdRates).Fin?
                ==> OnGrid(r.items[i].rate.value.v, MoneyScale)))
      && ((r.amountPaid.value.Fin? && RateFor(Some(previous), usdRates).Fin? && RateFor(Some(next), usdRates).Fin?)
          ==> OnGrid(r.amountPaid.value.v, MoneyScale))
  {
    var r := Rescale(state, previous, next, usdRates);
    forall i | 0 <= i < |r.items|
      ensures r.items[i].rate.value.Fin? && RateFor(Some(previous), usdRates).Fin? && RateFor(Some(next), usdRates).Fin?
              ==> OnGrid(r.items[i].rate.value.v, MoneyScale)
    {
      ConvertedOnGrid(state.items[i].rate, previous, next, usdRates);
    }
    ConvertedOnGrid(state.amountPaid, previous, next, usdRates);
  }

  /** A converted finite value is a whole number of cents. */
  lemma ConvertedOnGrid(x: Option<Num>, previous: string, next: string, usdRates: map<string, Num>)
    ensures var v := RescaleValue(x, Some(previous), Some(next), usdRates);
      v.Fin? && RateFor(Some(previous), usdRates).Fin? && RateFor(Some(next), usdRates).Fin? ==> OnGrid(v.v, MoneyScale)
  {
    ScaledZero(MoneyScale);
  }
}
