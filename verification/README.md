# Invoice engine and client helpers of open-facture

A Dafny model of the parts of open-facture that compute and check invoice
figures.

On the server, `buildInvoiceData` does the following:

- normalises the line items;
- rejects negative or non-finite numbers;
- recomputes subtotal, tax, total and balance due with one rounding rule;
- compares the client's figures with these within a tolerance of 0.02;
- checks the USD rate;
- returns the record to persist plus a `computed` block.

Also on the server:

- `prismaDuplicateGuard` turns a unique-constraint failure into a 409.
- The zod schema `invoicePayloadSchema` is the validity predicate on the request body.
- `HttpError` and its factories give each error kind its status.

On the client it covers:

- the currency table;
- the mapping of a server invoice to a history entry, and the formatting of its total;
- the pure helpers of the invoice editor: the invoice number, rounding to cents, the rate table, the issuer clean-up, currency conversion, the live totals, and the rescale on a currency switch;
- the history kept in local storage.

Money is exact (`real`). The server's `round(x, s)` is `floor(x·10^s + 1/2) / 10^s`. `toFixed(2)` rounds halves away from zero (`Money.HalfAway`) and is rendered as a string by `Money.Fixed2`.

Where the source tests `Number.isFinite` or `typeof … === 'number'`, a JavaScript number is a `Num`: `Fin(v)`, `NaN`, `PosInf` or `NegInf`. `Add`, `Sub`, `Mul` and `Div` follow IEEE-754 on these special values.

Modules:

| file | module | models |
|---|---|---|
| `wrappers.dfy` | `Wrappers` | `Option` and `Result` |
| `text.dfy` | `Text` | `trim`, decimal digits, `padStart` |
| `money.dfy` | `Money` | rounding to a scale, `toFixed(2)`, IEEE special values |
| `http_error.dfy` | `HttpErrors` | `server/src/utils/httpError.js` |
| `schema.dfy` | `Schema` | `server/src/schemas/invoice.js` |
| `engine.dfy` | `InvoiceEngine` | `server/src/lib/invoice.js` |
| `invoice_properties.dfy` | `InvoiceProperties` | properties relating the schema and the engine, and worked examples |
| `currencies.dfy` | `Currencies` | `src/constants/currencies.js` |
| `history_entry.dfy` | `HistoryEntry` | `src/utils/invoice.js` |
| `builder.dfy` | `InvoiceBuilder` | the pure helpers of `src/hooks/useInvoiceBuilder.js` |
| `builder_properties.dfy` | `InvoiceBuilderProperties` | properties of those helpers |
| `storage.dfy` | `HistoryStorage` | `src/utils/storage.js` |

Notes on the code's behaviour that the model keeps:

- A negative or non-finite item quantity or unit cost is an `unprocessable` error (422).
- `z.number().nonnegative()` and `z.number().min(0)` do not ask for a finite number, so the schema admits +Infinity (a JSON literal such as `1e999`) in every number field; the engine then rejects it on an item.
- `assertClose` lets a NaN value through, since `NaN > 0.02` is false. A supplied `currencyUsdRate` of NaN or `+Infinity` passes the `<= 0` check.
- The client's balance due is `total - amountPaid` with no clamp. Only the server clamps it at zero.

## Model

| member | source | states |
|---|---|---|
| HttpErrors.KindStatusRoundTrip | server/src/utils/httpError.js:12-19 | each error kind has its own status (400, 401, 403, 404, 409, 422), and a status identifies its kind |
| HttpErrors.NewHttpError | server/src/utils/httpError.js:1-10 | the error is named `HttpError` and keeps status and message; a payload is attached exactly when one is supplied |
| HttpErrors.BadRequestError | server/src/utils/httpError.js:12-13 | `badRequest` builds a 400 with the given message and payload |
| HttpErrors.UnauthorizedError | server/src/utils/httpError.js:14 | `unauthorized` builds a 401 that never carries a payload |
| HttpErrors.ForbiddenError | server/src/utils/httpError.js:15 | `forbidden` builds a 403 that never carries a payload |
| HttpErrors.NotFoundError | server/src/utils/httpError.js:16 | `notFound` builds a 404 that never carries a payload |
| HttpErrors.ConflictError | server/src/utils/httpError.js:17 | `conflict` builds a 409 with the given message and payload |
| HttpErrors.UnprocessableError | server/src/utils/httpError.js:18-19 | `unprocessable` builds a 422 with the given message and payload |
| Schema.ParseCurrency | server/src/schemas/invoice.js:3 | a code is accepted exactly when it is one of USD, EUR, CDF, GBP, CAD, and parses to the member with that code |
| Schema.CurrencyCodeRoundTrip | server/src/schemas/invoice.js:3 | every member of the enumeration parses back from its own code |
| Text.Trim | server/src/lib/invoice.js:22 | the trimmed text is empty exactly when the input is all whitespace; otherwise it starts and ends with a non-space |
| Text.TrimOfPadded | server/src/lib/invoice.js:22 | trimming removes exactly the leading and trailing whitespace around a text |
| Text.TrimIdempotent | server/src/lib/invoice.js:22 | trimming twice is trimming once |
| Text.PadStart | src/hooks/useInvoiceBuilder.js:20 | `padStart` keeps the text as the suffix, fills the front with the fill character, and never truncates |
| Text.NatToStringRoundTrip | src/hooks/useInvoiceBuilder.js:20 | the decimal digits of a number read back as the number |
| Money.Round | server/src/lib/invoice.js:12-15 | `round(x, s)` lands on the grid of scale `s` within half a step of `x`, halves going up; non-negative values stay non-negative |
| Money.RoundUnique | server/src/lib/invoice.js:12-15 | the rounded value is the only grid point within half a step (half-open) of `x` |
| Money.RoundOnGrid | server/src/lib/invoice.js:17-18 | rounding a value already on the grid leaves it unchanged, so `toDecimal` of a rounded figure is that figure |
| Money.RoundMonotone | server/src/lib/invoice.js:12-15 | rounding preserves order |
| Money.RoundMoneyError | server/src/lib/invoice.js:8-15 | rounding to cents moves a value by more than -0.005 and at most 0.005 |
| Money.HalfAway | src/hooks/useInvoiceBuilder.js:21 | `toFixed(2)` rounds to the nearest grid point: a non-negative value lies in the half-open window `[r - 1/2, r + 1/2)` of its result (a half goes up), a negative one in `(r - 1/2, r + 1/2]` (a half goes down), so halves go away from zero; the sign is kept and non-negative values agree with `round` |
| Money.ParseFixed2RoundTrip | src/utils/invoice.js:43 | the text `toFixed(2)` prints reads back as the value rounded to cents |
| InvoiceEngine.SanitizeString | server/src/lib/invoice.js:20-24 | absent or blank text becomes null; anything else is trimmed and non-empty |
| InvoiceEngine.NormalizeItem | server/src/lib/invoice.js:74-78 | a blank or missing description becomes `"Item"`, any other is trimmed; a missing quantity or unit cost counts as 0 |
| InvoiceEngine.NormalizeItems | server/src/lib/invoice.js:74-78 | one normalised item per raw item, in order |
| InvoiceEngine.CheckNonNegative | server/src/lib/invoice.js:26-32 | no error exactly when the value is finite and at least 0; otherwise a 422 with one issue on the field |
| InvoiceEngine.LineSum | server/src/lib/invoice.js:89-91 | the reference sum of quantity times unit cost over the items, never negative |
| InvoiceEngine.CheckItem | server/src/lib/invoice.js:84-87 | an item fails exactly when its quantity or unit cost is rejected; the quantity is reported first, on `items.<i>.quantity`, then the unit cost on `items.<i>.unitCost` |
| InvoiceEngine.CheckItems | server/src/lib/invoice.js:84-87 | the items pass exactly when every item is valid; otherwise the error is that of the first invalid item in index order |
| InvoiceEngine.RunningSum | server/src/lib/invoice.js:90 | the left-to-right `reduce` from 0 equals the sum of quantity times unit cost, and is never negative |
| InvoiceEngine.CheckClose | server/src/lib/invoice.js:34-49 | no error exactly when the value is absent, NaN, or within 0.02 of the computed one (a gap of exactly 0.02 passes); otherwise a 422 on the field whose message gives the expected value |
| InvoiceEngine.CheckOverpayment | server/src/lib/invoice.js:112-123 | no error exactly when the amount paid is at most the total plus 0.02; otherwise a 422 on `amountPaid` |
| InvoiceEngine.CheckUsdRate | server/src/lib/invoice.js:129-145 | a supplied rate that is 0, negative or -Infinity is a 422 on `currencyUsdRate`; absent, positive, NaN and +Infinity pass |
| InvoiceEngine.RoundNum | server/src/lib/invoice.js:169-170 | a finite USD rate is stored rounded to six decimals; NaN and the infinities pass through |
| InvoiceEngine.TaxFor | server/src/lib/invoice.js:99-100 | the computed tax is a non-negative cent amount, and 0 when no rate is given |
| InvoiceEngine.TaxStage | server/src/lib/invoice.js:93-107 | the tax-rate, subtotal and tax-amount checks pass exactly when the rate is valid and both figures agree (an omitted tax amount always agrees); the result is then the computed tax |
| InvoiceEngine.PaymentStage | server/src/lib/invoice.js:109-127 | the amount-paid, overpayment, total and balance checks pass exactly when they all hold; the result is the amount paid (default 0) and `round(max(total - paid, 0))` |
| InvoiceEngine.AfterTax | server/src/lib/invoice.js:109-188 | once the tax checks pass, the rest succeeds exactly when the payload is consistent, and returns the declarative `computed` block |
| InvoiceEngine.Subtotal | server/src/lib/invoice.js:89-91 | the subtotal is the exact sum of the products, rounded once to cents |
| InvoiceEngine.Aggregate | server/src/lib/invoice.js:93-127 | every aggregate check passes exactly when the payload is consistent with the subtotal; any failure is a 422; on success the `computed` block is the declarative one |
| InvoiceEngine.StoreItem | server/src/lib/invoice.js:173-178 | each stored item amount is its own product, rounded separately |
| InvoiceEngine.BuildInvoiceData | server/src/lib/invoice.js:73-82 | no items is a 400 before any other check; every other failure is a 422 |
| InvoiceEngine.BuildReportsFirstInvalidItem | server/src/lib/invoice.js:84-87 | with an invalid item, the build fails with the error of the first invalid item |
| InvoiceEngine.BuildSucceedsIff | server/src/lib/invoice.js:73-190 | the build succeeds exactly when there is an item, all items are valid, the figures are consistent and the USD rate is acceptable |
| InvoiceEngine.BuildComputes | server/src/lib/invoice.js:147-188 | on success the `computed` block has the declarative tax, total and balance, and the record is assembled from them |
| InvoiceEngine.BuildReportsLaterErrors | server/src/lib/invoice.js:93-145 | with valid items, an aggregate error is the one reported, and after it the USD-rate error |
| InvoiceEngine.DuplicateGuard | server/src/lib/invoice.js:192-204 | a `P2002` error becomes a 409 `HttpError` with one issue on the field (default `number`); any other error, null included, is rethrown unchanged |
| InvoiceProperties.SchemaValidItemsPass | server/src/schemas/invoice.js:5-55 | a payload the schema accepts has at least one item, and its items pass the engine's number checks exactly when every quantity and unit cost is finite |
| InvoiceProperties.SchemaValidBuildIff | server/src/schemas/invoice.js:18-56 | for a schema-valid payload the build succeeds exactly when the item numbers are finite, the figures are consistent and the USD rate is acceptable; otherwise it is a 422 |
| InvoiceProperties.SchemaAdmitsZeroRate | server/src/schemas/invoice.js:37 | a USD rate of 0 keeps a payload schema-valid, yet the engine rejects it with a 422 |
| InvoiceProperties.SchemaAdmitsInfiniteQuantity | server/src/schemas/invoice.js:8 | an infinite first quantity keeps a payload schema-valid, yet the engine rejects it with a 422 on `items.0.quantity` |
| InvoiceProperties.RejectedFirstQuantityReported | server/src/lib/invoice.js:84-87 | a first quantity that is negative, NaN or infinite is a 422 on `items.0.quantity`, whatever the rest of the payload holds |
| InvoiceProperties.NegativeFirstQuantityReported | server/src/lib/invoice.js:84-87 | a negative quantity on the first item is a 422 on `items.0.quantity` |
| InvoiceProperties.StoredSumDrift | server/src/lib/invoice.js:177 | the separately rounded item amounts drift from the exact sum by at most half a cent per item |
| InvoiceProperties.SubtotalVersusStoredItems | server/src/lib/invoice.js:89-177 | the subtotal and the sum of the stored item amounts differ by at most `(n + 1)` half-cents |
| InvoiceProperties.StoredItemsCanMissSubtotal | server/src/lib/invoice.js:89-177 | six items at half a cent give a subtotal of 0.03, while the stored amounts add up to 0.06 |
| InvoiceProperties.UniformSums | server/src/lib/invoice.js:89-177 | `n` copies of one item sum to `n` products exactly and to `n` rounded products as stored |
| InvoiceProperties.StoredBalanceWithinCent | server/src/lib/invoice.js:125-166 | the stored balance is `max(total - stored paid, 0)` or one cent more |
| InvoiceProperties.StoredBalanceCentOff | server/src/lib/invoice.js:125-166 | that cent occurs: total 1 and 0.125 paid store paid 0.13 and balance 0.88 |
| InvoiceProperties.StoredRateCanVanish | server/src/lib/invoice.js:133-170 | a USD rate of 0.0000001 passes the check but is stored as 0 |
| InvoiceProperties.OverpaymentReported | server/src/lib/invoice.js:112-123 | with agreeing tax figures, paying more than 0.02 above the total fails on `amountPaid` |
| InvoiceProperties.AggregateOverpaid | server/src/lib/invoice.js:106-123 | the aggregate checks report that overpayment on `amountPaid` |
| InvoiceProperties.NonPositiveRateReported | server/src/lib/invoice.js:129-145 | a non-positive USD rate on an otherwise consistent payload is a 422 on `currencyUsdRate` |
| InvoiceProperties.BuildStoresComputedFigures | server/src/lib/invoice.js:125-188 | the record stores the computed subtotal, total and balance; the balance is never negative; the tax fields are null exactly when no rate was given |
| InvoiceProperties.StoredFigures | server/src/lib/invoice.js:160-166 | the assembled record carries the cent figures of the `computed` block unchanged |
| InvoiceProperties.ScenarioFigures | server/src/lib/invoice.js:89-127 | items 2 x 50 and 1 x 25 with a 10% rate give subtotal 125, and the client's figures agree |
| InvoiceProperties.ScenarioComputes | server/src/lib/invoice.js:73-190 | that invoice with 100 paid computes 125.00, 12.50, 137.50 and a balance of 37.50 |
| InvoiceProperties.ScenarioNegativeRate | server/src/lib/invoice.js:129-145 | the same invoice with a USD rate of -1 is a 422 on `currencyUsdRate` |
| Currencies.Codes | src/constants/currencies.js:1-7 | the option codes, one per option, in order |
| Currencies.IndexByCode | src/constants/currencies.js:11-14 | the map is keyed by exactly the option codes, and each code maps to an option with that code |
| Currencies.RatesByCode | src/constants/currencies.js:16-19 | the rate map has the same keys, and each rate is the fallback rate of the option under that code |
| Currencies.OptionsMatchServerCurrencies | src/constants/currencies.js:1-7 | the option codes are exactly the server's currency codes, in order and distinct, and every fallback rate is positive |
| Currencies.IndexFindsEachOption | src/constants/currencies.js:11-14 | with distinct codes, each option is found under its own code |
| Currencies.TableEntries | src/constants/currencies.js:11-19 | `currencyMap[c]` is the option with code `c`, and `fallbackUsdRates[c]` is its rate |
| Currencies.TableKeys | src/constants/currencies.js:11-19 | both maps hold exactly the five currency codes |
| Currencies.FallbackRatesPositive | src/constants/currencies.js:1-19 | every fallback rate is positive, and the US dollar's is 1 |
| Currencies.GetCurrencyMeta | src/constants/currencies.js:9-22 | a known code finds its own option; anything else, a missing code included, finds the US dollar |
| Currencies.CurrencyMetaCode | src/constants/currencies.js:21-22 | the option found has the requested code when it is known and `USD` otherwise, and always has a fallback rate |
| HistoryEntry.DatePart | src/utils/invoice.js:11-12 | a date's first ten characters, or `''` exactly when the date is missing or empty |
| HistoryEntry.FirstPresent | src/utils/invoice.js:24-32 | `a ?? b` is `a` when present, else `b` |
| HistoryEntry.ToLocalItems | src/utils/invoice.js:33-37 | one entry item per invoice item, in order, with description, quantity and unit cost kept; missing items give an empty list |
| HistoryEntry.ToLocalHistoryEntry | src/utils/invoice.js:3-39 | the entry's type is `invoice`; dates are sliced; currency, symbol and label come from the currency table; terms, issuer, phone and e-mail follow their fallback chains; figures are copied |
| HistoryEntry.AmountText | src/utils/invoice.js:42-43 | the amount reads back as the total rounded to cents, or as 0 for a missing or non-finite total |
| HistoryEntry.WithCurrency | src/utils/invoice.js:47-53 | the amount, then a space and the symbol, else the label, else the code, else nothing |
| HistoryEntry.FormatInvoiceTotal | src/utils/invoice.js:41-54 | the formatted total starts with the amount; the suffix is the symbol if non-empty, else the label, else the code; there is no suffix exactly when all three are empty |
| HistoryEntry.ZeroText | src/utils/invoice.js:43 | `(0).toFixed(2)` is `0.00` |
| HistoryEntry.MappedEntryShowsSymbol | src/utils/invoice.js:3-54 | an entry mapped from a server invoice always shows its currency's symbol, the dollar sign for an unknown currency |
| HistoryEntry.MissingTotalShowsZero | src/utils/invoice.js:42-43 | a missing or non-finite total formats as `0.00` |
| InvoiceBuilder.FormatInvoiceNumber | src/hooks/useInvoiceBuilder.js:20 | `Fact-` and then the index's digits, left-padded with zeros to width four and never truncated |
| InvoiceBuilder.InvoiceNumberRoundTrip | src/hooks/useInvoiceBuilder.js:20 | every invoice number reads back as its index |
| InvoiceBuilder.InvoiceNumberInjective | src/hooks/useInvoiceBuilder.js:20 | distinct indexes never share a number |
| InvoiceBuilder.NumberOrZero | src/hooks/useInvoiceBuilder.js:21 | `Number(x \|\| 0)`: missing, zero and NaN read as 0; anything else, infinities included, is kept |
| InvoiceBuilder.ToCurrencyNumber | src/hooks/useInvoiceBuilder.js:21 | a finite value becomes its `toFixed(2)` rounding: the nearest cent amount, with a half going up for a non-negative value and down for a negative one, keeping the sign; NaN becomes 0; an infinity stays |
| InvoiceBuilder.ToCurrencyNumberReadsFixed2 | src/hooks/useInvoiceBuilder.js:21 | the rounding is exactly what printing with `toFixed(2)` and reading back gives |
| InvoiceBuilder.ToCurrencyNumberIdempotent | src/hooks/useInvoiceBuilder.js:21 | rounding to cents twice is rounding once |
| InvoiceBuilder.ToCurrencyNumberMatchesServer | src/hooks/useInvoiceBuilder.js:21 | on non-negative amounts the client rounds as the server's `round` does |
| InvoiceBuilder.FallbackRates | src/constants/currencies.js:16-19 | the fallback rate table as numbers, with the same keys and rates |
| InvoiceBuilder.Normalize | src/hooks/useInvoiceBuilder.js:37-41 | the keys are the fallback keys, the caller's keys and `USD`; the caller's entries override the fallbacks; `USD` is 1 whatever the input |
| InvoiceBuilder.NormalizeIdempotent | src/hooks/useInvoiceBuilder.js:37-41 | normalising twice is normalising once |
| InvoiceBuilder.NormalizeRatesIdempotent | src/hooks/useInvoiceBuilder.js:37-41 | `normalizeRates` is idempotent over the real fallback table |
| InvoiceBuilder.NormalizePositive | src/hooks/useInvoiceBuilder.js:37-41 | positive caller rates over a positive table normalise to positive rates, with every table currency present |
| InvoiceBuilder.FallbackRatesPositiveNumbers | src/constants/currencies.js:1-19 | every fallback rate is a positive finite number |
| InvoiceBuilder.NormalizedRatesPositive | src/hooks/useInvoiceBuilder.js:37-41 | after `normalizeRates` every known currency has a rate, and positive caller rates give positive rates only |
| InvoiceBuilder.CleanFields | src/hooks/useInvoiceBuilder.js:61-68 | exactly the listed keys whose values are present, non-null and non-empty once cleaned, each cleaned |
| InvoiceBuilder.Sanitize | src/hooks/useInvoiceBuilder.js:58-70 | nothing for a non-object; otherwise the surviving listed fields, cleaned, or nothing exactly when none survives |
| InvoiceBuilder.SanitizeIssuer | src/hooks/useInvoiceBuilder.js:43-70 | null for a non-object; otherwise exactly the twelve default issuer keys with non-blank values, trimmed, or null when none has one |
| InvoiceBuilder.CleanFieldsOfClean | src/hooks/useInvoiceBuilder.js:61-68 | a record of already clean, non-empty fields under listed keys cleans to itself |
| InvoiceBuilder.CodeOrDefault | src/hooks/useInvoiceBuilder.js:159-160 | `code \|\| DEFAULT_CURRENCY_CODE` is a non-empty code, the given one when non-empty |
| InvoiceBuilder.RateFor | src/hooks/useInvoiceBuilder.js:159-165 | the rate of the currency `getCurrencyMeta` finds: the caller's if listed, else its fallback rate |
| InvoiceBuilder.ConvertedSameRate | src/hooks/useInvoiceBuilder.js:169-170 | multiplying by a rate and dividing by the same rate gives the amount back |
| InvoiceBuilder.ThroughUsd | src/hooks/useInvoiceBuilder.js:167-171 | zero stays zero; a falsy rate leaves the amount only rounded to cents; finite non-zero rates give `value * from / to` rounded to cents |
| InvoiceBuilder.ThroughUsdIsIeee | src/hooks/useInvoiceBuilder.js:169-171 | with truthy rates the result is `toCurrencyNumber(value * from / to)` in IEEE arithmetic, infinite rates included |
| InvoiceBuilder.FiniteThroughUsd | src/hooks/useInvoiceBuilder.js:169-170 | at finite rates with a non-zero divisor the IEEE product and quotient are the exact ones |
| InvoiceBuilder.ZeroThroughUsd | src/hooks/useInvoiceBuilder.js:169-171 | zero converts to zero at any truthy rates |
| InvoiceBuilder.ConvertMoney | src/hooks/useInvoiceBuilder.js:154-174 | a non-finite or zero amount gives 0; a finite one is converted at the rates of the two currencies |
| InvoiceBuilder.ThroughUsdSameRate | src/hooks/useInvoiceBuilder.js:167-171 | converting at equal finite rates only rounds to cents |
| InvoiceBuilder.ConvertToSameCurrency | src/hooks/useInvoiceBuilder.js:154-174 | converting a currency to itself at a finite rate gives the amount rounded to cents |
| InvoiceBuilder.ConvertWithNormalizedRates | src/hooks/useInvoiceBuilder.js:37-174 | with normalised positive rates both rates are positive and a finite amount converts to `round(value * from / to, 2)` |
| InvoiceBuilder.ConvertAtPositiveRates | src/hooks/useInvoiceBuilder.js:162-171 | at positive rates a finite amount converts to `round(value * from / to, 2)` |
| InvoiceBuilder.RateForNormalized | src/hooks/useInvoiceBuilder.js:37-165 | any code finds a positive rate among normalised positive rates |
| InvoiceBuilder.LineValueExact | src/hooks/useInvoiceBuilder.js:260 | a line with finite fields is worth quantity times rate exactly |
| InvoiceBuilder.FormSubtotalExact | src/hooks/useInvoiceBuilder.js:257-264 | with finite fields the running subtotal is the exact sum of the lines; no NaN or infinity appears |
| InvoiceBuilder.FormSubtotalWhenFinite | src/hooks/useInvoiceBuilder.js:257-264 | whenever every line is finite, the subtotal is the exact sum |
| InvoiceBuilder.TotalsFrom | src/hooks/useInvoiceBuilder.js:266-268 | on finite figures, tax is `subtotal * taxRate / 100`, total is `subtotal + tax`, and the balance is `total - amountPaid` with no clamp |
| InvoiceBuilder.FiniteTotals | src/hooks/useInvoiceBuilder.js:266-268 | the IEEE tax, total and balance of finite figures are the exact ones |
| InvoiceBuilder.ComputeFormTotals | src/hooks/useInvoiceBuilder.js:257-268 | the subtotal is the `reduce` over the lines; with finite lines the figures are those of the exact sum, a missing or NaN rate or payment counting as 0 |
| InvoiceBuilder.RescaleValue | src/hooks/useInvoiceBuilder.js:373-385 | `Number(x ?? 0)`: a finite value is converted, anything else kept |
| InvoiceBuilder.RescaleItems | src/hooks/useInvoiceBuilder.js:371-379 | one line per line, each with its rate rescaled and all else kept |
| InvoiceBuilder.Rescale | src/hooks/useInvoiceBuilder.js:371-386 | every line rate and the amount paid are converted from the previous currency to the new one |
| InvoiceBuilder.CurrencyEffect | src/hooks/useInvoiceBuilder.js:353-390 | the first run only records the code; an unchanged code only forgets the pending load; a change caused by loading an invoice records the code without touching amounts; any other change rescales the form |
| InvoiceBuilder.CurrencyEffectSettles | src/hooks/useInvoiceBuilder.js:353-390 | after any run the current code is remembered, so a second run with the same code leaves the form unchanged |
| InvoiceBuilder.CurrencyEffectRescalesIff | src/hooks/useInvoiceBuilder.js:353-390 | the form is rescaled exactly when a non-empty previous code differs from the current one and no load in the current currency is pending |
| InvoiceBuilder.SwitchKeepsLines | src/hooks/useInvoiceBuilder.js:371-386 | a rescale keeps the count, order, ids, descriptions and quantities of the lines, keeps non-finite rates, and leaves finite converted figures on whole cents |
| InvoiceBuilder.ConvertedOnGrid | src/hooks/useInvoiceBuilder.js:373-385 | a finite converted value is a whole number of cents |
| InvoiceBuilderProperties.SanitizeIdempotent | src/hooks/useInvoiceBuilder.js:58-70 | with an idempotent clean-up, sanitising a sanitised record gives it back |
| InvoiceBuilderProperties.SanitizeIssuerIdempotent | src/hooks/useInvoiceBuilder.js:58-70 | a sanitised issuer sanitises to itself |
| InvoiceBuilderProperties.UntaxedFormBalance | src/hooks/useInvoiceBuilder.js:257-268 | with no tax rate the balance is the exact sum of the lines minus the amount paid |
| InvoiceBuilderProperties.UntaxedTotals | src/hooks/useInvoiceBuilder.js:266-268 | with no tax rate the figures are those of a 0% rate |
| InvoiceBuilderProperties.UntaxedBalance | src/hooks/useInvoiceBuilder.js:266-268 | at a 0% rate the balance is the subtotal minus the amount paid |
| InvoiceBuilderProperties.FormBalanceCanBeNegative | src/hooks/useInvoiceBuilder.js:268 | one line worth 10 with 15 paid shows a balance of -5; the client does not clamp |
| HistoryStorage.LoadHistory | src/utils/storage.js:2-13 | the stored array is returned; anything else gives `[]`; only unparsable text is removed, and a blank or non-array value stays |
| HistoryStorage.SaveHistory | src/utils/storage.js:15-17 | the history is stored as an array |
| HistoryStorage.ClearHistory | src/utils/storage.js:30-32 | the key holds no array afterwards |
| HistoryStorage.Position | src/utils/storage.js:21-22 | a whole in-range index names an existing position |
| HistoryStorage.Updated | src/utils/storage.js:21-25 | a whole in-range index replaces that entry only and keeps the length; any other in-range index changes no element; otherwise the invoice is appended after all earlier entries |
| HistoryStorage.AddInvoiceToHistory | src/utils/storage.js:19-28 | the returned history is the loaded one updated at the index, and that history is what is saved |
| HistoryStorage.LoadWithoutList | src/utils/storage.test.js:9-18 | nothing stored, blank, corrupt or non-array all load as `[]`, and only the corrupt value is removed |
| HistoryStorage.SaveThenLoad | src/utils/storage.test.js:20-24 | what is saved loads back unchanged |
| HistoryStorage.ClearThenLoad | src/utils/storage.js:2-32 | after a clear the history loads as `[]` |
| HistoryStorage.LoadTwice | src/utils/storage.js:2-13 | loading twice gives the history and slot of loading once |
| HistoryStorage.AddThenLoad | src/utils/storage.js:19-28 | the history an add returns is the one the next load sees |
| HistoryStorage.ReplaceSwapsOneEntry | src/utils/storage.js:21-22 | a replace removes exactly the old entry from the multiset of entries and adds the invoice |
| HistoryStorage.ReplaceIdempotent | src/utils/storage.js:21-22 | replacing an entry with itself changes nothing; replacing twice at an index is replacing once |
| HistoryStorage.AppendKeepsPrefix | src/utils/storage.js:23-24 | an out-of-range index appends the invoice to the unchanged history |
| HistoryStorage.OutOfRangeIndexes | src/utils/storage.js:21 | a missing, negative, NaN, infinite or too large index is out of range |

## Left out

- The `Number.EPSILON` nudge in `round` (server/src/lib/invoice.js:14) is not modelled. Every value the server rounds is non-negative, and on those half-up rounding of the exact value is what `Math.round` is meant to give.
- Floating-point rounding of sums, products and quotients is not modelled. Arithmetic on finite numbers is exact. `Num` keeps only the IEEE special values NaN and ±Infinity, and signed zero is not distinguished.
- `Money.Fixed2` renders every finite value positionally. `toFixed` switches to exponent notation at 1e21 and above.
- `Number(...)` applied to strings is not modelled. Form fields and issuer fields are numbers and strings already, and `String(value)` of a non-string issuer field is not modelled.
- Keys inherited through an object's prototype are not modelled. The issuer record's keys are the map's keys.
- Zod's e-mail, ISO-8601 date-time and UUID checks are opaque predicates. The date transform to a `Date` is not modelled. `exchangeRatesSnapshot` is an opaque value.
- Prisma is not modelled: `Prisma.Decimal` construction, persistence and the transaction. `toDecimal(x, s)` is `round(x, s)`, and the record holds the rounded reals.
- The Express routes, middleware and the error handler that turns an `HttpError` into a response are not part of this model. The invoice routes persist the client's totals without calling `buildInvoiceData`; this model is of the library.
- The editor hook's React state and references are not modelled. The currency effect is a function of the form fields it touches (`FormState`) and its two references (`SwitchRefs`). Everything else in `useInvoiceBuilder` is left out: the server sync, the logo upload, and the local-storage keys other than `invoicesHistory`.
- InvoiceBuilder.FormatInvoiceNumber: takes a natural number. The hook only passes history lengths plus one, so `String` of a negative or fractional index is not modelled.
- InvoiceBuilder.FormItem: carries `id`, `description`, `quantity` and `rate`. `id` stands for every other field, which the effect copies unchanged.
- HistoryStorage.SaveHistory: a history is stored as its array of entries. The JSON round trip is assumed exact, but it would turn a NaN or infinite figure into `null` and drop non-index properties. The `console.warn` on corrupt data is left out.
- InvoiceBuilderProperties.UntaxedFormBalance: takes the exact sum as a parameter tied to the lines by its precondition, rather than computing it inside the claim.
- InvoiceEngine.BuildInvoiceData: its own contract states only the error statuses. The full behaviour is stated by BuildSucceedsIff, BuildComputes, BuildReportsFirstInvalidItem and BuildReportsLaterErrors.
