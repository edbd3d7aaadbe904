/** The client's currency table: the options offered, the two lookup maps
    built from them, and the lookup that falls back to US dollars. */
module Currencies {
  import opened Wrappers
  import Schema

  /** One entry of `currencyOptions` (`labelText` is its `label`).
      `fallbackUsdRate` is the value of one
      unit of the currency in US dollars. */
  datatype CurrencyOption = CurrencyOption(code: string, labelText: string, symbol: string, fallbackUsdRate: real)

  const CurrencyOptions: seq<CurrencyOption> := [
    CurrencyOption("USD", "USD ($)", "$", 1.0),
    CurrencyOption("EUR", "EUR (€)", "€", 1.08),
    CurrencyOption("CDF", "CDF (FC)", "FC", 0.00035),
    CurrencyOption("GBP", "GBP (£)", "£", 1.27),
    CurrencyOption("CAD", "CAD ($)", "$", 0.74)
  ]

  const DefaultCurrencyCode: string := "USD"

  function Codes(options: seq<CurrencyOption>): (codes: seq<string>)
    ensures |codes| == |options|
    ensures forall i :: 0 <= i < |options| ==> codes[i] == options[i].code
  {
    seq(|options|, i requires 0 <= i < |options| => options[i].code)
  }

  /** The `reduce` that keys each option by its code, later options
      overwriting earlier ones with the same code. */
  function IndexByCode(options: seq<CurrencyOption>): (m: map<string, CurrencyOption>)
    ensures m.Keys == set i | 0 <= i < |options| :: options[i].code
    ensures forall c :: c in m ==> m[c].code == c && m[c] in options
  {
    if |options| == 0 then map[]
    else
      var last := options[|options| - 1];
      IndexByCode(options[..|options| - 1])[last.code := last]
  }

  /** The `reduce` that keys each option's fallback rate by its code. */
  function RatesByCode(options: seq<CurrencyOption>): (m: map<string, real>)
    ensures m.Keys == IndexByCode(options).Keys
    ensures forall c :: c in m ==> m[c] == IndexByCode(options)[c].fallbackUsdRate
  {
    if |options| == 0 then map[]
    else
      var last := options[|options| - 1];
      RatesByCode(options[..|options| - 1])[last.code := last.fallbackUsdRate]
  }

  /** `currencyMap`. */
  function CurrencyMap(): map<string, CurrencyOption> {
    IndexByCode(CurrencyOptions)
  }

  /** `fallbackUsdRates`. */
  function FallbackUsdRates(): map<string, real> {
    RatesByCode(CurrencyOptions)
  }

  /** The option codes are exactly the server's currency codes, in the same
      order, without repetition, and every fallback rate is positive. */
  lemma OptionsMatchServerCurrencies()
    ensures Codes(CurrencyOptions) == Schema.CurrencyCodes
    ensures forall i, j :: 0 <= i < j < |CurrencyOptions| ==> CurrencyOptions[i].code != CurrencyOptions[j].code
    ensures forall i :: 0 <= i < |CurrencyOptions| ==> CurrencyOptions[i].fallbackUsdRate > 0.0
  {
  }

  /** When the codes are distinct, each option is found under its own code. */
  lemma {:induction false} IndexFindsEachOption(options: seq<CurrencyOption>)
    requires forall i, j :: 0 <= i < j < |options| ==> options[i].code != options[j].code
    ensures forall i :: 0 <= i < |options| ==> IndexByCode(options)[options[i].code] == options[i]
  {
    if |options| > 0 {
      var init := options[..|options| - 1];
      IndexFindsEachOption(init);
      forall i | 0 <= i < |options|
        ensures IndexByCode(options)[options[i].code] == options[i]
      {
        if i < |options| - 1 {
          assert options[i] == init[i];
        }
      }
    }
  }

  /** Every code of the table maps to its own option, and its fallback rate is
      that option's rate. */
  lemma TableEntries()
    ensures forall i :: 0 <= i < |CurrencyOptions| ==>
      && CurrencyMap()[CurrencyOptions[i].code] == CurrencyOptions[i]
      && FallbackUsdRates()[CurrencyOptions[i].code] == CurrencyOptions[i].fallbackUsdRate
  {
    OptionsMatchServerCurrencies();
    IndexFindsEachOption(CurrencyOptions);
  }

  /** Both maps hold exactly the server's currency codes. */
  lemma TableKeys()
    ensures CurrencyMap().Keys == set c | c in Schema.CurrencyCodes
    ensures FallbackUsdRates().Keys == CurrencyMap().Keys
  {
    OptionsMatchServerCurrencies();
    var codes := set i | 0 <= i < |CurrencyOptions| :: CurrencyOptions[i].code;
    forall c | c in Schema.CurrencyCodes ensures c in codes {
      var i :| 0 <= i < |Schema.CurrencyCodes| && Schema.CurrencyCodes[i] == c;
      assert CurrencyOptions[i].code == c;
    }
  }

  /** Every fallback rate is positive; the US dollar is worth one US dollar. */
  lemma FallbackRatesPositive()
    ensures forall c :: c in FallbackUsdRates() ==> FallbackUsdRates()[c] > 0.0
    ensures DefaultCurrencyCode in FallbackUsdRates() && FallbackUsdRates()[DefaultCurrencyCode] == 1.0
  {
    OptionsMatchServerCurrencies();
    TableEntries();
    assert CurrencyOptions[0].code == DefaultCurrencyCode;
  }

  /** `getCurrencyMeta(code)`: the option for a known code, the US dollar
      option for anything else, including a missing code. */
  function GetCurrencyMeta(code: Option<string>): (meta: CurrencyOption)
    ensures code.Some? && code.value in CurrencyMap() ==> meta == CurrencyMap()[code.value]
    ensures !(code.Some? && code.value in CurrencyMap()) ==> meta == CurrencyOptions[0]
    ensures meta in CurrencyOptions
  {
    TableEntries();
    FallbackRatesPositive();
    assert CurrencyOptions[0].code == DefaultCurrencyCode;
    if code.Some? && code.value in CurrencyMap() then CurrencyMap()[code.value]
    else CurrencyMap()[DefaultCurrencyCode]
  }

  /** The option found has the code asked for when it is known, and is the
      US dollar otherwise; either way its code is a known one. */
  lemma CurrencyMetaCode(code: Option<string>)
    ensures code.Some? && code.value in Schema.CurrencyCodes ==> GetCurrencyMeta(code).code == code.value
    ensures !(code.Some? && code.value in Schema.CurrencyCodes) ==> GetCurrencyMeta(code).code == DefaultCurrencyCode
    ensures GetCurrencyMeta(code).code in FallbackUsdRates()
  {
    TableKeys();
  }
}
