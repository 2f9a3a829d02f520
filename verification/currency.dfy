/**
 * The exchange-rate service (src/services/currency-service.ts): a 24-hour
 * cache in front of the rate provider, the restriction of the provider's
 * answer to the currencies the table names, and the fallback tables used
 * when there is no API key or the provider fails.
 *
 * Whether the API key is set, the clock and the provider's answer are
 * inputs. Rates are kept as the numbers the provider sent and never
 * computed with.
 */
module Currency {
  import opened Types

  /** 24 hours, in milliseconds. */
  const CacheDuration: int := 1000 * 60 * 60 * 24

  /** `currencyNames`: the display name of every currency code the service knows. */
  const CurrencyNames: map<string, string> := map[
    "AED" := "UAE Dirham",
    "AFN" := "Afghan Afghani",
    "ALL" := "Albanian Lek",
    "AMD" := "Armenian Dram",
    "ANG" := "Netherlands Antillean Guilder",
    "AOA" := "Angolan Kwanza",
    "ARS" := "Argentine Peso",
    "AUD" := "Australian Dollar",
    "AWG" := "Aruban Florin",
    "AZN" := "Azerbaijani Manat",
    "BAM" := "Bosnia-Herzegovina Convertible Mark",
    "BBD" := "Barbadian Dollar",
    "BDT" := "Bangladeshi Taka",
    "BGN" := "Bulgarian Lev",
    "BHD" := "Bahraini Dinar",
    "BIF" := "Burundian Franc",
    "BMD" := "Bermudan Dollar",
    "BND" := "Brunei Dollar",
    "BOB" := "Bolivian Boliviano",
    "BRL" := "Brazilian Real",
    "BSD" := "Bahamian Dollar",
    "BTN" := "Bhutanese Ngultrum",
    "BWP" := "Botswanan Pula",
    "BYN" := "Belarusian Ruble",
    "BZD" := "Belize Dollar",
    "CAD" := "Canadian Dollar",
    "CDF" := "Congolese Franc",
    "CHF" := "Swiss Franc",
    "CLP" := "Chilean Peso",
    "CNY" := "Chinese Yuan",
    "COP" := "Colombian Peso",
    "CRC" := "Costa Rican Colón",
    "CUP" := "Cuban Peso",
    "CVE" := "Cape Verdean Escudo",
    "CZK" := "Czech Koruna",
    "DJF" := "Djiboutian Franc",
    "DKK" := "Danish Krone",
    "DOP" := "Dominican Peso",
    "DZD" := "Algerian Dinar",
    "EGP" := "Egyptian Pound",
    "ERN" := "Eritrean Nakfa",
    "ETB" := "Ethiopian Birr",
    "EUR" := "Euro",
    "FJD" := "Fijian Dollar",
    "FKP" := "Falkland Islands Pound",
    "FOK" := "Faroese Króna",
    "GBP" := "British Pound Sterling",
    "GEL" := "Georgian Lari",
    "GGP" := "Guernsey Pound",
    "GHS" := "Ghanaian Cedi",
    "GIP" := "Gibraltar Pound",
    "GMD" := "Gambian Dalasi",
    "GNF" := "Guinean Franc",
    "GTQ" := "Guatemalan Quetzal",
    "GYD" := "Guyanaese Dollar",
    "HKD" := "Hong Kong Dollar",
    "HNL" := "Honduran Lempira",
    "HRK" := "Croatian Kuna",
    "HTG" := "Haitian Gourde",
    "HUF" := "Hungarian Forint",
    "IDR" := "Indonesian Rupiah",
    "ILS" := "Israeli New Shekel",
    "IMP" := "Isle of Man Pound",
    "INR" := "Indian Rupee",
    "IQD" := "Iraqi Dinar",
    "IRR" := "Iranian Rial",
    "ISK" := "Icelandic Króna",
    "JEP" := "Jersey Pound",
    "JMD" := "Jamaican Dollar",
    "JOD" := "Jordanian Dinar",
    "JPY" := "Japanese Yen",
    "KES" := "Kenyan Shilling",
    "KGS" := "Kyrgystani Som",
    "KHR" := "Cambodian Riel",
    "KID" := "Kiribati Dollar",
    "KMF" := "Comorian Franc",
    "KRW" := "South Korean Won",
    "KWD" := "Kuwaiti Dinar",
    "KYD" := "Cayman Islands Dollar",
    "KZT" := "Kazakhstani Tenge",
    "LAK" := "Laotian Kip",
    "LBP" := "Lebanese Pound",
    "LKR" := "Sri Lankan Rupee",
    "LRD" := "Liberian Dollar",
    "LSL" := "Lesotho Loti",
    "LYD" := "Libyan Dinar",
    "MAD" := "Moroccan Dirham",
    "MDL" := "Moldovan Leu",
    "MGA" := "Malagasy Ariary",
    "MKD" := "Macedonian Denar",
    "MMK" := "Myanmar Kyat",
    "MNT" := "Mongolian Tugrik",
    "MOP" := "Macanese Pataca",
    "MRU" := "Mauritanian Ouguiya",
    "MUR" := "Mauritian Rupee",
    "MVR" := "Maldivian Rufiyaa",
    "MWK" := "Malawian Kwacha",
    "MXN" := "Mexican Peso",
    "MYR" := "Malaysian Ringgit",
    "MZN" := "Mozambican Metical",
    "NAD" := "Namibian Dollar",
    "NGN" := "Nigerian Naira",
    "NIO" := "Nicaraguan Córdoba",
    "NOK" := "Norwegian Krone",
    "NPR" := "Nepalese Rupee",
    "NZD" := "New Zealand Dollar",
    "OMR" := "Omani Rial",
    "PAB" := "Panamanian Balboa",
    "PEN" := "Peruvian Sol",
    "PGK" := "Papua New Guinean Kina",
    "PHP" := "Philippine Peso",
    "PKR" := "Pakistani Rupee",
    "PLN" := "Polish Zloty",
    "PYG" := "Paraguayan Guarani",
    "QAR" := "Qatari Rial",
    "RON" := "Romanian Leu",
    "RSD" := "Serbian Dinar",
    "RUB" := "Russian Ruble",
    "RWF" := "Rwandan Franc",
    "SAR" := "Saudi Riyal",
    "SBD" := "Solomon Islands Dollar",
    "SCR" := "Seychellois Rupee",
    "SDG" := "Sudanese Pound",
    "SEK" := "Swedish Krona",
    "SGD" := "Singapore Dollar",
    "SHP" := "Saint Helena Pound",
    "SLE" := "Sierra Leonean Leone",
    "SLL" := "Sierra Leonean Leone",
    "SOS" := "Somali Shilling",
    "SRD" := "Surinamese Dollar",
    "SSP" := "South Sudanese Pound",
    "STN" := "São Tomé & Príncipe Dobra",
    "SYP" := "Syrian Pound",
    "SZL" := "Eswatini Lilangeni",
    "THB" := "Thai Baht",
    "TJS" := "Tajikistani Somoni",
    "TMT" := "Turkmenistani Manat",
    "TND" := "Tunisian Dinar",
    "TOP" := "Tongan Paʻanga",
    "TRY" := "Turkish Lira",
    "TTD" := "Trinidad & Tobago Dollar",
    "TVD" := "Tuvaluan Dollar",
    "TWD" := "New Taiwan Dollar",
    "TZS" := "Tanzanian Shilling",
    "UAH" := "Ukrainian Hryvnia",
    "UGX" := "Ugandan Shilling",
    "USD" := "United States Dollar",
    "UYU" := "Uruguayan Peso",
    "UZS" := "Uzbekistani Som",
    "VES" := "Venezuelan Bolívar Soberano",
    "VND" := "Vietnamese Dong",
    "VUV" := "Vanuatu Vatu",
    "WST" := "Samoan Tālā",
    "XAF" := "CFA Franc BEAC",
    "XCD" := "East Caribbean Dollar",
    "XDR" := "Special Drawing Rights",
    "XOF" := "CFA Franc BCEAO",
    "XPF" := "CFP Franc",
    "YER" := "Yemeni Rial",
    "ZAR" := "South African Rand",
    "ZMW" := "Zambian Kwacha",
    "ZWL" := "Zimbabwean Dollar"
  ]

  /** `requestedCurrencyCodes`: African currencies, then EUR and USD. */
  const RequestedCodes: seq<string> := [
    "AOA", "BIF", "CVE", "XAF", "KMF", "CDF", "DJF", "EGP", "ERN", "SZL", "ETB", "XOF", "GMD",
    "GHS", "GNF", "KES", "LSL", "LRD", "LYD", "MGA", "MWK", "MRU", "MUR", "MAD", "MZN", "NAD",
    "NGN", "RWF", "STN", "SCR", "SLE", "SLL", "SOS", "ZAR", "SSP", "SDG", "TZS", "TND", "UGX",
    "ZMW", "ZWL", "EUR", "USD"
  ]

  /** `fallbackRates`: approximate rates against the US dollar. */
  const FallbackRates: map<string, real> := map[
    "USD" := 1.0,
    "EUR" := 0.92,
    "AOA" := 825.0,
    "BIF" := 2850.0,
    "CVE" := 102.0,
    "XAF" := 605.0,
    "KMF" := 455.0,
    "CDF" := 2700.0,
    "DJF" := 177.0,
    "EGP" := 47.0,
    "ERN" := 15.0,
    "SZL" := 18.0,
    "ETB" := 57.0,
    "XOF" := 605.0,
    "GMD" := 65.0,
    "GHS" := 13.0,
    "GNF" := 8600.0,
    "KES" := 130.0,
    "LSL" := 18.0,
    "LRD" := 190.0,
    "LYD" := 4.8,
    "MGA" := 4500.0,
    "MWK" := 1700.0,
    "MRU" := 39.0,
    "MUR" := 46.0,
    "MAD" := 10.0,
    "MZN" := 64.0,
    "NAD" := 18.0,
    "NGN" := 1400.0,
    "RWF" := 1300.0,
    "STN" := 22.0,
    "SCR" := 13.0,
    "SLE" := 22.0,
    "SLL" := 22000.0,
    "SOS" := 570.0,
    "ZAR" := 18.0,
    "SSP" := 1500.0,
    "SDG" := 600.0,
    "TZS" := 2600.0,
    "TND" := 3.1,
    "UGX" := 3800.0,
    "ZMW" := 25.0,
    "ZWL" := 13.0
  ]

  /** What the service answers: a rate and a name per currency code. */
  datatype CurrencyData = CurrencyData(rates: map<string, real>, names: map<string, string>)

  /** `currencyNames[code]` is truthy: the code has a non-empty name. */
  predicate HasName(code: string)
  {
    code in CurrencyNames && CurrencyNames[code] != ""
  }

  /** The names of those of `codes` that have one. */
  function NamesFor(codes: set<string>): (names: map<string, string>)
    ensures forall c :: c in names <==> c in codes && HasName(c)
  {
    map c | c in codes && HasName(c) :: CurrencyNames[c]
  }

  /** `fallbackNames`: the name of every requested code that has one. */
  function FallbackNames(): map<string, string>
  {
    NamesFor(Codes(RequestedCodes))
  }

  function FallbackData(): CurrencyData
  {
    CurrencyData(FallbackRates, FallbackNames())
  }

  /** The provider's answer to one fetch. */
  datatype Reply =
    | NetworkError                  // the request or the JSON parsing threw
    | Reply(ok: bool, result: string, conversionRates: map<string, real>)

  /** The provider's rates, restricted to the codes that have a name, with those names. */
  function KeepNamed(conversionRates: map<string, real>): CurrencyData
  {
    CurrencyData(map c | c in conversionRates && HasName(c) :: conversionRates[c], NamesFor(conversionRates.Keys))
  }

  /**
   * A kept code is one the provider sent and the table names; it keeps the
   * provider's rate and the table's name; rates and names cover the same
   * codes; and filtering an answer already filtered changes nothing.
   */
  lemma KeepNamedSpec(conversionRates: map<string, real>)
    ensures var d := KeepNamed(conversionRates);
            && d.rates.Keys == d.names.Keys
            && (forall c :: c in d.rates <==> c in conversionRates && HasName(c))
            && (forall c :: c in d.rates ==> d.rates[c] == conversionRates[c] && d.names[c] == CurrencyNames[c])
            && KeepNamed(d.rates) == d
  {
    var d := KeepNamed(conversionRates);
    assert d.rates.Keys == d.names.Keys;
    assert KeepNamed(d.rates).rates == d.rates;
    assert KeepNamed(d.rates).names == d.names;
  }

  /** The loop of `getCurrencyData` over the provider's codes, in whatever order it visits them. */
  method FilterRates(conversionRates: map<string, real>) returns (d: CurrencyData)
    ensures d == KeepNamed(conversionRates)
  {
    var rates: map<string, real> := map[];
    var names: map<string, string> := map[];
    var remaining := conversionRates.Keys;
    while remaining != {}
      invariant remaining <= conversionRates.Keys
      invariant rates == map c | c in conversionRates.Keys - remaining && HasName(c) :: conversionRates[c]
      invariant names == NamesFor(conversionRates.Keys - remaining)
      decreases |remaining|
    {
      var code :| code in remaining;
      if HasName(code) {
        rates := rates[code := conversionRates[code]];
        names := names[code := CurrencyNames[code]];
      }
      remaining := remaining - {code};
    }
    assert conversionRates.Keys - remaining == conversionRates.Keys;
    d := CurrencyData(rates, names);
  }

  /** The codes listed in `codes`. */
  function Codes(codes: seq<string>): set<string>
  {
    set c | c in codes
  }

  /** The `forEach` over the requested codes that fills `fallbackNames`. */
  method BuildFallbackNames() returns (names: map<string, string>)
    ensures names == FallbackNames()
  {
    names := NameCodes(RequestedCodes);
  }

  /** Records the name of each code of `codes` that has one, in list order. */
  method NameCodes(codes: seq<string>) returns (names: map<string, string>)
    ensures names == NamesFor(Codes(codes))
  {
    names := map[];
    var i := 0;
    while i < |codes|
      invariant 0 <= i <= |codes|
      invariant names == NamesFor(Codes(codes[..i]))
    {
      var code := codes[i];
      if HasName(code) {
        names := names[code := CurrencyNames[code]];
      }
      assert codes[..i + 1] == codes[..i] + [code];
      assert Codes(codes[..i] + [code]) == Codes(codes[..i]) + {code};
      i := i + 1;
    }
    assert codes[..i] == codes;
  }

  /** The module-level cache: the last good answer and when it was fetched. */
  datatype CacheState = CacheState(cachedData: Option<CurrencyData>, lastFetchTime: int)

  /** Whether a cached answer may be served at `now`. */
  predicate Fresh(s: CacheState, now: int)
  {
    s.cachedData.Some? && now - s.lastFetchTime < CacheDuration
  }

  /** One call of `getCurrencyData`: its answer and the cache afterwards. */
  function Step(s: CacheState, apiKeySet: bool, now: int, reply: Reply): (CurrencyData, CacheState)
  {
    if !apiKeySet then (FallbackData(), s)
    else if Fresh(s, now) then (s.cachedData.value, s)
    else if reply.NetworkError? || !reply.ok || reply.result != "success" then (FallbackData(), s)
    else (KeepNamed(reply.conversionRates), CacheState(Some(KeepNamed(reply.conversionRates)), now))
  }

  /**
   * Without a key the fallback tables are answered and the cache is left
   * alone; a failed fetch answers the same and also leaves the cache alone;
   * a good answer replaces the cache and stamps it with `now`.
   */
  lemma StepSpec(s: CacheState, apiKeySet: bool, now: int, reply: Reply)
    ensures !apiKeySet ==> Step(s, apiKeySet, now, reply) == (FallbackData(), s)
    ensures apiKeySet && Fresh(s, now) ==> Step(s, apiKeySet, now, reply) == (s.cachedData.value, s)
    ensures apiKeySet && !Fresh(s, now) && (reply.NetworkError? || !reply.ok || reply.result != "success") ==>
              Step(s, apiKeySet, now, reply) == (FallbackData(), s)
    ensures apiKeySet && !Fresh(s, now) && reply.Reply? && reply.ok && reply.result == "success" ==>
              var (d, s') := Step(s, apiKeySet, now, reply);
              && s'.cachedData == Some(d) && s'.lastFetchTime == now
              && d.rates.Keys == d.names.Keys
              && (forall c :: c in d.rates <==> c in reply.conversionRates && HasName(c))
  {
    if reply.Reply? {
      KeepNamedSpec(reply.conversionRates);
    }
  }

  /**
   * After a good fetch at `t`, every call before `t` + 24 hours answers
   * the same data, whatever the provider would have said, and keeps the
   * cache.
   */
  lemma ServedFromCacheWithinDay(s: CacheState, t: int, reply: Reply, later: int, laterReply: Reply)
    requires !Fresh(s, t) && reply.Reply? && reply.ok && reply.result == "success"
    requires t <= later < t + CacheDuration
    ensures var (d, s') := Step(s, true, t, reply);
            Step(s', true, later, laterReply) == (d, s')
  {
  }

  /** Once the day is over, the next call asks the provider again. */
  lemma RefetchAfterDay(s: CacheState, later: int, laterReply: Reply)
    requires s.cachedData.Some? && later >= s.lastFetchTime + CacheDuration
    requires laterReply.Reply? && laterReply.ok && laterReply.result == "success"
    ensures Step(s, true, later, laterReply).1 == CacheState(Some(KeepNamed(laterReply.conversionRates)), later)
  {
  }

  /** The fallback names name only requested codes, each with its table name. */
  lemma FallbackNamesSpec()
    ensures forall c :: c in FallbackNames() ==> c in RequestedCodes && FallbackNames()[c] == CurrencyNames[c]
    ensures forall c :: c in RequestedCodes && HasName(c) ==> c in FallbackNames()
  {
  }

  class CurrencyService {
    const apiKeySet: bool
    const fallbackNames: map<string, string>
    var cachedData: Option<CurrencyData>
    var lastFetchTime: int

    /** Module initialisation: no cache, and the fallback names built once. */
    constructor (apiKeySet: bool)
      ensures this.apiKeySet == apiKeySet && fallbackNames == FallbackNames()
      ensures cachedData == None && lastFetchTime == 0
    {
      this.apiKeySet := apiKeySet;
      var names := BuildFallbackNames();
      fallbackNames := names;
      cachedData := None;
      lastFetchTime := 0;
    }

    /** `getCurrencyData` at time `now`, given what the provider answers if asked. */
    method GetCurrencyData(now: int, reply: Reply) returns (d: CurrencyData)
      requires fallbackNames == FallbackNames()
      modifies this`cachedData, this`lastFetchTime
      ensures (d, CacheState(cachedData, lastFetchTime))
           == Step(CacheState(old(cachedData), old(lastFetchTime)), apiKeySet, now, reply)
    {
      if !apiKeySet {
        return CurrencyData(FallbackRates, fallbackNames);
      }
      if cachedData.Some? && now - lastFetchTime < CacheDuration {
        return cachedData.value;
      }
      if reply.NetworkError? || !reply.ok || reply.result != "success" {
        return CurrencyData(FallbackRates, fallbackNames);
      }
      d := FilterRates(reply.conversionRates);
      cachedData := Some(d);
      lastFetchTime := now;
    }
  }
}
