/**
 * The rate client and conversion engine (src/services/currencyService.js).
 *
 * The HTTP request is an oracle `fetch(provider, base)` that either delivers
 * the response body (a snapshot) or fails; which URL each provider is asked
 * and how the body is decoded are not modelled.
 */
module CurrencyService {
  import opened Wrappers
  import opened Builtins
  import opened CurrencyUtils

  /** The two rate providers the service knows: the keyed one and the free one. */
  datatype Provider = Fixer | ExchangeRateApi

  /** A response body: the base asked for, the snapshot date and, if present, the `rates` object. */
  datatype Snapshot = Snapshot(base: string, date: string, rates: Option<map<string, real>>)

  /** What a request yields: a body, or any network or HTTP failure. */
  datatype Response = Delivered(data: Snapshot) | Failed

  /** An outbound rate request to `provider` for the base currency given. */
  type Fetch = (Provider, string) -> Response

  /** The key used when the environment supplies none. */
  const PlaceholderKey := "YOUR_API_KEY_HERE"

  /** The one message every failed rate request is reported with. */
  const FetchFailedMessage := "Failed to fetch exchange rates. Please try again later."

  /** What `getSupportedCurrencies` returns when it cannot list the rates. */
  const FallbackCurrencies: seq<string> := ["USD", "EUR", "GBP", "JPY", "AUD", "CAD", "CHF", "CNY", "INR", "MXN"]

  /** The error `convertCurrency` throws when the target has no usable rate. */
  function NotFoundMessage(code: string): string
  {
    "Currency " + code + " not found"
  }

  /** `VITE_FIXER_API_KEY || 'YOUR_API_KEY_HERE'`: a missing or empty variable means the placeholder. */
  function FixerApiKey(env: Option<string>): (key: string)
    ensures env.Some? && env.value != "" ==> key == env.value
    ensures env.None? || env.value == "" ==> key == PlaceholderKey
  {
    if env.Some? && env.value != "" then env.value else PlaceholderKey
  }

  /** `!rates || !rates[code]`: no rates object, no entry, or a zero (falsy) rate. */
  predicate NoUsableRate(rates: Option<map<string, real>>, code: string)
  {
    rates.None? || code !in rates.value || rates.value[code] == 0.0
  }

  class CurrencyService {
    /** Set to false by the constructor and never reassigned. */
    const useFixerAPI: bool := false
    const fixerApiKey: string

    constructor (env: Option<string>)
      ensures fixerApiKey == FixerApiKey(env)
    {
      fixerApiKey := FixerApiKey(env);
    }

    /** The provider `getLatestRates` asks: the keyed one only when enabled and given a real key. */
    function ActiveProvider(): (p: Provider)
      ensures p == ExchangeRateApi
    {
      if useFixerAPI && fixerApiKey != PlaceholderKey then Fixer else ExchangeRateApi
    }

    /** `getLatestRates`: the delivered body, or the fixed message for any failure. */
    function GetLatestRates(base: string, fetch: Fetch): (r: Result<Snapshot, string>)
      ensures fetch(ExchangeRateApi, base).Delivered? ==> r == Success(fetch(ExchangeRateApi, base).data)
      ensures fetch(ExchangeRateApi, base).Failed? ==> r == Failure(FetchFailedMessage)
    {
      match fetch(ActiveProvider(), base)
      case Delivered(data) => Success(data)
      case Failed => Failure(FetchFailedMessage)
    }

    /**
     * `convertCurrency`: fetch rates with base `from` and price `amount` at
     * the rate for `to`; errors from the fetch are passed on unchanged.
     */
    function ConvertCurrency(amount: real, from: string, to: string, fetch: Fetch): (r: Result<Conversion, string>)
      ensures fetch(ExchangeRateApi, from).Failed? ==> r == Failure(FetchFailedMessage)
      ensures fetch(ExchangeRateApi, from).Delivered? ==>
        var data := fetch(ExchangeRateApi, from).data;
        && (NoUsableRate(data.rates, to) <==> r == Failure(NotFoundMessage(to)))
        && (r.Success? <==> !NoUsableRate(data.rates, to))
      ensures r.Success? ==>
        var data := fetch(ExchangeRateApi, from).data;
        && fetch(ExchangeRateApi, from).Delivered?
        && data.rates.Some? && to in data.rates.value
        && r.value.from == from && r.value.to == to && r.value.amount == amount
        && r.value.rate == data.rates.value[to] && r.value.rate != 0.0
        && r.value.convertedAmount == amount * r.value.rate
        && r.value.date == data.date
    {
      match GetLatestRates(from, fetch)
      case Failure(message) => Failure(message)
      case Success(data) =>
        if NoUsableRate(data.rates, to) then Failure(NotFoundMessage(to))
        else
          var rate := data.rates.value[to];
          Success(Conversion(from, to, amount, amount * rate, rate, data.date))
    }

    /**
     * `getSupportedCurrencies`: the keys of the USD snapshot in ascending
     * order, or the fixed fallback list when the request fails or the body
     * has no rates object (`Object.keys(undefined)` throws).
     */
    function GetSupportedCurrencies(fetch: Fetch): (codes: seq<string>)
      ensures var response := fetch(ExchangeRateApi, "USD");
        if response.Delivered? && response.data.rates.Some? then
          && StrictlySorted(codes)
          && Distinct(codes)
          && (forall c :: c in codes <==> c in response.data.rates.value)
        else codes == FallbackCurrencies
    {
      match GetLatestRates("USD", fetch)
      case Failure(_) => FallbackCurrencies
      case Success(data) =>
        match data.rates
        case None => FallbackCurrencies
        case Some(rates) =>
          var codes := SortedSet(rates.Keys);
          SortedIsDistinct(codes);
          codes
    }
  }

  /** A successful conversion is exactly the amount times the target's rate in the snapshot for `from`. */
  lemma ConversionUsesSnapshotRate(service: CurrencyService, amount: real, from: string, to: string, fetch: Fetch, rate: real)
    requires fetch(ExchangeRateApi, from).Delivered?
    requires fetch(ExchangeRateApi, from).data.rates.Some?
    requires to in fetch(ExchangeRateApi, from).data.rates.value
    requires fetch(ExchangeRateApi, from).data.rates.value[to] == rate && rate != 0.0
    ensures service.ConvertCurrency(amount, from, to, fetch).Success?
    ensures service.ConvertCurrency(amount, from, to, fetch).value.convertedAmount == amount * rate
  {
  }

  /** The supported list is the one ascending arrangement of the snapshot's keys. */
  lemma SupportedCurrenciesAreSortedKeys(service: CurrencyService, fetch: Fetch, listing: seq<string>)
    requires fetch(ExchangeRateApi, "USD").Delivered?
    requires fetch(ExchangeRateApi, "USD").data.rates.Some?
    requires StrictlySorted(listing)
    requires forall c :: c in listing <==> c in fetch(ExchangeRateApi, "USD").data.rates.value
    ensures service.GetSupportedCurrencies(fetch) == listing
  {
    var rates := fetch(ExchangeRateApi, "USD").data.rates.value;
    SortedSetCharacterised(rates.Keys, listing);
  }
}
