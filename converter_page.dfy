/**
 * The state rules of the converter page (src/pages/Converter.jsx): validating
 * the amount and converting, swapping the two currencies, the recent
 * conversions, and the quick-reference rates.
 *
 * Each handler runs to completion here; the interleaving of the page's
 * asynchronous effects is not modelled.
 */
module ConverterPage {
  import opened Wrappers
  import opened Builtins
  import opened CurrencyUtils
  import opened CurrencyService

  /** The error shown for an amount that is not a number or not positive. */
  const InvalidAmountMessage := "Please enter a valid amount"

  /** How many history entries the page lists as recent. */
  const RecentLimit: nat := 10

  /** The currencies the quick-reference panel offers. */
  const PopularCurrencies: seq<string> := ["USD", "EUR", "GBP", "JPY", "AUD", "CAD"]

  /** What a quick-reference card shows when no rate is known. */
  const NotAvailable := "N/A"

  /** `isNaN(n) || n <= 0` on the parsed amount: `None` stands for NaN. */
  predicate InvalidAmount(parsed: Option<real>)
  {
    parsed.None? || parsed.value <= 0.0
  }

  /**
   * `getQuickConversion`: "N/A" without a usable rate, otherwise
   * `1 <from> = <rate> <currency>` with the rate's four-decimal text `toFixed4`.
   */
  function QuickConversion(rates: Option<map<string, real>>, fromCurrency: string, currency: string, toFixed4: real -> string): (text: string)
    ensures text == NotAvailable <==> NoUsableRate(rates, currency)
    ensures !NoUsableRate(rates, currency) ==>
      && "1 " + fromCurrency + " = " <= text
      && text[|"1 " + fromCurrency + " = "|..] == toFixed4(rates.value[currency]) + " " + currency
  {
    if NoUsableRate(rates, currency) then NotAvailable
    else "1 " + fromCurrency + " = " + toFixed4(rates.value[currency]) + " " + currency
  }

  /** `s.filter(c => c !== x)`. */
  function Without(s: seq<string>, x: string): (r: seq<string>)
    ensures forall c :: c in r <==> c in s && c != x
    ensures IsSubsequence(r, s)
    ensures |r| == |s| - multiset(s)[x]
  {
    if s == [] then []
    else if s[0] == x then
      var rest := Without(s[1..], x);
      assert rest != [] ==> rest[0] in rest;
      assert s == [s[0]] + s[1..];
      rest
    else
      var rest := Without(s[1..], x);
      assert s == [s[0]] + s[1..];
      [s[0]] + rest
  }

  /** The quick-reference panel: the popular currencies other than the one converted from, in order. */
  function QuickReferenceCurrencies(fromCurrency: string): (r: seq<string>)
    ensures forall c :: c in r <==> c in PopularCurrencies && c != fromCurrency
    ensures IsSubsequence(r, PopularCurrencies)
    ensures |r| == if fromCurrency in PopularCurrencies then 5 else 6
  {
    Without(PopularCurrencies, fromCurrency)
  }

  /** The converter page's state. */
  class Converter {
    var amount: string
    var fromCurrency: string
    var toCurrency: string
    var result: Option<Conversion>
    var loading: bool
    var error: Option<string>
    var currencies: seq<string>
    var rates: Option<map<string, real>>
    var recentConversions: seq<Entry>
    /** The base currencies this page has requested rates for, oldest first. */
    ghost var rateRequests: seq<string>

    /** The page's initial state. */
    constructor ()
      ensures amount == "100" && fromCurrency == "USD" && toCurrency == "EUR"
      ensures result == None && !loading && error == None
      ensures currencies == [] && rates == None && recentConversions == []
      ensures rateRequests == []
    {
      amount := "100";
      fromCurrency := "USD";
      toCurrency := "EUR";
      result := None;
      loading := false;
      error := None;
      currencies := [];
      rates := None;
      recentConversions := [];
      rateRequests := [];
    }

    /** `loadCurrencies`: the list never fails, so it always replaces the selectable currencies. */
    method LoadCurrencies(service: CurrencyService, fetch: Fetch)
      modifies this`currencies, this`rateRequests
      ensures currencies == service.GetSupportedCurrencies(fetch)
      ensures rateRequests == old(rateRequests) + ["USD"]
    {
      currencies := service.GetSupportedCurrencies(fetch);
      rateRequests := rateRequests + ["USD"];
    }

    /** `loadRates`: take the `rates` of the snapshot for `fromCurrency`; on failure keep the old ones. */
    method LoadRates(service: CurrencyService, fetch: Fetch)
      modifies this`rates, this`rateRequests
      ensures fetch(ExchangeRateApi, fromCurrency).Delivered? ==> rates == fetch(ExchangeRateApi, fromCurrency).data.rates
      ensures fetch(ExchangeRateApi, fromCurrency).Failed? ==> rates == old(rates)
      ensures rateRequests == old(rateRequests) + [fromCurrency]
    {
      var data := service.GetLatestRates(fromCurrency, fetch);
      rateRequests := rateRequests + [fromCurrency];
      if data.Success? {
        rates := data.value.rates;
      }
    }

    /** `loadRecentConversions`: the first ten entries of the stored history. */
    method LoadRecentConversions(store: LocalStorage)
      modifies this`recentConversions
      ensures recentConversions == Take(ReadHistory(store.slot, store.accessible), RecentLimit)
    {
      var history := GetConversionHistory(store);
      recentConversions := Take(history, RecentLimit);
    }

    /**
     * `handleConvert`: clear the error, validate the amount before any
     * request, convert, and on success show, save and list the result; on
     * any failure show the message and no result. Loading ends false.
     */
    method HandleConvert(service: CurrencyService, fetch: Fetch, parseFloat: string -> Option<real>, store: LocalStorage, timestamp: string)
      modifies this`error, this`loading, this`result, this`recentConversions, this`rateRequests, store
      ensures !loading
      ensures InvalidAmount(parseFloat(amount)) ==>
        && error == Some(InvalidAmountMessage) && result == None
        && store.slot == old(store.slot) && recentConversions == old(recentConversions)
        && rateRequests == old(rateRequests)
      ensures !InvalidAmount(parseFloat(amount)) ==>
        var outcome := service.ConvertCurrency(parseFloat(amount).value, fromCurrency, toCurrency, fetch);
        && rateRequests == old(rateRequests) + [fromCurrency]
        && (outcome.Success? ==>
              && result == Some(outcome.value) && error == None
              && store.slot == SlotAfterSave(old(store.slot), store.accessible, store.quotaExceeded, Stamp(outcome.value, timestamp))
              && recentConversions == Take(ReadHistory(store.slot, store.accessible), RecentLimit))
        && (outcome.Failure? ==>
              && result == None && error == Some(outcome.error)
              && store.slot == old(store.slot) && recentConversions == old(recentConversions))
    {
      error := None;
      loading := true;
      var numAmount := parseFloat(amount);
      if InvalidAmount(numAmount) {
        error := Some(InvalidAmountMessage);
        result := None;
      } else {
        var conversionResult := service.ConvertCurrency(numAmount.value, fromCurrency, toCurrency, fetch);
        rateRequests := rateRequests + [fromCurrency];
        match conversionResult {
          case Success(c) =>
            result := Some(c);
            SaveConversionHistory(store, c, timestamp);
            LoadRecentConversions(store);
          case Failure(message) =>
            error := Some(message);
            result := None;
        }
      }
      loading := false;
    }

    /** `swapCurrencies`: exchange the two currencies and drop the shown result. */
    method SwapCurrencies()
      modifies this`fromCurrency, this`toCurrency, this`result
      ensures fromCurrency == old(toCurrency) && toCurrency == old(fromCurrency)
      ensures result == None
    {
      fromCurrency, toCurrency := toCurrency, fromCurrency;
      result := None;
    }
  }

  /** Swapping twice gives back both currencies; only the shown result is lost. */
  method SwapTwiceRestores(page: Converter)
    modifies page
    ensures page.fromCurrency == old(page.fromCurrency) && page.toCurrency == old(page.toCurrency)
    ensures page.result == None
    ensures page.amount == old(page.amount) && page.recentConversions == old(page.recentConversions)
  {
    page.SwapCurrencies();
    page.SwapCurrencies();
  }

  /** After a successful conversion with working storage, the recent list starts with that conversion. */
  lemma SavedConversionLeadsRecent(slot: Slot, c: Conversion, timestamp: string)
    ensures var recent := Take(ReadHistory(SlotAfterSave(slot, true, false, Stamp(c, timestamp)), true), RecentLimit);
      && 1 <= |recent| <= RecentLimit
      && recent[0] == Stamp(c, timestamp)
      && Unstamp(recent[0]) == c
  {
  }

  /** The recent list is never longer than ten and is the start of the history, in order. */
  lemma RecentIsHistoryPrefix(history: seq<Entry>)
    ensures var recent := Take(history, RecentLimit);
      && |recent| == Min(RecentLimit, |history|)
      && recent == history[..|recent|]
  {
  }
}
