# Currency converter core, modelled in Dafny

This project models the conversion and history core of a browser currency
converter. The user enters an amount and two currency codes. The app fetches
the current exchange rates for the source currency from a rate service and
multiplies the amount by the target's rate. It keeps the last twenty
conversions, newest first, under one local-storage key. Two static tables give
each currency's display symbol and name.

Modules, one per source file plus two helpers:

- `Wrappers` (`wrappers.dfy`): `Option` and `Result`.
- `Builtins` (`builtins.dfy`): the JavaScript built-ins the core relies on.
  `Take` is `slice(0, n)`. `SortedSet` is `[...set].sort()` under the default
  code-unit string order `Before`. It is proved to be the only strictly
  ascending arrangement of the set.
- `CurrencyUtils` (`currency_utils.dfy`) models `src/utils/currencyUtils.js`.
  It holds the symbol and name tables and their lookups. It also holds the
  history store over the class `LocalStorage`, whose `slot` is `Absent`,
  `Corrupt` (does not parse) or `Stored(entries)`. `accessible == false` means
  every storage call throws. `quotaExceeded` means writes throw. The store
  swallows both. Each storage method is specified by a pure function
  (`ReadHistory`, `SlotAfterSave`, `SlotAfterClear`). The lemmas are stated
  about those functions.
- `CurrencyService` (`currency_service.dfy`) models `src/services/currencyService.js`.
  The HTTP request is a parameter `fetch(provider, base)` that delivers a
  snapshot or fails.
- `HistoryPage` (`history_page.dfy`) models `src/pages/History.jsx`.
- `ConverterPage` (`converter_page.dfy`) models `src/pages/Converter.jsx`.
  The ghost field `rateRequests` logs every base currency the page asks rates
  for. This is how the model states that an invalid amount triggers no request.
  The fetch oracle does not write this log: each handler appends to it next to
  the service call it makes.

Parameters stand for what the model does not compute:

- `toFixed2` and `toFixed4` are the number-to-text functions.
- `parseFloat` maps a string to `Option<real>`, with `None` for NaN.
- `timestamp` is the creation time.
- `confirmed` is the answer to the confirmation dialog.
- `env` is the environment's API-key variable.

Where the system's design description and the code differ, the model follows
the code:

- The amount is validated in the converter page's `handleConvert`, not in
  `convertCurrency`. `convertCurrency` itself accepts any amount.
- A conversion also fails with "Currency X not found" when the body has no
  `rates` object or the rate is zero. It does not fail only when the code is
  absent.
- `getSupportedCurrencies` also falls back to its ten codes when the body has
  no `rates` object. In that case `Object.keys` throws and the error is caught.

## Model

| member | source | states |
|---|---|---|
| `CurrencyUtils.SymbolTableCodes` | src/utils/currencyUtils.js:2-23 | the symbol table is defined on exactly the twenty listed codes |
| `CurrencyUtils.NameTableCodes` | src/utils/currencyUtils.js:26-47 | the name table is defined on exactly the twenty listed codes |
| `CurrencyUtils.CurrencyCodesCount` | src/utils/currencyUtils.js:2-23 | the listed codes are twenty distinct codes |
| `CurrencyUtils.TablesCoverSameCodes` | src/utils/currencyUtils.js:2-47 | the symbol and name tables have the same key set, of size 20 |
| `CurrencyUtils.SymbolOf` | src/utils/currencyUtils.js:56 | a mapped code yields its (non-empty) table symbol; an unmapped code yields "" |
| `CurrencyUtils.FormatCurrency` | src/utils/currencyUtils.js:55-58 | the text begins with the mapped symbol and continues with the amount text; for an unmapped code it is the amount text alone |
| `CurrencyUtils.GetCurrencyName` | src/utils/currencyUtils.js:65-67 | a mapped code yields its table name (never the code); an unmapped code yields the code itself; total |
| `CurrencyUtils.Stamp` | src/utils/currencyUtils.js:76-79 | the saved entry keeps every field of the conversion (removing the timestamp gives it back) and adds the timestamp |
| `CurrencyUtils.PushBounded` | src/utils/currencyUtils.js:80-83 | the new entry is first, the old history follows cut to 19, and the length is min(old + 1, 20) |
| `CurrencyUtils.GetConversionHistory` | src/utils/currencyUtils.js:94-102 | returns the stored list when one parses, and [] when the key is missing, the payload does not parse or storage throws |
| `CurrencyUtils.SaveConversionHistory` | src/utils/currencyUtils.js:73-88 | the slot becomes the bounded prepend of the current history, or is left untouched when the write throws; no error escapes |
| `CurrencyUtils.ClearConversionHistory` | src/utils/currencyUtils.js:107-113 | the key is removed, or left untouched when removal throws; no error escapes |
| `CurrencyUtils.SaveStoresNewestFirst` | src/utils/currencyUtils.js:75-84 | after a successful save the history has at most 20 entries, the new one first, then the prior history in order cut to 19 |
| `CurrencyUtils.SaveKeepsCap` | src/utils/currencyUtils.js:82-84 | saving preserves "at most 20 stored", and establishes it whenever the write succeeds |
| `CurrencyUtils.SaveOverCorrupt` | src/utils/currencyUtils.js:75 | saving over an unparsable payload stores the new entry alone |
| `CurrencyUtils.FailedSaveChangesNothing` | src/utils/currencyUtils.js:84-87 | a throwing write leaves storage as it was |
| `CurrencyUtils.ClearEmptiesHistory` | src/utils/currencyUtils.js:107-113 | after a clear the history reads as [], whether or not removal threw |
| `CurrencyUtils.ClearIdempotent` | src/utils/currencyUtils.js:107-113 | clearing twice leaves the same state as clearing once |
| `CurrencyUtils.SaveAllKeepsNewest` | src/utils/currencyUtils.js:80-84 | after saving n conversions the history holds min(prior + n, 20) entries with the last one saved first |
| `CurrencyUtils.SaveAllContents` | src/utils/currencyUtils.js:75-84 | after a run of saves the history is the saved entries, newest first, followed by the prior history in order, cut to 20 |
| `CurrencyUtils.NewestFirstAt` | src/utils/currencyUtils.js:80 | in a run of saves, the i-th entry newest first is the conversion saved i before the last |
| `CurrencyUtils.TwentyFiveSavesKeepLastTwenty` | src/utils/currencyUtils.js:80-84 | 25 saves into an empty history leave exactly 20 entries: the 25th, 24th, ..., 6th saved, in that order |
| `Builtins.Take` | src/utils/currencyUtils.js:83 | `slice(0, n)` returns the first min(n, length) elements in order |
| `Builtins.SortedSet` | src/services/currencyService.js:83 | the result holds exactly the set's elements, each once, strictly ascending |
| `Builtins.SortedArrangementUnique` | src/services/currencyService.js:83 | two strictly ascending sequences with the same elements are equal |
| `Builtins.SortedSetCharacterised` | src/pages/History.jsx:30 | any strictly ascending sequence of exactly the set's elements is the sorted set |
| `CurrencyService.FixerApiKey` | src/services/currencyService.js:7 | a non-empty environment key is used; a missing or empty one becomes the placeholder |
| `CurrencyService.CurrencyService.constructor` | src/services/currencyService.js:14-16 | the service starts with the keyed provider switched off and the key taken from the environment |
| `CurrencyService.CurrencyService.ActiveProvider` | src/services/currencyService.js:25-37 | because the flag is false, requests always go to the free provider |
| `CurrencyService.CurrencyService.GetLatestRates` | src/services/currencyService.js:23-42 | a delivered body is returned as is; any failure becomes the single "Failed to fetch exchange rates" message |
| `CurrencyService.CurrencyService.ConvertCurrency` | src/services/currencyService.js:51-74 | rates are fetched for base `from`; fetch errors pass through unchanged; a missing rates object or missing or zero rate fails exactly with "Currency <to> not found"; otherwise from, to and amount are kept, rate = rates[to], convertedAmount = amount * rate, date = snapshot date |
| `CurrencyService.CurrencyService.GetSupportedCurrencies` | src/services/currencyService.js:80-89 | with a USD snapshot, exactly its keys, ascending and without duplicates; otherwise exactly the ten fallback codes, never an error |
| `CurrencyService.ConversionUsesSnapshotRate` | src/services/currencyService.js:59-60 | with a non-zero rate r for the target, the conversion succeeds with amount * r |
| `CurrencyService.SupportedCurrenciesAreSortedKeys` | src/services/currencyService.js:82-83 | the supported list equals any strictly ascending listing of the snapshot's keys |
| `HistoryPage.FilterByCurrency` | src/pages/History.jsx:27 | the result is no longer than the history and holds only entries of the history whose from or to is the code |
| `HistoryPage.FilteredHistory` | src/pages/History.jsx:25-28 | filter "all" gives the history itself; a code gives only matching entries; never longer than the history |
| `HistoryPage.FilterDistributes` | src/pages/History.jsx:27 | filtering a concatenation is the concatenation of the filtered parts (order kept) |
| `HistoryPage.FilterKeepsEveryMatch` | src/pages/History.jsx:27 | each matching entry occurs in the result as often as in the history; non-matching ones not at all |
| `HistoryPage.FilterIsSubsequence` | src/pages/History.jsx:27 | the result is a subsequence of the history |
| `HistoryPage.FilterKeepsAllIffAllMatch` | src/pages/History.jsx:27 | the filter returns the whole history exactly when every entry involves the code |
| `HistoryPage.CodesOf` | src/pages/History.jsx:30 | the flattened code list has two codes per entry |
| `HistoryPage.CodesOfMembership` | src/pages/History.jsx:30 | a code is in the flattened list iff some entry has it as from or to |
| `HistoryPage.UniqueCurrencies` | src/pages/History.jsx:30 | strictly ascending, no duplicates, and exactly the codes used as from or to by some entry |
| `HistoryPage.HistoryView.constructor` | src/pages/History.jsx:6-7 | the page starts with an empty history and filter "all" |
| `HistoryPage.HistoryView.LoadHistory` | src/pages/History.jsx:13-16 | the shown history becomes what storage reads as |
| `HistoryPage.HistoryView.HandleClearHistory` | src/pages/History.jsx:18-23 | when confirmed, storage is cleared and the shown history is []; when not, nothing changes |
| `ConverterPage.QuickConversion` | src/pages/Converter.jsx:85-89 | "N/A" exactly when rates are missing or the currency's rate is missing or zero; otherwise "1 <from> = " followed by the rate text and the currency |
| `ConverterPage.Without` | src/pages/Converter.jsx:199 | exactly the elements other than x, in order, one fewer per occurrence of x |
| `ConverterPage.QuickReferenceCurrencies` | src/pages/Converter.jsx:198-199 | the popular currencies other than `from`, in their order: five if `from` is popular, else six |
| `ConverterPage.Converter.constructor` | src/pages/Converter.jsx:7-15 | the page's initial state: amount "100", USD to EUR, no result, error, rates or recent list |
| `ConverterPage.Converter.LoadCurrencies` | src/pages/Converter.jsx:28-35 | the currency list becomes the supported currencies; one USD request |
| `ConverterPage.Converter.LoadRates` | src/pages/Converter.jsx:37-44 | a delivered snapshot for `from` replaces the rates; a failure keeps the old ones |
| `ConverterPage.Converter.LoadRecentConversions` | src/pages/Converter.jsx:46-49 | the recent list becomes the first ten entries of the stored history |
| `ConverterPage.Converter.HandleConvert` | src/pages/Converter.jsx:51-77 | an invalid amount sets "Please enter a valid amount" with no request and no save; a success shows the record, saves it and refreshes the recent list; a failure shows its message, no result and saves nothing; loading ends false on every path |
| `ConverterPage.Converter.SwapCurrencies` | src/pages/Converter.jsx:79-83 | from and to are exchanged and the result is cleared |
| `ConverterPage.SwapTwiceRestores` | src/pages/Converter.jsx:79-83 | swapping twice restores both currencies |
| `ConverterPage.SavedConversionLeadsRecent` | src/pages/Converter.jsx:68-70 | after a successful save the refreshed recent list starts with the saved conversion |
| `ConverterPage.RecentIsHistoryPrefix` | src/pages/Converter.jsx:46-49 | the recent list is the first min(10, n) history entries, in order |

## Left out

- The HTTP requests and their URLs (src/services/currencyService.js:26-36) are foreign network calls. They are the `fetch` parameter. A body that is not an object, or that lacks `date`, is not modelled.
- Asynchronous scheduling is not modelled: the `useEffect` reloads (src/pages/Converter.jsx:17-26) and overlapping requests. Each handler runs to completion. The `loading == true` state seen while a request is pending is therefore not observable here, only that it ends false.
- `ConverterPage.Converter.HandleConvert` does not model the disabled submit button while loading, nor the input setters `setAmount`, `setFromCurrency`, `setToCurrency` and `setFilter` in the markup.
- Floating point is not modelled. Amounts and rates are `real`, so `convertedAmount` is the exact product, and NaN rates do not arise. `parseFloat("Infinity")` passes the source's validation but has no `real` counterpart.
- `toFixed(2)`, `toFixed(4)`, `toLocaleString`, `toISOString` and `parseFloat` are parameters, not computed.
- JSON encoding and decoding are abstracted into `Slot`. A stored payload that parses to something other than a list (say `null` or a number) is not modelled.
- JavaScript property lookup on plain objects is not modelled. A code such as `constructor` would find an inherited member in the tables or the rates object, and the `map` lookups here have no such members.
- `Builtins.Before` compares characters as Unicode scalar values. JavaScript compares UTF-16 code units, and the two orders differ only for characters outside the Basic Multilingual Plane.
- `console.error` logging is not modelled. Swallowed storage errors leave no trace.
- `CurrencyService.CurrencyService.GetLatestRates` takes its base as a required parameter. The source's default `base = 'USD'` is dropped; every call in the core passes a base, so no behaviour is lost.
- In the source the keyed provider's API key is a module constant read from the environment. Here the service object holds it, set by its constructor from `env`.
- The JSX markup and CSS are not modelled. Neither are src/pages/Home.jsx, src/pages/About.jsx, src/App.jsx and src/components/Navigation.jsx: they are static markup and routing.
