/**
 * Currency metadata lookups and the conversion history kept in the browser's
 * local storage (src/utils/currencyUtils.js).
 *
 * Local storage is the class `LocalStorage`: one slot under the fixed key
 * `conversionHistory`, which holds nothing, a payload that does not parse, or
 * a parsed list of entries. JSON encoding is abstracted into that slot.
 */
module CurrencyUtils {
  import opened Builtins

  /** The record `convertCurrency` returns. */
  datatype Conversion = Conversion(
    from: string,
    to: string,
    amount: real,
    convertedAmount: real,
    rate: real,
    date: string)

  /** A history entry: a conversion spread into a new object with a `timestamp` added. */
  datatype Entry = Entry(
    from: string,
    to: string,
    amount: real,
    convertedAmount: real,
    rate: real,
    date: string,
    timestamp: string)

  // ---------------------------------------------------------------------------
  // Metadata tables

  const CurrencySymbols: map<string, string> := map[
    "USD" := "$",
    "EUR" := "\U{20AC}",
    "GBP" := "\U{00A3}",
    "JPY" := "\U{00A5}",
    "AUD" := "A$",
    "CAD" := "C$",
    "CHF" := "Fr",
    "CNY" := "\U{00A5}",
    "INR" := "\U{20B9}",
    "MXN" := "$",
    "BRL" := "R$",
    "ZAR" := "R",
    "RUB" := "\U{20BD}",
    "KRW" := "\U{20A9}",
    "SGD" := "S$",
    "NZD" := "NZ$",
    "TRY" := "\U{20BA}",
    "HKD" := "HK$",
    "NOK" := "kr",
    "SEK" := "kr"
  ]

  const CurrencyNames: map<string, string> := map[
    "USD" := "US Dollar",
    "EUR" := "Euro",
    "GBP" := "British Pound",
    "JPY" := "Japanese Yen",
    "AUD" := "Australian Dollar",
    "CAD" := "Canadian Dollar",
    "CHF" := "Swiss Franc",
    "CNY" := "Chinese Yuan",
    "INR" := "Indian Rupee",
    "MXN" := "Mexican Peso",
    "BRL" := "Brazilian Real",
    "ZAR" := "South African Rand",
    "RUB" := "Russian Ruble",
    "KRW" := "South Korean Won",
    "SGD" := "Singapore Dollar",
    "NZD" := "New Zealand Dollar",
    "TRY" := "Turkish Lira",
    "HKD" := "Hong Kong Dollar",
    "NOK" := "Norwegian Krone",
    "SEK" := "Swedish Krona"
  ]

  /** The twenty codes both tables are written over. */
  const CurrencyCodes: set<string> := {
    "USD", "EUR", "GBP", "JPY", "AUD", "CAD", "CHF", "CNY", "INR", "MXN",
    "BRL", "ZAR", "RUB", "KRW", "SGD", "NZD", "TRY", "HKD", "NOK", "SEK"
  }

  // The same codes in four groups of five, as the tables list them; counting
  // the twenty at once is more than the solver does in one step.
  const CodesRow1: set<string> := {"USD", "EUR", "GBP", "JPY", "AUD"}
  const CodesRow2: set<string> := {"CAD", "CHF", "CNY", "INR", "MXN"}
  const CodesRow3: set<string> := {"BRL", "ZAR", "RUB", "KRW", "SGD"}
  const CodesRow4: set<string> := {"NZD", "TRY", "HKD", "NOK", "SEK"}

  lemma CodeRowsAreFives()
    ensures |CodesRow1| == 5 && |CodesRow2| == 5 && |CodesRow3| == 5 && |CodesRow4| == 5
  {
  }

  lemma CodeRowsDisjoint()
    ensures CodesRow1 !! CodesRow2 && CodesRow1 !! CodesRow3 && CodesRow1 !! CodesRow4
    ensures CodesRow2 !! CodesRow3 && CodesRow2 !! CodesRow4 && CodesRow3 !! CodesRow4
  {
  }

  lemma CurrencyCodesCount()
    ensures |CurrencyCodes| == 20
  {
    CodeRowsAreFives();
    CodeRowsDisjoint();
    assert CurrencyCodes == CodesRow1 + CodesRow2 + CodesRow3 + CodesRow4;
    assert |CodesRow1 + CodesRow2| == 10;
    assert |CodesRow1 + CodesRow2 + CodesRow3| == 15;
  }

  lemma SymbolTableCodes()
    ensures CurrencySymbols.Keys == CurrencyCodes
  {
  }

  lemma NameTableCodes()
    ensures CurrencyNames.Keys == CurrencyCodes
  {
  }

  /** The two tables describe the same twenty currencies. */
  lemma TablesCoverSameCodes()
    ensures CurrencySymbols.Keys == CurrencyNames.Keys
    ensures |CurrencySymbols.Keys| == 20
  {
    SymbolTableCodes();
    NameTableCodes();
    CurrencyCodesCount();
  }

  /** `currencySymbols[code] || ''`: an empty (falsy) or missing symbol falls back to "". */
  function SymbolOf(code: string): (symbol: string)
    ensures code in CurrencySymbols ==> symbol == CurrencySymbols[code] && symbol != ""
    ensures code !in CurrencySymbols ==> symbol == ""
  {
    if code in CurrencySymbols && CurrencySymbols[code] != "" then CurrencySymbols[code] else ""
  }

  /**
   * `formatCurrency`: the symbol followed by the amount's two-decimal text.
   * The number text (`toFixed(2)`) is the parameter `toFixed2`.
   */
  function FormatCurrency(amount: real, code: string, toFixed2: real -> string): (text: string)
    ensures code in CurrencySymbols ==>
      CurrencySymbols[code] <= text && text[|CurrencySymbols[code]|..] == toFixed2(amount)
    ensures code !in CurrencySymbols ==> text == toFixed2(amount)
  {
    SymbolOf(code) + toFixed2(amount)
  }

  /** `getCurrencyName`: the table's name, or the code itself when the name is missing or empty. */
  function GetCurrencyName(code: string): (name: string)
    ensures code in CurrencyNames ==> name == CurrencyNames[code] && name != code
    ensures code !in CurrencyNames ==> name == code
  {
    if code in CurrencyNames && CurrencyNames[code] != "" then CurrencyNames[code] else code
  }

  // ---------------------------------------------------------------------------
  // History entries

  /** At most this many entries are kept. */
  const MaxHistory: nat := 20

  /** `{ ...conversion, timestamp }`. */
  function Stamp(c: Conversion, timestamp: string): (e: Entry)
    ensures Unstamp(e) == c && e.timestamp == timestamp
  {
    Entry(c.from, c.to, c.amount, c.convertedAmount, c.rate, c.date, timestamp)
  }

  /** The conversion fields of an entry, without its timestamp. */
  function Unstamp(e: Entry): Conversion
  {
    Conversion(e.from, e.to, e.amount, e.convertedAmount, e.rate, e.date)
  }

  /** `unshift` followed by `slice(0, 20)`. */
  function PushBounded(history: seq<Entry>, e: Entry): (r: seq<Entry>)
    ensures |r| == Min(|history| + 1, MaxHistory)
    ensures r[0] == e
    ensures r[1..] == Take(history, MaxHistory - 1)
  {
    Take([e] + history, MaxHistory)
  }

  // ---------------------------------------------------------------------------
  // Local storage

  /** What the `conversionHistory` key holds. */
  datatype Slot = Absent | Corrupt | Stored(entries: seq<Entry>)

  /**
   * The browser's local storage as seen through the one history key.
   * `accessible` is false when the browser refuses storage altogether (every
   * call throws); `quotaExceeded` makes writes throw while reads still work.
   */
  class LocalStorage {
    var slot: Slot
    const accessible: bool
    const quotaExceeded: bool

    constructor (slot: Slot, accessible: bool, quotaExceeded: bool)
      ensures this.slot == slot && this.accessible == accessible && this.quotaExceeded == quotaExceeded
    {
      this.slot := slot;
      this.accessible := accessible;
      this.quotaExceeded := quotaExceeded;
    }
  }

  /** The list `getConversionHistory` returns for a given slot. */
  function ReadHistory(slot: Slot, accessible: bool): seq<Entry>
  {
    if accessible && slot.Stored? then slot.entries else []
  }

  /** The slot after `saveConversionHistory` stores `e`; a write that throws leaves it as it was. */
  function SlotAfterSave(slot: Slot, accessible: bool, quotaExceeded: bool, e: Entry): Slot
  {
    if accessible && !quotaExceeded then Stored(PushBounded(ReadHistory(slot, accessible), e))
    else slot
  }

  /** The slot after `clearConversionHistory`; a removal that throws leaves it as it was. */
  function SlotAfterClear(slot: Slot, accessible: bool): Slot
  {
    if accessible then Absent else slot
  }

  /** The retention invariant: a stored list never holds more than twenty entries. */
  predicate WithinCap(slot: Slot)
  {
    slot.Stored? ==> |slot.entries| <= MaxHistory
  }

  /** `getConversionHistory`: the stored list, or [] when nothing is stored, it fails to parse, or storage throws. */
  method GetConversionHistory(store: LocalStorage) returns (history: seq<Entry>)
    ensures store.accessible && store.slot.Stored? ==> history == store.slot.entries
    ensures !store.accessible || !store.slot.Stored? ==> history == []
    ensures history == ReadHistory(store.slot, store.accessible)
  {
    if !store.accessible {
      history := [];
    } else {
      match store.slot
      case Absent => history := [];
      case Corrupt => history := [];
      case Stored(entries) => history := entries;
    }
  }

  /** `saveConversionHistory`: prepend a stamped copy, keep twenty, write back; a failing write is swallowed. */
  method SaveConversionHistory(store: LocalStorage, conversion: Conversion, timestamp: string)
    modifies store
    ensures store.slot == SlotAfterSave(old(store.slot), store.accessible, store.quotaExceeded, Stamp(conversion, timestamp))
  {
    var history := GetConversionHistory(store);
    var newEntry := Stamp(conversion, timestamp);
    history := [newEntry] + history;
    var trimmedHistory := Take(history, MaxHistory);
    if store.accessible && !store.quotaExceeded {
      store.slot := Stored(trimmedHistory);
    }
  }

  /** `clearConversionHistory`: remove the key; a failing removal is swallowed. */
  method ClearConversionHistory(store: LocalStorage)
    modifies store
    ensures store.slot == SlotAfterClear(old(store.slot), store.accessible)
  {
    if store.accessible {
      store.slot := Absent;
    }
  }

  // ---------------------------------------------------------------------------
  // Properties of the history store

  /** A successful save leaves the new entry first, followed by the previous history cut to nineteen. */
  lemma SaveStoresNewestFirst(slot: Slot, accessible: bool, quotaExceeded: bool, e: Entry)
    requires accessible && !quotaExceeded
    ensures var h := ReadHistory(SlotAfterSave(slot, accessible, quotaExceeded, e), accessible);
      && |h| <= MaxHistory
      && h[0] == e
      && h[1..] == Take(ReadHistory(slot, accessible), MaxHistory - 1)
  {
  }

  /** Saving keeps the retention invariant, and establishes it whenever the write succeeds. */
  lemma SaveKeepsCap(slot: Slot, accessible: bool, quotaExceeded: bool, e: Entry)
    ensures WithinCap(slot) ==> WithinCap(SlotAfterSave(slot, accessible, quotaExceeded, e))
    ensures accessible && !quotaExceeded ==> WithinCap(SlotAfterSave(slot, accessible, quotaExceeded, e))
  {
  }

  /** Saving over a payload that does not parse replaces it with the new entry alone. */
  lemma SaveOverCorrupt(e: Entry)
    ensures SlotAfterSave(Corrupt, true, false, e) == Stored([e])
  {
  }

  /** A write that throws changes nothing and is not reported. */
  lemma FailedSaveChangesNothing(slot: Slot, accessible: bool, quotaExceeded: bool, e: Entry)
    requires !accessible || quotaExceeded
    ensures SlotAfterSave(slot, accessible, quotaExceeded, e) == slot
  {
  }

  /** After a clear the history reads as empty, whether or not the removal threw. */
  lemma ClearEmptiesHistory(slot: Slot, accessible: bool)
    ensures ReadHistory(SlotAfterClear(slot, accessible), accessible) == []
  {
  }

  /** Clearing twice is clearing once. */
  lemma ClearIdempotent(slot: Slot, accessible: bool)
    ensures SlotAfterClear(SlotAfterClear(slot, accessible), accessible) == SlotAfterClear(slot, accessible)
  {
  }

  /** The slot after saving each conversion of `cs` in turn, the i-th with timestamp `stamps[i]`. */
  function SaveAll(slot: Slot, accessible: bool, quotaExceeded: bool, cs: seq<Conversion>, stamps: seq<string>): Slot
    requires |cs| == |stamps|
    decreases |cs|
  {
    if cs == [] then slot
    else SaveAll(SlotAfterSave(slot, accessible, quotaExceeded, Stamp(cs[0], stamps[0])), accessible, quotaExceeded, cs[1..], stamps[1..])
  }

  /** The entries of a run of saves, the last one saved first. */
  function NewestFirst(cs: seq<Conversion>, stamps: seq<string>): (r: seq<Entry>)
    requires |cs| == |stamps|
    ensures |r| == |cs|
    decreases |cs|
  {
    if cs == [] then [] else NewestFirst(cs[1..], stamps[1..]) + [Stamp(cs[0], stamps[0])]
  }

  /** Cutting the tail before cutting the whole changes nothing. */
  lemma TakeAfterTake<T>(a: seq<T>, b: seq<T>, n: nat)
    ensures Take(a + Take(b, n), n) == Take(a + b, n)
  {
    var l, r := Take(a + Take(b, n), n), Take(a + b, n);
    assert |l| == |r|;
    forall i | 0 <= i < |l|
      ensures l[i] == r[i]
    {
      if i >= |a| {
        assert (a + Take(b, n))[i] == Take(b, n)[i - |a|];
      }
    }
  }

  /**
   * Saving a run of conversions into working storage leaves the saved
   * entries first, the last one saved at the head, followed by the previous
   * history, all cut to twenty.
   */
  lemma {:induction false} SaveAllContents(slot: Slot, cs: seq<Conversion>, stamps: seq<string>)
    requires |cs| == |stamps| && cs != []
    ensures ReadHistory(SaveAll(slot, true, false, cs, stamps), true)
      == Take(NewestFirst(cs, stamps) + ReadHistory(slot, true), MaxHistory)
    decreases |cs|
  {
    var e := Stamp(cs[0], stamps[0]);
    var prior := ReadHistory(slot, true);
    var next := SlotAfterSave(slot, true, false, e);
    assert ReadHistory(next, true) == Take([e] + prior, MaxHistory);
    if |cs| > 1 {
      SaveAllContents(next, cs[1..], stamps[1..]);
      var later := NewestFirst(cs[1..], stamps[1..]);
      TakeAfterTake(later, [e] + prior, MaxHistory);
      assert NewestFirst(cs, stamps) + prior == later + ([e] + prior);
    } else {
      assert NewestFirst(cs, stamps) == [e];
    }
  }

  /** Consequently the history holds min(previous + saved, 20) entries, the last one saved first. */
  lemma SaveAllKeepsNewest(slot: Slot, cs: seq<Conversion>, stamps: seq<string>)
    requires |cs| == |stamps| && cs != []
    ensures var h := ReadHistory(SaveAll(slot, true, false, cs, stamps), true);
      && |h| == Min(|ReadHistory(slot, true)| + |cs|, MaxHistory)
      && h[0] == Stamp(cs[|cs| - 1], stamps[|cs| - 1])
  {
    SaveAllContents(slot, cs, stamps);
    NewestFirstAt(cs, stamps, 0);
  }

  /** The scenario of twenty-five saves into an empty history. */
  lemma TwentyFiveSavesKeepLastTwenty(cs: seq<Conversion>, stamps: seq<string>)
    requires |cs| == |stamps| == 25
    ensures var h := ReadHistory(SaveAll(Absent, true, false, cs, stamps), true);
      && |h| == 20
      && h[0] == Stamp(cs[24], stamps[24])
      && forall i :: 0 <= i < 20 ==> h[i] == Stamp(cs[24 - i], stamps[24 - i])
  {
    SaveAllContents(Absent, cs, stamps);
    forall i | 0 <= i < 20
      ensures NewestFirst(cs, stamps)[i] == Stamp(cs[24 - i], stamps[24 - i])
    {
      NewestFirstAt(cs, stamps, i);
    }
  }

  /** The i-th entry of a run, newest first, is the conversion saved i before the last. */
  lemma {:induction false} NewestFirstAt(cs: seq<Conversion>, stamps: seq<string>, i: nat)
    requires |cs| == |stamps| && i < |cs|
    ensures NewestFirst(cs, stamps)[i] == Stamp(cs[|cs| - 1 - i], stamps[|cs| - 1 - i])
    decreases |cs|
  {
    if i < |cs| - 1 {
      NewestFirstAt(cs[1..], stamps[1..], i);
    }
  }
}
