/**
 * The state rules of the history page (src/pages/History.jsx): the currency
 * filter, the list of currencies used, and loading and clearing the history.
 */
module HistoryPage {
  import opened Builtins
  import opened CurrencyUtils

  /** The filter value that selects every entry. */
  const AllFilter := "all"

  /** `item.from === code || item.to === code`. */
  predicate Involves(e: Entry, code: string)
  {
    e.from == code || e.to == code
  }

  /** `history.filter(item => item.from === code || item.to === code)`. */
  function FilterByCurrency(history: seq<Entry>, code: string): (r: seq<Entry>)
    ensures |r| <= |history|
    ensures forall e :: e in r ==> e in history && Involves(e, code)
  {
    if history == [] then []
    else if Involves(history[0], code) then [history[0]] + FilterByCurrency(history[1..], code)
    else FilterByCurrency(history[1..], code)
  }

  /** `getFilteredHistory`. */
  function FilteredHistory(history: seq<Entry>, filter: string): (r: seq<Entry>)
    ensures filter == AllFilter ==> r == history
    ensures filter != AllFilter ==> forall e :: e in r ==> Involves(e, filter)
    ensures |r| <= |history|
  {
    if filter == AllFilter then history else FilterByCurrency(history, filter)
  }

  /** Filtering a concatenation filters each part: the kept entries stay in their original order. */
  lemma {:induction false} FilterDistributes(a: seq<Entry>, b: seq<Entry>, code: string)
    ensures FilterByCurrency(a + b, code) == FilterByCurrency(a, code) + FilterByCurrency(b, code)
    decreases |a|
  {
    if a != [] {
      assert (a + b)[1..] == a[1..] + b;
      FilterDistributes(a[1..], b, code);
    } else {
      assert a + b == b;
    }
  }

  /** No matching entry is dropped: each entry occurs as often in the result as in the history, or not at all. */
  lemma {:induction false} FilterKeepsEveryMatch(history: seq<Entry>, code: string)
    ensures forall e :: multiset(FilterByCurrency(history, code))[e] == (if Involves(e, code) then multiset(history)[e] else 0)
    decreases |history|
  {
    if history != [] {
      FilterKeepsEveryMatch(history[1..], code);
      assert history == [history[0]] + history[1..];
    }
  }

  /** The filtered history is a subsequence of the history. */
  lemma {:induction false} FilterIsSubsequence(history: seq<Entry>, code: string)
    ensures IsSubsequence(FilterByCurrency(history, code), history)
    decreases |history|
  {
    if history != [] {
      FilterIsSubsequence(history[1..], code);
      var rest := FilterByCurrency(history[1..], code);
      if !Involves(history[0], code) && rest != [] {
        // history[0] is not kept, so it cannot be the head of what follows
        assert rest[0] in rest;
      }
    }
  }

  /** The filter leaves the history whole exactly when every entry involves the code. */
  lemma {:induction false} FilterKeepsAllIffAllMatch(history: seq<Entry>, code: string)
    ensures FilterByCurrency(history, code) == history <==> forall i :: 0 <= i < |history| ==> Involves(history[i], code)
    decreases |history|
  {
    if history != [] {
      FilterKeepsAllIffAllMatch(history[1..], code);
      if !Involves(history[0], code) {
        assert |FilterByCurrency(history[1..], code)| <= |history[1..]|;
      } else {
        assert forall i :: 1 <= i < |history| ==> history[i] == history[1..][i - 1];
      }
    }
  }

  /** `history.flatMap(item => [item.from, item.to])`. */
  function CodesOf(history: seq<Entry>): (codes: seq<string>)
    ensures |codes| == 2 * |history|
  {
    if history == [] then [] else [history[0].from, history[0].to] + CodesOf(history[1..])
  }

  /** A code occurs in the flattened list exactly when some entry has it as source or target. */
  lemma {:induction false} CodesOfMembership(history: seq<Entry>, c: string)
    ensures c in CodesOf(history) <==> exists i :: 0 <= i < |history| && Involves(history[i], c)
    decreases |history|
  {
    if history != [] {
      CodesOfMembership(history[1..], c);
      if exists i :: 1 <= i < |history| && Involves(history[i], c) {
        var i :| 1 <= i < |history| && Involves(history[i], c);
        assert Involves(history[1..][i - 1], c);
      }
      if exists i :: 0 <= i < |history[1..]| && Involves(history[1..][i], c) {
        var i :| 0 <= i < |history[1..]| && Involves(history[1..][i], c);
        assert Involves(history[i + 1], c);
      }
    }
  }

  /** `[...new Set(history.flatMap(...))].sort()`: every code used, ascending, once each. */
  function UniqueCurrencies(history: seq<Entry>): (codes: seq<string>)
    ensures StrictlySorted(codes)
    ensures Distinct(codes)
    ensures forall c :: c in codes <==> exists i :: 0 <= i < |history| && Involves(history[i], c)
  {
    var codes := SortedSet(set c | c in CodesOf(history));
    SortedIsDistinct(codes);
    forall c ensures c in codes <==> exists i :: 0 <= i < |history| && Involves(history[i], c) {
      CodesOfMembership(history, c);
    }
    codes
  }

  /** The page's state: the history shown and the selected filter. */
  class HistoryView {
    var history: seq<Entry>
    var filter: string

    constructor ()
      ensures history == [] && filter == AllFilter
    {
      history := [];
      filter := AllFilter;
    }

    /** `loadHistory`: show what storage holds now. */
    method LoadHistory(store: LocalStorage)
      modifies this
      ensures history == ReadHistory(store.slot, store.accessible)
      ensures filter == old(filter)
    {
      history := GetConversionHistory(store);
    }

    /** `handleClearHistory`: if the user confirms, clear storage and reload; otherwise change nothing. */
    method HandleClearHistory(store: LocalStorage, confirmed: bool)
      modifies this, store
      ensures confirmed ==> history == [] && store.slot == SlotAfterClear(old(store.slot), store.accessible)
      ensures !confirmed ==> history == old(history) && store.slot == old(store.slot)
      ensures filter == old(filter)
    {
      if confirmed {
        ClearConversionHistory(store);
        LoadHistory(store);
        ClearEmptiesHistory(old(store.slot), store.accessible);
      }
    }
  }
}
