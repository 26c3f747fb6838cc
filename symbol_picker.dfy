/**
 * The symbol picker's view model: loading the list of symbol names, and the case-insensitive substring
 * search that decides what the grid shows. Debouncing and task cancellation are not modelled; a search
 * task is taken to run to completion before the next event.
 */
module SymbolPicker {
  import opened Wrappers
  import opened Seqs
  import opened Text

  /** The states the grid switches over. */
  datatype ResultState = Idle | Working | EmptyData | Success(results: seq<string>) | Failure(description: string)

  /** The condition of `searchSymbols(for:)`: the lower-cased name contains the lower-cased term. */
  predicate SymbolMatches(symbol: string, term: string) {
    FoundationContains(Lower(symbol), Lower(term))
  }

  /** `searchSymbols(for:)`: the matching symbols, in the order of the loaded list. */
  function SearchSymbols(symbols: seq<string>, term: string): (r: seq<string>)
    ensures forall s :: s in r <==> s in symbols && SymbolMatches(s, term)
    ensures |r| <= |symbols|
  {
    Filter(symbols, s => SymbolMatches(s, term))
  }

  /** The search result keeps the order of the symbol list. */
  lemma SearchKeepsOrder(symbols: seq<string>, term: string)
    ensures IsSubsequence(SearchSymbols(symbols, term), symbols)
  {
    FilterIsSubsequence(symbols, s => SymbolMatches(s, term));
  }

  /** Lower-casing twice is lower-casing once. */
  lemma LowerIdempotent(s: string)
    ensures Lower(Lower(s)) == Lower(s)
  {
    assert forall i :: 0 <= i < |s| ==> LowerChar(LowerChar(s[i])) == LowerChar(s[i]);
  }

  /** The search ignores the case of the term. */
  lemma {:induction false} SearchIgnoresCase(symbols: seq<string>, term: string)
    ensures SearchSymbols(symbols, Lower(term)) == SearchSymbols(symbols, term)
  {
    LowerIdempotent(term);
    if symbols != [] {
      SearchIgnoresCase(symbols[1..], term);
    }
  }

  /**
   * No symbol contains the empty term in Foundation's sense, so a search for "" would show nothing;
   * `performSearch(with:)` answers the empty term with the whole list instead of searching.
   */
  lemma EmptyTermMatchesNothing(symbols: seq<string>)
    ensures SearchSymbols(symbols, "") == []
  {
    FilterKeepsNone(symbols, s => SymbolMatches(s, ""));
  }

  /** A non-empty term lower-cases to a non-empty term, so the search is a real substring search. */
  lemma NonEmptyTermSearchesSubstrings(symbols: seq<string>, term: string)
    requires term != []
    ensures forall s :: s in SearchSymbols(symbols, term) <==> s in symbols && Contains(Lower(s), Lower(term))
  {
  }

  /** What a list of symbols is shown as: the empty-data view for no symbols, the grid otherwise. */
  function Shown(symbols: seq<string>): (r: ResultState)
    ensures r == EmptyData <==> symbols == []
    ensures r != EmptyData ==> r == Success(symbols)
  {
    if symbols == [] then EmptyData else Success(symbols)
  }

  class SymbolViewModel {
    var searchTerm: string
    var filteredResult: ResultState
    var systemSymbols: seq<string>

    constructor()
      ensures searchTerm == "" && filteredResult == Idle && systemSymbols == []
    {
      searchTerm := "";
      filteredResult := Idle;
      systemSymbols := [];
    }

    /**
     * `loadSymbols()`, with `loaded` the outcome of reading the system's symbol list. A failure is only
     * logged, so the grid stays in the working state.
     */
    method LoadSymbols(loaded: Result<seq<string>, string>)
      modifies this
      ensures loaded.Ok? ==> systemSymbols == loaded.value && filteredResult == Shown(loaded.value)
      ensures loaded.Ok? ==> (filteredResult == EmptyData <==> loaded.value == [])
      ensures loaded.Err? ==> systemSymbols == old(systemSymbols) && filteredResult == Working
      ensures searchTerm == old(searchTerm)
    {
      filteredResult := Working;
      match loaded {
        case Ok(symbols) =>
          systemSymbols := symbols;
          filteredResult := if systemSymbols == [] then EmptyData else Success(systemSymbols);
        case Err(_) =>
      }
    }

    /**
     * `performSearch(with:)`: an empty term shows every symbol, even none; any other term shows the
     * symbols that match it, or the empty-data view when none does.
     */
    method PerformSearch(term: string)
      modifies this`filteredResult
      ensures term == [] ==> filteredResult == Success(systemSymbols)
      ensures term != [] ==> filteredResult == Shown(SearchSymbols(systemSymbols, term))
      ensures filteredResult.Success? ==> forall s :: s in filteredResult.results ==> s in systemSymbols
    {
      if term == [] {
        filteredResult := Success(systemSymbols);
      } else {
        filteredResult := Working;
        var results := SearchSymbols(systemSymbols, term);
        filteredResult := if results == [] then EmptyData else Success(results);
      }
    }
  }
}
