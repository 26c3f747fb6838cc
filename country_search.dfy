/**
 * Country search of the phonetic-search playground: a two-letter term is looked up by ISO region
 * code, any other term as a substring of the country's own name or its Spanish display name.
 *
 * Accent folding (`removingAccents`, a locale-dependent Foundation call) is a parameter `fold`.
 */
module CountrySearch {
  import opened Seqs
  import opened Text

  datatype Country = Country(id: string, isoCode: string, name: string, displayName: string)

  /** The filter condition of `searchCountries`. */
  predicate Matches(c: Country, term: string, fold: string -> string) {
    var key := Lower(fold(term));
    if |fold(term)| == 2 then Lower(fold(c.isoCode)) == key
    else FoundationContains(Lower(fold(c.name)), key) || FoundationContains(Lower(fold(c.displayName)), key)
  }

  /** `searchCountries(searchTerm:in:)`: the countries that match, in their original order. */
  function SearchCountries(term: string, countries: seq<Country>, fold: string -> string): (r: seq<Country>)
    ensures forall c :: c in r <==> c in countries && Matches(c, term, fold)
    ensures |r| <= |countries|
  {
    Filter(countries, c => Matches(c, term, fold))
  }

  /** The result keeps the order of the country list. */
  lemma SearchKeepsOrder(term: string, countries: seq<Country>, fold: string -> string)
    ensures IsSubsequence(SearchCountries(term, countries, fold), countries)
  {
    FilterIsSubsequence(countries, c => Matches(c, term, fold));
  }

  /** A two-letter term finds exactly the countries whose ISO code equals it, ignoring case and accents. */
  lemma TwoLetterTermSearchesIsoCodes(term: string, countries: seq<Country>, fold: string -> string)
    requires |fold(term)| == 2
    ensures forall c :: c in SearchCountries(term, countries, fold) <==>
      c in countries && Lower(fold(c.isoCode)) == Lower(fold(term))
  {
  }

  /**
   * A term that folds to the empty text finds no country: it is not two letters long, and Foundation's
   * `contains` finds the empty string in no name. This is what the search screen shows before any input.
   */
  lemma EmptyTermFindsNothing(term: string, countries: seq<Country>, fold: string -> string)
    requires fold(term) == ""
    ensures SearchCountries(term, countries, fold) == []
  {
    FilterKeepsNone(countries, c => Matches(c, term, fold));
  }
}
