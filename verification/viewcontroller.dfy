/** `CountriesViewController`: the search filter and the choice of the list the table shows. */
module ViewController {
  import opened Wrappers
  import opened Countries
  import opened ViewModel

  /** Swift's `lowercased()` on one character, for ASCII letters only. */
  function LowerChar(c: char): (l: char)
  {
    if 'A' <= c <= 'Z' then (c as int - 'A' as int + 'a' as int) as char else c
  }

  /** `lowercased()` on a string, for ASCII letters only. */
  function Lowercased(s: string): (r: string)
    ensures |r| == |s|
    // no upper-case letter is left ...
    ensures forall i :: 0 <= i < |r| ==> !('A' <= r[i] <= 'Z')
    // ... each upper-case letter becomes its own lower-case letter ...
    ensures forall i :: 0 <= i < |s| && 'A' <= s[i] <= 'Z' ==> r[i] == (s[i] as int - 'A' as int + 'a' as int) as char
    // ... and every other character is kept
    ensures forall i :: 0 <= i < |s| && !('A' <= s[i] <= 'Z') ==> r[i] == s[i]
  {
    seq(|s|, i requires 0 <= i < |s| => LowerChar(s[i]))
  }

  /** Lowering twice is lowering once. */
  lemma LowercasedIdempotent(s: string)
    ensures Lowercased(Lowercased(s)) == Lowercased(s)
  {
  }

  /** `haystack.contains(needle)`: `needle` occurs as a contiguous piece of `haystack`. */
  predicate Contains(haystack: string, needle: string)
    // the empty string is contained in every string
    ensures needle == [] ==> Contains(haystack, needle)
    // a contained string is never longer than the string containing it
    ensures Contains(haystack, needle) ==> |needle| <= |haystack|
    decreases |haystack|
  {
    needle <= haystack || (haystack != [] && Contains(haystack[1..], needle))
  }

  /** `needle` sits in `haystack` starting at offset `k`. */
  predicate OccursAt(haystack: string, needle: string, k: int)
  {
    0 <= k <= |haystack| - |needle| && haystack[k..k + |needle|] == needle
  }

  /** A needle sitting at offset `k` is contained. */
  lemma {:induction false} OffsetGivesContains(haystack: string, needle: string, k: int)
    requires OccursAt(haystack, needle, k)
    ensures Contains(haystack, needle)
    decreases k
  {
    if k == 0 {
      assert needle <= haystack;
    } else {
      var tail := haystack[1..];
      assert tail[k - 1..k - 1 + |needle|] == haystack[k..k + |needle|];
      OffsetGivesContains(tail, needle, k - 1);
    }
  }

  /** A contained needle sits at some offset, which is returned. */
  lemma {:induction false} ContainsGivesOffset(haystack: string, needle: string) returns (k: int)
    requires Contains(haystack, needle)
    ensures OccursAt(haystack, needle, k)
    decreases |haystack|
  {
    if needle <= haystack {
      k := 0;
      assert haystack[..|needle|] == needle;
    } else {
      var tail := haystack[1..];
      var j := ContainsGivesOffset(tail, needle);
      k := j + 1;
      assert haystack[k..k + |needle|] == tail[j..j + |needle|];
    }
  }

  /** `Contains` is the substring relation: `needle` sits at some offset of `haystack`. */
  lemma ContainsAtOffset(haystack: string, needle: string)
    ensures Contains(haystack, needle) <==> exists k :: OccursAt(haystack, needle, k)
  {
    if Contains(haystack, needle) {
      var k := ContainsGivesOffset(haystack, needle);
    }
    if k :| OccursAt(haystack, needle, k) {
      OffsetGivesContains(haystack, needle, k);
    }
  }

  /** A needle whose first character does not occur in the haystack is not contained in it. */
  lemma {:induction false} FirstCharAbsent(haystack: string, needle: string)
    requires needle != [] && needle[0] !in haystack
    ensures !Contains(haystack, needle)
    decreases |haystack|
  {
    if haystack != [] {
      assert haystack[0] in haystack;
      FirstCharAbsent(haystack[1..], needle);
    }
  }

  /** The closure passed to `filter` in `updateSearchResults`, for a search bar holding
      `text`: an empty search bar keeps everything, otherwise the lowercased name or
      capital must contain the lowercased text. */
  predicate Matches(country: Country, text: string)
    // empty text keeps every country
    ensures text == [] ==> Matches(country, text)
    // non-empty text fits inside the name or the capital
    ensures Matches(country, text) && text != [] ==> |text| <= |country.name| || |text| <= |country.capital|
  {
    text == []
    || Contains(Lowercased(country.name), Lowercased(text))
    || Contains(Lowercased(country.capital), Lowercased(text))
  }

  /** Matching ignores case in the search text. */
  lemma MatchesIgnoresCase(country: Country, text: string)
    ensures Matches(country, text) == Matches(country, Lowercased(text))
  {
    LowercasedIdempotent(text);
  }

  /** `viewModel.countriesSubject.value.filter { ... }` for a search bar holding `text`. */
  function FilterCountries(countries: seq<Country>, text: string): (r: seq<Country>)
    ensures |r| <= |countries|
    ensures forall c :: c in r ==> c in countries && Matches(c, text)
  {
    if countries == [] then []
    else (if Matches(countries[0], text) then [countries[0]] else []) + FilterCountries(countries[1..], text)
  }

  /** `sub` is `s` with some elements left out and the rest in their order. */
  predicate IsSubsequence<T(==)>(sub: seq<T>, s: seq<T>)
    decreases |s|
  {
    if sub == [] then true
    else if s == [] then false
    else if sub[0] == s[0] then IsSubsequence(sub[1..], s[1..])
    else IsSubsequence(sub, s[1..])
  }

  lemma {:induction false} EmptySearchKeepsAll(countries: seq<Country>)
    ensures FilterCountries(countries, "") == countries
    decreases |countries|
  {
    if countries != [] {
      EmptySearchKeepsAll(countries[1..]);
    }
  }

  /** Every country is kept exactly as often as it occurs, if it matches, and dropped
      otherwise: duplicates are not merged. */
  lemma {:induction false} FilterKeepsExactlyMatches(countries: seq<Country>, text: string, c: Country)
    ensures multiset(FilterCountries(countries, text))[c] == if Matches(c, text) then multiset(countries)[c] else 0
    ensures c in FilterCountries(countries, text) <==> c in countries && Matches(c, text)
    decreases |countries|
  {
    if countries != [] {
      FilterKeepsExactlyMatches(countries[1..], text, c);
      assert countries == [countries[0]] + countries[1..];
    }
  }

  /** The filtered list keeps the order of the full list. */
  lemma {:induction false} FilterIsSubsequence(countries: seq<Country>, text: string)
    ensures IsSubsequence(FilterCountries(countries, text), countries)
    decreases |countries|
  {
    if countries != [] {
      var rest := FilterCountries(countries[1..], text);
      FilterIsSubsequence(countries[1..], text);
      if Matches(countries[0], text) {
        assert FilterCountries(countries, text) == [countries[0]] + rest;
        assert ([countries[0]] + rest)[1..] == rest;
      } else {
        assert FilterCountries(countries, text) == rest;
        // rest holds only matching countries, so it cannot start with countries[0]
        assert rest != [] ==> rest[0] in rest && rest[0] != countries[0];
      }
    }
  }

  /** Filtering a filtered list again changes nothing. */
  lemma {:induction false} FilterIdempotent(countries: seq<Country>, text: string)
    ensures FilterCountries(FilterCountries(countries, text), text) == FilterCountries(countries, text)
    decreases |countries|
  {
    if countries != [] {
      var rest := FilterCountries(countries[1..], text);
      FilterIdempotent(countries[1..], text);
      if Matches(countries[0], text) {
        var kept := [countries[0]] + rest;
        assert FilterCountries(countries, text) == kept;
        assert kept[0] == countries[0] && kept[1..] == rest;
        assert FilterCountries(kept, text) == [countries[0]] + FilterCountries(rest, text);
      } else {
        assert FilterCountries(countries, text) == rest;
      }
    }
  }

  const France: Country :=
    Country("Paris", "FR", Currency("EUR", "Euro", "€"), "🇫🇷", Language("fr", "French"), "France", "Europe")

  lemma LowercasedGer()
    ensures Lowercased("Ger") == "ger"
  {
    var r := Lowercased("Ger");
    assert r[0] == LowerChar('G') == 'g';
    assert r[1] == 'e' && r[2] == 'r';
  }

  lemma GermanyMatchesGer()
    ensures Matches(Germany, "Ger")
  {
    LowercasedGer();
    var name := Lowercased(Germany.name);
    assert name[0] == LowerChar('G') == 'g';
    assert name[1] == 'e' && name[2] == 'r';
    assert "ger" <= name;
  }

  lemma FranceMissesGer()
    ensures !Matches(France, "Ger")
  {
    LowercasedGer();
    var name := Lowercased(France.name);
    assert name[0] == LowerChar('F') == 'f';
    assert 'g' !in name;
    var capital := Lowercased(France.capital);
    assert capital[0] == LowerChar('P') == 'p';
    assert 'g' !in capital;
    FirstCharAbsent(name, "ger");
    FirstCharAbsent(capital, "ger");
  }

  /** The search-filtering unit test's data: "Ger" keeps Germany and drops France. */
  lemma GerKeepsOnlyGermany(countries: seq<Country>)
    requires countries == [Germany, France]
    ensures FilterCountries(countries, "Ger") == [Germany]
  {
    GermanyMatchesGer();
    FranceMissesGer();
    assert countries[1..] == [France] && [France][1..] == [];
  }

  class CountriesViewController {
    const viewModel: CountriesViewModel
    /** The state UIKit keeps in the search controller and its search bar. */
    var searchBarText: Option<string>
    var selectedScopeButtonIndex: int
    var isActive: bool
    var filteredCountries: seq<Country>

    /** `init(viewModel:)`, with the search bar as UIKit creates it. */
    constructor (viewModel: CountriesViewModel)
      ensures this.viewModel == viewModel
      ensures searchBarText == None && selectedScopeButtonIndex == 0 && !isActive
      ensures filteredCountries == []
    {
      this.viewModel := viewModel;
      searchBarText := None;
      selectedScopeButtonIndex := 0;
      isActive := false;
      filteredCountries := [];
    }

    /** `isSearchBarEmpty`: no text, or empty text. */
    predicate IsSearchBarEmpty()
      reads this
      ensures IsSearchBarEmpty() <==> searchBarText.None? || searchBarText.value == []
    {
      searchBarText.GetOr("") == []
    }

    /** `isFiltering`. */
    predicate IsFiltering()
      reads this
      // an inactive search never filters; an active one filters when there is text or a scope other than 0
      ensures IsFiltering() <==> isActive && ((searchBarText.Some? && searchBarText.value != []) || selectedScopeButtonIndex != 0)
    {
      isActive && (!IsSearchBarEmpty() || selectedScopeButtonIndex != 0)
    }

    /** The computed `countries` property: the list the table shows. */
    function Displayed(): (shown: seq<Country>)
      reads this, viewModel, viewModel.countriesSubject
      ensures IsFiltering() ==> shown == filteredCountries
      ensures !IsFiltering() ==> shown == viewModel.countriesSubject.value
    {
      if IsFiltering() then filteredCountries else viewModel.countriesSubject.value
    }

    /** `tableView(_:numberOfRowsInSection:)`. */
    function NumberOfRows(): (n: nat)
      reads this, viewModel, viewModel.countriesSubject
      ensures n == |Displayed()|
    {
      |Displayed()|
    }

    /** The country `cellForRowAt` and `didSelectRowAt` look up for `row`; UIKit only
        asks for rows below the row count. */
    function CountryAt(row: nat): (c: Country)
      requires row < NumberOfRows()
      reads this, viewModel, viewModel.countriesSubject
      ensures c == Displayed()[row]
    {
      Displayed()[row]
    }

    /** `updateSearchResults(for:)`: without text nothing changes; with text the filtered
        list is rebuilt from the view model's full list (never from the previous
        filtered list). */
    method UpdateSearchResults()
      modifies this`filteredCountries
      ensures searchBarText.None? ==> filteredCountries == old(filteredCountries)
      ensures searchBarText.Some? ==>
                filteredCountries == FilterCountries(viewModel.countriesSubject.value, searchBarText.value)
    {
      if searchBarText.Some? {
        filteredCountries := FilterCountries(viewModel.countriesSubject.value, searchBarText.value);
      }
    }

    /** `performSearch(with:)`: put `text` in the search bar and update the results. */
    method PerformSearch(text: string)
      modifies this`searchBarText, this`filteredCountries
      ensures searchBarText == Some(text)
      ensures filteredCountries == FilterCountries(viewModel.countriesSubject.value, text)
    {
      searchBarText := Some(text);
      UpdateSearchResults();
    }
  }

  /** The displayed list is the filtered list exactly when the search is active and there
      is text or a scope other than the first; otherwise it is the view model's list. */
  lemma DisplayedListRule(vc: CountriesViewController)
    ensures vc.Displayed() ==
      if vc.isActive && ((vc.searchBarText.Some? && vc.searchBarText.value != "") || vc.selectedScopeButtonIndex != 0)
      then vc.filteredCountries
      else vc.viewModel.countriesSubject.value
  {
  }

  /** Once the results are up to date for some text, every row shown while filtering is
      a country of the view model's list that matches the text, and there are no more
      rows than countries. */
  lemma FilteredRowsMatch(vc: CountriesViewController, text: string)
    requires vc.IsFiltering() && vc.searchBarText == Some(text)
    requires vc.filteredCountries == FilterCountries(vc.viewModel.countriesSubject.value, text)
    ensures vc.NumberOfRows() <= |vc.viewModel.countriesSubject.value|
    ensures forall row :: 0 <= row < vc.NumberOfRows() ==>
              vc.CountryAt(row) in vc.viewModel.countriesSubject.value && Matches(vc.CountryAt(row), text)
  {
  }

  /** The search-filtering unit test: with [Germany, France] published, "Ger" keeps only
      Germany. The test calls `performSearch` without activating the search controller,
      so the table still shows both countries; only an active search shows one row. */
  method SearchFilteringScenario() returns (filtered: seq<Country>, rowsInactive: nat, rowsActive: nat)
    ensures filtered == [Germany]
    ensures rowsInactive == 2 && rowsActive == 1
  {
    var viewModel := new CountriesViewModel(DefaultMockService);
    var vc := new CountriesViewController(viewModel);
    viewModel.countriesSubject.Send([Germany, France]);
    GerKeepsOnlyGermany(viewModel.countriesSubject.value);
    vc.PerformSearch("Ger");
    filtered := vc.filteredCountries;
    assert !vc.IsFiltering();
    rowsInactive := vc.NumberOfRows();
    vc.isActive := true;
    assert vc.IsFiltering();
    rowsActive := vc.NumberOfRows();
  }
}
