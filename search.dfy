/**
 * The search page (app/buscar/page.tsx): the category checkbox toggle and the
 * filter over the page's listing of professionals.
 */
module Search {
  import opened Text

  datatype Listing = Listing(id: string, name: string, categories: seq<string>, location: string)

  /** A checkbox of the category filter: the value it toggles and the caption it shows. */
  datatype CategoryOption = CategoryOption(value: string, caption: string)

  /** `prev.filter((c) => c !== category)`. */
  function RemoveAll(s: seq<string>, x: string): (r: seq<string>)
    ensures x !in r
    ensures forall y :: y != x ==> (y in r <==> y in s)
    ensures IsSubsequence(r, s)
  {
    if s == [] then []
    else if s[0] == x then RemoveAll(s[1..], x)
    else [s[0]] + RemoveAll(s[1..], x)
  }

  /** `a` is `b` with some elements left out, the rest kept in order. */
  predicate IsSubsequence<T(==)>(a: seq<T>, b: seq<T>)
  {
    if a == [] then true
    else if b == [] then false
    else if a[0] == b[0] then IsSubsequence(a[1..], b[1..])
    else IsSubsequence(a, b[1..])
  }

  /**
   * `handleCategoryChange`: a selected category is removed (every copy of
   * it), any other is appended at the end.
   */
  function ToggleCategory(selected: seq<string>, category: string): (r: seq<string>)
    ensures category in r <==> category !in selected
    ensures forall c :: c != category ==> (c in r <==> c in selected)
    ensures category in selected ==> IsSubsequence(r, selected)
    ensures category !in selected ==> r == selected + [category]
  {
    if category in selected then RemoveAll(selected, category) else selected + [category]
  }

  /** Toggling a category that was not selected, twice, restores the selection. */
  lemma ToggleTwiceRestores(selected: seq<string>, category: string)
    requires category !in selected
    ensures ToggleCategory(ToggleCategory(selected, category), category) == selected
  {
    RemoveAllAbsentAppended(selected, category);
  }

  lemma {:induction false} RemoveAllAbsentAppended(s: seq<string>, x: string)
    requires x !in s
    ensures RemoveAll(s + [x], x) == s
  {
    if s != [] {
      assert (s + [x])[1..] == s[1..] + [x];
      RemoveAllAbsentAppended(s[1..], x);
    }
  }

  /** The search term matches the name, one category or the location, ignoring case. */
  predicate MatchesTerm(p: Listing, term: string)
  {
    var t := Lower(term);
    || Contains(Lower(p.name), t)
    || (exists i :: 0 <= i < |p.categories| && Contains(Lower(p.categories[i]), t))
    || Contains(Lower(p.location), t)
  }

  /** One of the listing's categories is, exactly, one of the selected values. */
  predicate MatchesSelection(p: Listing, selected: seq<string>)
  {
    exists i :: 0 <= i < |p.categories| && p.categories[i] in selected
  }

  /** The body of the `filteredProfessionals` callback. */
  predicate Keeps(p: Listing, term: string, selected: seq<string>)
  {
    && (term == "" || MatchesTerm(p, term))
    && (|selected| == 0 || MatchesSelection(p, selected))
  }

  /** `professionals.filter(...)`: the listings the callback keeps, in page order. */
  function FilterListings(ps: seq<Listing>, term: string, selected: seq<string>): (r: seq<Listing>)
    ensures IsSubsequence(r, ps)
    ensures forall k :: 0 <= k < |r| ==> Keeps(r[k], term, selected)
    ensures forall k :: 0 <= k < |ps| && Keeps(ps[k], term, selected) ==> ps[k] in r
  {
    if ps == [] then []
    else if Keeps(ps[0], term, selected) then [ps[0]] + FilterListings(ps[1..], term, selected)
    else FilterListings(ps[1..], term, selected)
  }

  /** With no term and no category selected, the page lists everyone. */
  lemma {:induction false} EmptyFilterKeepsAll(ps: seq<Listing>)
    ensures FilterListings(ps, "", []) == ps
  {
    if ps != [] {
      EmptyFilterKeepsAll(ps[1..]);
    }
  }

  /** The category checkboxes of the page. */
  const CategoryOptions: seq<CategoryOption> := [
    CategoryOption("eletricista", "Eletricista"),
    CategoryOption("encanador", "Encanador"),
    CategoryOption("pintor", "Pintor"),
    CategoryOption("pedreiro", "Pedreiro"),
    CategoryOption("marceneiro", "Marceneiro"),
    CategoryOption("diarista", "Diarista")
  ]

  /** The listings the page filters (only the fields the filter reads). */
  const PageListings: seq<Listing> := [
    Listing("1", "Carlos Silva", ["Eletricista"], "Vila Mariana - SP"),
    Listing("2", "Ana Oliveira", ["Diarista"], "Copacabana - RJ"),
    Listing("3", "Marcos Santos", ["Pedreiro", "Pintor"], "Savassi - MG"),
    Listing("4", "Roberto Almeida", ["Encanador"], "Asa Sul - DF"),
    Listing("5", "Fernanda Lima", ["Pintor"], "Barra - BA"),
    Listing("6", "José Pereira", ["Marceneiro"], "Batel - PR")
  ]

  predicate CapitalisedCategories(ps: seq<Listing>)
  {
    forall k, i :: 0 <= k < |ps| && 0 <= i < |ps[k].categories| ==>
      ps[k].categories[i] != "" && IsUpperAscii(ps[k].categories[i][0])
  }

  predicate LowercaseValues(selected: seq<string>)
  {
    forall j :: 0 <= j < |selected| ==> selected[j] != "" && IsLowerAscii(selected[j][0])
  }

  /**
   * As written: when every category starts with a capital and every selected
   * value with a lower-case letter, any non-empty selection hides everyone.
   */
  lemma {:induction false} LowercaseSelectionHidesAll(ps: seq<Listing>, term: string, selected: seq<string>)
    requires CapitalisedCategories(ps) && LowercaseValues(selected) && |selected| > 0
    ensures FilterListings(ps, term, selected) == []
  {
    if ps != [] {
      var p := ps[0];
      forall i | 0 <= i < |p.categories| ensures p.categories[i] !in selected {
        assert IsUpperAscii(ps[0].categories[i][0]);
        forall j | 0 <= j < |selected| ensures selected[j] != p.categories[i] {
          assert IsLowerAscii(selected[j][0]);
        }
      }
      assert !Keeps(p, term, selected);
      LowercaseSelectionHidesAll(ps[1..], term, selected);
    }
  }

  /** As written: ticking any checkbox of the page empties the result list. */
  lemma CheckboxSelectionHidesAll(k: nat, term: string)
    requires k < |CategoryOptions|
    ensures FilterListings(PageListings, term, [CategoryOptions[k].value]) == []
  {
    var v := CategoryOptions[k].value;
    assert LowercaseValues([v]);
    assert CapitalisedCategories(PageListings);
    LowercaseSelectionHidesAll(PageListings, term, [v]);
  }

  /** Corrected category test: a category matches a selected value up to letter case. */
  predicate MatchesSelectionIgnoringCase(p: Listing, selected: seq<string>)
  {
    exists i, j :: 0 <= i < |p.categories| && 0 <= j < |selected| && Lower(p.categories[i]) == Lower(selected[j])
  }

  predicate KeepsCorrected(p: Listing, term: string, selected: seq<string>)
  {
    && (term == "" || MatchesTerm(p, term))
    && (|selected| == 0 || MatchesSelectionIgnoringCase(p, selected))
  }

  /** The filter with the corrected category test. */
  function FilterListingsCorrected(ps: seq<Listing>, term: string, selected: seq<string>): (r: seq<Listing>)
    ensures IsSubsequence(r, ps)
    ensures forall k :: 0 <= k < |r| ==> KeepsCorrected(r[k], term, selected)
    ensures forall k :: 0 <= k < |ps| && KeepsCorrected(ps[k], term, selected) ==> ps[k] in r
  {
    if ps == [] then []
    else if KeepsCorrected(ps[0], term, selected) then [ps[0]] + FilterListingsCorrected(ps[1..], term, selected)
    else FilterListingsCorrected(ps[1..], term, selected)
  }

  /** Corrected: every checkbox of the page finds the listings of its category. */
  lemma CorrectedCheckboxFindsItsCategory(k: nat)
    requires k < |CategoryOptions|
    ensures FilterListingsCorrected(PageListings, "", [CategoryOptions[k].value]) != []
  {
    var o := CategoryOptions[k];
    var m := [0, 3, 4, 2, 5, 1][k];
    assert PageListings[m].categories[0] == o.caption;
    CaptionLowersToValue(k);
    assert Lower(PageListings[m].categories[0]) == Lower([o.value][0]);
    assert KeepsCorrected(PageListings[m], "", [o.value]);
  }

  /** Each checkbox value is its caption in lower case, and is already lower case. */
  lemma CaptionLowersToValue(k: nat)
    requires k < |CategoryOptions|
    ensures Lower(CategoryOptions[k].caption) == CategoryOptions[k].value
    ensures Lower(CategoryOptions[k].value) == CategoryOptions[k].value
  {
    var o := CategoryOptions[k];
    assert |o.caption| == |o.value|;
    forall i | 0 <= i < |o.caption| ensures LowerChar(o.caption[i]) == o.value[i] && LowerChar(o.value[i]) == o.value[i] {
      if i == 0 {
        assert o.caption[0] as int + 32 == o.value[0] as int;
      } else {
        assert o.caption[i] == o.value[i];
      }
    }
  }
}
