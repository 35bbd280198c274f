/**
 * The "All Documents" page: canonical filter vocabularies, the filter and
 * search state with its transitions, and the resolution of the list shown.
 */
module DocumentsPage {
  import opened Wrappers
  import opened Text
  import opened Seqs
  import opened Sorting
  import opened Records
  import opened Fuzzy

  // ---------------------------------------------------------------------------
  // Canonical names and the option vocabularies
  // ---------------------------------------------------------------------------

  /**
   * `findCanonicalName`: an exact member of the registry is its own canonical
   * name; otherwise the best strict fuzzy hit among the registry, if any;
   * otherwise the value itself becomes a new canonical name.
   */
  function FindCanonicalName(value: string, existingNames: seq<string>, m: Matcher<string>): (r: string)
    ensures value in existingNames ==> r == value
    ensures value !in existingNames && |m(CanonicalOptions, value, existingNames)| == 0 ==> r == value
    ensures DrawsFromCandidates(m) ==> r == value || r in existingNames
  {
    if value in existingNames then value
    else
      var results := m(CanonicalOptions, value, existingNames);
      if |results| > 0 then assert results[0] in results; results[0] else value
  }

  /** One document's contribution to one category's vocabulary (`if (doc.owner) { ... add ... }`). */
  function AddCanonical(registry: seq<string>, raw: Option<string>, m: Matcher<string>): seq<string> {
    if Truthy(raw) then Add(registry, FindCanonicalName(raw.value, registry, m)) else registry
  }

  /**
   * The vocabulary of one category: the `forEach` fold over the documents'
   * field values, in document order, into a `Set` kept in insertion order.
   */
  function Vocabulary(values: seq<Option<string>>, m: Matcher<string>): (r: seq<string>)
    ensures NoDup(r)
    ensures DrawsFromCandidates(m) ==> forall x :: x in r ==> x != "" && Some(x) in values
    decreases |values|
  {
    if |values| == 0 then []
    else
      var init := values[..|values| - 1];
      var last := values[|values| - 1];
      var before := Vocabulary(init, m);
      assert forall v :: v in init ==> v in values;
      AddCanonical(before, last, m)
  }

  /** The values of one field across the documents, in document order. */
  function FieldValues(docs: seq<Document>, c: Category): (vs: seq<Option<string>>)
    ensures |vs| == |docs|
    ensures forall i :: 0 <= i < |docs| ==> vs[i] == FieldOf(docs[i], c)
  {
    seq(|docs|, i requires 0 <= i < |docs| => FieldOf(docs[i], c))
  }

  /** The fold only ever adds names: every earlier registry survives into the final one. */
  lemma {:induction false} VocabularyGrows(values: seq<Option<string>>, k: nat, m: Matcher<string>)
    requires k <= |values|
    ensures forall x :: x in Vocabulary(values[..k], m) ==> x in Vocabulary(values, m)
    decreases |values| - k
  {
    if k == |values| {
      assert values[..k] == values;
    } else {
      var init := values[..|values| - 1];
      assert init[..k] == values[..k];
      VocabularyGrows(init, k, m);
    }
  }

  /** The canonical name the fold gives the `i`-th value, against the registry built from the values before it. */
  function FoldName(values: seq<Option<string>>, i: nat, m: Matcher<string>): string
    requires i < |values| && Truthy(values[i])
  {
    FindCanonicalName(values[i].value, Vocabulary(values[..i], m), m)
  }

  /**
   * Completeness of the fold: every truthy value is represented in the
   * vocabulary by the canonical name it was given at its turn.
   */
  lemma {:induction false} VocabularyComplete(values: seq<Option<string>>, i: nat, m: Matcher<string>)
    requires i < |values| && Truthy(values[i])
    ensures FoldName(values, i, m) in Vocabulary(values, m)
  {
    var upTo := values[..i + 1];
    assert upTo[..|upTo| - 1] == values[..i];
    assert upTo[|upTo| - 1] == values[i];
    VocabularyGrows(values, i + 1, m);
  }

  /** With a matcher that never hits, every name is its own canonical name, so the vocabulary is exactly the truthy values. */
  lemma VocabularyWithoutMatches(values: seq<Option<string>>, m: Matcher<string>)
    requires NeverMatches(m)
    ensures forall x :: x in Vocabulary(values, m) <==> x != "" && Some(x) in values
  {
    assert forall o, q, c, x :: x !in m(o, q, c);
    forall x | x != "" && Some(x) in values
      ensures x in Vocabulary(values, m)
    {
      var i :| 0 <= i < |values| && values[i] == Some(x);
      assert |m(CanonicalOptions, x, Vocabulary(values[..i], m))| == 0;
      VocabularyComplete(values, i, m);
    }
  }

  lemma LexLeIsTotalPreorder()
    ensures TotalPreorder(LexLe)
  {
    forall a, b
      ensures LexLe(a, b) || LexLe(b, a)
    {
      LexLeTotal(a, b);
    }
    forall a, b, c | LexLe(a, b) && LexLe(b, c)
      ensures LexLe(a, c)
    {
      LexLeTransitive(a, b, c);
    }
  }

  /**
   * One category's option list as handed to the sidebar: the vocabulary,
   * `Array.from(...).sort()`. It is strictly ascending; every document with a
   * truthy value is represented by its canonical name; under the matcher
   * assumption every option is some document's non-empty raw field value; and
   * with a matcher that never hits, the options are exactly those values.
   */
  function CategoryOptions(docs: seq<Document>, c: Category, m: Matcher<string>): (r: seq<string>)
    ensures SortedBy(r, LexLe) && NoDup(r)
    ensures forall i, j :: 0 <= i < j < |r| ==> LexLe(r[i], r[j]) && r[i] != r[j]
    ensures forall i :: 0 <= i < |docs| && Truthy(FieldOf(docs[i], c)) ==> FoldName(FieldValues(docs, c), i, m) in r
    ensures DrawsFromCandidates(m) ==>
      forall x :: x in r ==> x != "" && exists i :: 0 <= i < |docs| && FieldOf(docs[i], c) == Some(x)
    ensures NeverMatches(m) ==>
      forall x :: x in r <==> x != "" && exists i :: 0 <= i < |docs| && FieldOf(docs[i], c) == Some(x)
  {
    var values := FieldValues(docs, c);
    var vocabulary := Vocabulary(values, m);
    LexLeIsTotalPreorder();
    var r := SortBy(vocabulary, LexLe);
    SortedVocabulary(docs, c, m, vocabulary, r);
    r
  }

  /** Sorting the vocabulary keeps its members, so it keeps their properties. */
  lemma SortedVocabulary(docs: seq<Document>, c: Category, m: Matcher<string>, vocabulary: seq<string>, r: seq<string>)
    requires vocabulary == Vocabulary(FieldValues(docs, c), m)
    requires multiset(r) == multiset(vocabulary) && SortedBy(r, LexLe)
    ensures NoDup(r)
    ensures forall i, j :: 0 <= i < j < |r| ==> LexLe(r[i], r[j]) && r[i] != r[j]
    ensures forall i :: 0 <= i < |docs| && Truthy(FieldOf(docs[i], c)) ==> FoldName(FieldValues(docs, c), i, m) in r
    ensures DrawsFromCandidates(m) ==>
      forall x :: x in r ==> x != "" && exists i :: 0 <= i < |docs| && FieldOf(docs[i], c) == Some(x)
    ensures NeverMatches(m) ==>
      forall x :: x in r <==> x != "" && exists i :: 0 <= i < |docs| && FieldOf(docs[i], c) == Some(x)
  {
    var values := FieldValues(docs, c);
    PermutationKeepsNoDup(vocabulary, r);
    forall x ensures x in r <==> x in vocabulary {
      assert x in r <==> x in multiset(r);
      assert x in vocabulary <==> x in multiset(vocabulary);
    }
    forall i | 0 <= i < |docs| && Truthy(FieldOf(docs[i], c))
      ensures FoldName(values, i, m) in r
    {
      VocabularyComplete(values, i, m);
    }
    if DrawsFromCandidates(m) {
      forall x | x in r
        ensures exists i :: 0 <= i < |docs| && FieldOf(docs[i], c) == Some(x)
      {
        var i :| 0 <= i < |values| && values[i] == Some(x);
        assert FieldOf(docs[i], c) == Some(x);
      }
    }
    if NeverMatches(m) {
      VocabularyWithoutMatches(values, m);
      forall x | x != "" && exists i :: 0 <= i < |docs| && FieldOf(docs[i], c) == Some(x)
        ensures x in r
      {
        var i :| 0 <= i < |docs| && FieldOf(docs[i], c) == Some(x);
        assert values[i] == Some(x);
      }
    }
  }

  /** `filterOptions`: the four option lists. */
  function FilterOptions(docs: seq<Document>, m: Matcher<string>): PerCategory<seq<string>> {
    PerCategory(CategoryOptions(docs, Owner, m), CategoryOptions(docs, Type, m),
                CategoryOptions(docs, Company, m), CategoryOptions(docs, Country, m))
  }

  /**
   * Each option list is strictly ascending and free of missing or empty values
   * and duplicates, and every document with a truthy value in the category is
   * represented in it by its canonical name.
   */
  lemma FilterOptionsWellFormed(docs: seq<Document>, m: Matcher<string>, c: Category)
    requires DrawsFromCandidates(m)
    ensures var opts := FilterOptions(docs, m).Get(c);
      && NoDup(opts)
      && (forall i, j :: 0 <= i < j < |opts| ==> LexLe(opts[i], opts[j]))
      && (forall x :: x in opts ==> x != "" && exists i :: 0 <= i < |docs| && FieldOf(docs[i], c) == Some(x))
      && (forall i :: 0 <= i < |docs| && Truthy(FieldOf(docs[i], c)) ==> FoldName(FieldValues(docs, c), i, m) in opts)
  {
  }

  // ---------------------------------------------------------------------------
  // Filter and search state
  // ---------------------------------------------------------------------------

  /** `activeFilters`: the selected values of each category, each a `Set` in insertion order. */
  type Selections = PerCategory<seq<string>>

  const NoSelections: Selections := PerCategory([], [], [], [])

  /** Every category's selection is duplicate-free. */
  predicate ValidSelections(s: Selections) {
    NoDup(s.owner) && NoDup(s.docType) && NoDup(s.company) && NoDup(s.country)
  }

  /** `Object.values(activeFilters).some(s => s.size > 0)`. */
  predicate HasActiveFilters(s: Selections) {
    |s.owner| > 0 || |s.docType| > 0 || |s.company| > 0 || |s.country| > 0
  }

  lemma HasActiveFiltersMeansSomeCategory(s: Selections)
    ensures HasActiveFilters(s) <==> exists c :: |s.Get(c)| > 0
  {
    if HasActiveFilters(s) {
      if |s.owner| > 0 { assert |s.Get(Owner)| > 0; }
      else if |s.docType| > 0 { assert |s.Get(Type)| > 0; }
      else if |s.company| > 0 { assert |s.Get(Company)| > 0; }
      else { assert |s.Get(Country)| > 0; }
    }
  }

  datatype PageState = PageState(
    searchQuery: string,               // the text in the search box
    submittedSearchQuery: string,      // the query last submitted
    activeFilters: Selections,
    aiSearchResults: Option<seq<Document>>)

  const InitialState := PageState("", "", NoSelections, None)

  /** Typing into the search box changes only the typed query. */
  function SetSearchQuery(st: PageState, q: string): (r: PageState)
    ensures r.searchQuery == q
    ensures r.(searchQuery := st.searchQuery) == st
  {
    st.(searchQuery := q)
  }

  /**
   * `handleFilterChange`: flips `value` in the one category, drops any AI
   * results, and touches nothing else.
   */
  function HandleFilterChange(st: PageState, c: Category, value: string): (r: PageState)
    ensures r.aiSearchResults == None
    ensures value in r.activeFilters.Get(c) <==> value !in st.activeFilters.Get(c)
    ensures forall x :: x != value ==> (x in r.activeFilters.Get(c) <==> x in st.activeFilters.Get(c))
    ensures forall c' :: c' != c ==> r.activeFilters.Get(c') == st.activeFilters.Get(c')
    ensures r.searchQuery == st.searchQuery && r.submittedSearchQuery == st.submittedSearchQuery
    ensures ValidSelections(st.activeFilters) ==> ValidSelections(r.activeFilters)
  {
    var filters := st.activeFilters.With(c, Toggle(st.activeFilters.Get(c), value));
    assert ValidSelections(st.activeFilters) ==> NoDup(st.activeFilters.Get(c));
    st.(aiSearchResults := None, activeFilters := filters)
  }

  /**
   * Toggling the same value twice gives back the original selections (the
   * same members; the same sequence when the value was not selected).
   */
  lemma ToggleTwiceRestoresSelection(st: PageState, c: Category, value: string)
    ensures var twice := HandleFilterChange(HandleFilterChange(st, c, value), c, value);
      && (forall c' :: Elements(twice.activeFilters.Get(c')) == Elements(st.activeFilters.Get(c')))
      && (value !in st.activeFilters.Get(c) ==> twice.activeFilters == st.activeFilters)
      && twice.aiSearchResults == None
  {
    ToggleTwice(st.activeFilters.Get(c), value);
    var twice := HandleFilterChange(HandleFilterChange(st, c, value), c, value);
    if value !in st.activeFilters.Get(c) {
      var a, b := twice.activeFilters, st.activeFilters;
      assert a.Get(Owner) == b.Get(Owner) && a.Get(Type) == b.Get(Type);
      assert a.Get(Company) == b.Get(Company) && a.Get(Country) == b.Get(Country);
    }
  }

  /** `clearFilters`: no selections, no AI results, both queries empty. */
  function ClearFilters(st: PageState): (r: PageState)
    ensures !HasActiveFilters(r.activeFilters) && ValidSelections(r.activeFilters)
    ensures r.aiSearchResults == None
    ensures r.searchQuery == "" && r.submittedSearchQuery == ""
  {
    PageState("", "", NoSelections, None)
  }

  /**
   * `handleAiSearch`: a loose Fuse search over every document (file name
   * included) whose hits become the AI results; selections and both queries
   * are cleared.
   */
  function HandleAiSearch(st: PageState, docs: seq<Document>, dm: Matcher<Document>, searchString: string): (r: PageState)
    ensures !HasActiveFilters(r.activeFilters) && ValidSelections(r.activeFilters)
    ensures r.searchQuery == "" && r.submittedSearchQuery == ""
    ensures r.aiSearchResults.Some?
    ensures DrawsFromCandidates(dm) ==> forall d :: d in r.aiSearchResults.value ==> d in docs
  {
    var results := dm(AiSearchOptions, searchString, docs);
    PageState("", "", NoSelections, Some(results))
  }

  /** `handleSearchSubmit`: the typed query becomes the submitted one and AI results are dropped. */
  function HandleSearchSubmit(st: PageState): (r: PageState)
    ensures r.aiSearchResults == None
    ensures r.submittedSearchQuery == st.searchQuery
    ensures r.searchQuery == st.searchQuery && r.activeFilters == st.activeFilters
  {
    st.(aiSearchResults := None, submittedSearchQuery := st.searchQuery)
  }

  // ---------------------------------------------------------------------------
  // The displayed documents
  // ---------------------------------------------------------------------------

  /**
   * One category's test: an empty selection admits everything; otherwise the
   * document's field must be truthy and fuzzily hit one of the selected values.
   */
  predicate PassesCategory(d: Document, c: Category, selected: seq<string>, m: Matcher<string>) {
    |selected| == 0 || (Truthy(FieldOf(d, c)) && |m(FilterMatchOptions, FieldOf(d, c).value, selected)| > 0)
  }

  /** `Object.entries(activeFilters).every(...)`. */
  predicate PassesAll(d: Document, s: Selections, m: Matcher<string>) {
    && PassesCategory(d, Owner, s.owner, m)
    && PassesCategory(d, Type, s.docType, m)
    && PassesCategory(d, Company, s.company, m)
    && PassesCategory(d, Country, s.country, m)
  }

  lemma PassesAllMeansEveryCategory(d: Document, s: Selections, m: Matcher<string>)
    ensures PassesAll(d, s, m) <==> forall c :: PassesCategory(d, c, s.Get(c), m)
  {
    if PassesAll(d, s, m) {
      forall c ensures PassesCategory(d, c, s.Get(c), m) {
        match c
        case Owner =>
        case Type =>
        case Company =>
        case Country =>
      }
    } else {
      assert !PassesCategory(d, Owner, s.Get(Owner), m) || !PassesCategory(d, Type, s.Get(Type), m)
        || !PassesCategory(d, Company, s.Get(Company), m) || !PassesCategory(d, Country, s.Get(Country), m);
    }
  }

  /**
   * The sidebar filters: skipped when nothing is selected, otherwise the
   * documents passing every category, in their original order.
   */
  function ApplyCategoryFilters(docs: seq<Document>, s: Selections, m: Matcher<string>): (r: seq<Document>)
    ensures IsSubsequence(r, docs)
    ensures forall d :: d in r <==> d in docs && PassesAll(d, s, m)
    ensures !HasActiveFilters(s) ==> r == docs
  {
    if HasActiveFilters(s) then Filter(docs, d => PassesAll(d, s, m))
    else
      SubsequenceReflexive(docs);
      docs
  }

  /**
   * `displayedDocuments`: AI results verbatim when present; otherwise the
   * filtered documents, narrowed and re-ranked by the submitted query if any.
   */
  function DisplayedDocuments(st: PageState, docs: seq<Document>, sm: Matcher<string>, dm: Matcher<Document>): (r: seq<Document>)
    ensures st.aiSearchResults.Some? ==> r == st.aiSearchResults.value
    ensures st.aiSearchResults.None? && st.submittedSearchQuery == "" ==>
      && IsSubsequence(r, docs)
      && forall d :: d in r <==> d in docs && PassesAll(d, st.activeFilters, sm)
    ensures st.aiSearchResults.None? && st.submittedSearchQuery == "" && !HasActiveFilters(st.activeFilters) ==> r == docs
    ensures st.aiSearchResults.None? && DrawsFromCandidates(dm) ==>
      forall d :: d in r ==> d in docs && PassesAll(d, st.activeFilters, sm)
  {
    if st.aiSearchResults.Some? then st.aiSearchResults.value
    else
      var filtered := ApplyCategoryFilters(docs, st.activeFilters, sm);
      if st.submittedSearchQuery != "" then dm(DocumentSearchOptions, st.submittedSearchQuery, filtered)
      else filtered
  }

  /** A document lacking a field, or holding it empty, is hidden by any selection in that category. */
  lemma MissingFieldFailsActiveCategory(st: PageState, docs: seq<Document>, sm: Matcher<string>, dm: Matcher<Document>,
                                        d: Document, c: Category)
    requires st.aiSearchResults.None?
    requires DrawsFromCandidates(dm)
    requires |st.activeFilters.Get(c)| > 0 && !Truthy(FieldOf(d, c))
    ensures d !in DisplayedDocuments(st, docs, sm, dm)
  {
    PassesAllMeansEveryCategory(d, st.activeFilters, sm);
  }

  /**
   * With no query, a document whose value in every active category is one of
   * the selected values, and not blank, is shown, provided Fuse finds exact
   * matches.
   */
  lemma ExactSelectionIsShown(st: PageState, docs: seq<Document>, sm: Matcher<string>, dm: Matcher<Document>, d: Document)
    requires st.aiSearchResults.None? && st.submittedSearchQuery == ""
    requires FindsExactValues(sm)
    requires d in docs
    requires forall c :: |st.activeFilters.Get(c)| == 0 ||
               (Truthy(FieldOf(d, c)) && !IsBlank(FieldOf(d, c).value) && FieldOf(d, c).value in st.activeFilters.Get(c))
    ensures d in DisplayedDocuments(st, docs, sm, dm)
  {
    forall c ensures PassesCategory(d, c, st.activeFilters.Get(c), sm) {
      if |st.activeFilters.Get(c)| > 0 {
        var v := FieldOf(d, c).value;
        assert |sm(FilterMatchOptions, v, st.activeFilters.Get(c))| > 0;
      }
    }
    PassesAllMeansEveryCategory(d, st.activeFilters, sm);
  }

  /** Only the selections of `c`, every other category left unconstrained. */
  function OnlyCategory(s: Selections, c: Category): Selections {
    NoSelections.With(c, s.Get(c))
  }

  /**
   * AND across categories: a document survives the filters exactly when it
   * survives each category's selection applied on its own.
   */
  lemma FiltersAreIntersectionOfCategories(docs: seq<Document>, s: Selections, m: Matcher<string>, d: Document)
    ensures d in ApplyCategoryFilters(docs, s, m) <==> forall c :: d in ApplyCategoryFilters(docs, OnlyCategory(s, c), m)
  {
    PassesAllMeansEveryCategory(d, s, m);
    forall c
      ensures d in ApplyCategoryFilters(docs, OnlyCategory(s, c), m) <==> d in docs && PassesCategory(d, c, s.Get(c), m)
    {
      var only := OnlyCategory(s, c);
      PassesAllMeansEveryCategory(d, only, m);
      forall c' | c' != c ensures PassesCategory(d, c', only.Get(c'), m) {
        assert only.Get(c') == [];
      }
    }
    if d !in docs {
      // The right-hand side fails already at the first category.
      assert d !in ApplyCategoryFilters(docs, OnlyCategory(s, Owner), m);
    }
  }

  /** A category with nothing selected constrains nothing: only the other three categories decide. */
  lemma EmptySelectionImposesNothing(docs: seq<Document>, s: Selections, m: Matcher<string>, c: Category, d: Document)
    requires |s.Get(c)| == 0
    ensures d in ApplyCategoryFilters(docs, s, m) <==>
      d in docs && forall c' :: c' != c ==> PassesCategory(d, c', s.Get(c'), m)
  {
    PassesAllMeansEveryCategory(d, s, m);
  }

  /** Typing in the search box alone changes nothing on screen: the list follows only the submitted query. */
  lemma TypingDoesNotChangeDisplay(st: PageState, q: string, docs: seq<Document>, sm: Matcher<string>, dm: Matcher<Document>)
    ensures DisplayedDocuments(SetSearchQuery(st, q), docs, sm, dm) == DisplayedDocuments(st, docs, sm, dm)
  {
  }

  /** After clearing, every document is shown in its original order. */
  lemma ClearFiltersShowsEverything(st: PageState, docs: seq<Document>, sm: Matcher<string>, dm: Matcher<Document>)
    ensures DisplayedDocuments(ClearFilters(st), docs, sm, dm) == docs
  {
  }

  /** After an AI search, the display is exactly the AI results, whatever the documents now hold. */
  lemma AiSearchIsShownVerbatim(st: PageState, docs: seq<Document>, dm: Matcher<Document>, searchString: string,
                                shown: seq<Document>, sm: Matcher<string>)
    ensures var after := HandleAiSearch(st, docs, dm, searchString);
      DisplayedDocuments(after, shown, sm, dm) == dm(AiSearchOptions, searchString, docs)
  {
  }
}
