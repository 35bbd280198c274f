/**
 * The filter sidebar: the active-filter count and badge, one section per
 * category with its own option sub-search and checkboxes, and the AI search
 * box with its busy flag.
 */
module FilterSidebar {
  import opened Wrappers
  import opened Text
  import opened Seqs
  import opened Records
  import opened Fuzzy
  import opened DocumentsPage
  import opened IntelligentSearch

  /** `activeFilterCount`: the summed sizes of the four selections. */
  function ActiveFilterCount(s: Selections): (n: nat)
    ensures n == 0 <==> !HasActiveFilters(s)
    ensures ValidSelections(s) ==>
      n == |Elements(s.owner)| + |Elements(s.docType)| + |Elements(s.company)| + |Elements(s.country)|
  {
    SelectionSizes(s);
    |s.owner| + |s.docType| + |s.company| + |s.country|
  }

  lemma SelectionSizes(s: Selections)
    ensures ValidSelections(s) ==>
      && |Elements(s.owner)| == |s.owner| && |Elements(s.docType)| == |s.docType|
      && |Elements(s.company)| == |s.company| && |Elements(s.country)| == |s.country|
  {
    if ValidSelections(s) {
      NoDupSize(s.owner);
      NoDupSize(s.docType);
      NoDupSize(s.company);
      NoDupSize(s.country);
    }
  }

  /** The "Clear all (n)" link and the mobile badge are both shown exactly when this holds. */
  function ShowsActiveFilterCount(s: Selections): (b: bool)
    ensures b <==> exists c :: |s.Get(c)| > 0
  {
    HasActiveFiltersMeansSomeCategory(s);
    ActiveFilterCount(s) > 0
  }

  /** A checkbox click moves the count by one: up when selecting, down when deselecting. */
  lemma ToggleMovesCountByOne(st: PageState, c: Category, value: string)
    requires ValidSelections(st.activeFilters)
    ensures var after := HandleFilterChange(st, c, value).activeFilters;
      ActiveFilterCount(after) == ActiveFilterCount(st.activeFilters) + (if value in st.activeFilters.Get(c) then -1 else 1)
  {
    var before := st.activeFilters;
    var after := HandleFilterChange(st, c, value).activeFilters;
    assert after.Get(c) == Toggle(before.Get(c), value);
    assert NoDup(before.Get(c));
    match c
    case Owner =>
    case Type =>
    case Company =>
    case Country =>
  }

  /** After "Clear all" the count is zero and neither the link nor the badge shows. */
  lemma ClearHidesCount(st: PageState)
    ensures ActiveFilterCount(ClearFilters(st).activeFilters) == 0
    ensures !ShowsActiveFilterCount(ClearFilters(st).activeFilters)
  {
  }

  /** `filteredOptions`: every option for an empty sub-search, otherwise the moderate Fuse hits. */
  function FilteredOptions(options: seq<string>, search: string, m: Matcher<string>): (r: seq<string>)
    ensures search == "" ==> r == options
    ensures DrawsFromCandidates(m) ==> forall x :: x in r ==> x in options
  {
    if search == "" then options
    else
      var hits := m(OptionSearchOptions, search, options);
      hits
  }

  /** One checkbox: its label, whether it is ticked, and the `onFilterChange` arguments a click sends. */
  datatype CheckboxRow = CheckboxRow(option: string, checked: bool, onChange: (Category, string))

  datatype SectionView = Hidden | NoMatches | Rows(rows: seq<CheckboxRow>)

  /**
   * `FilterCategorySection`: nothing for an empty option list, "No matches
   * found." for an empty sub-search result, otherwise one checkbox per
   * filtered option, ticked exactly when the option is selected.
   */
  function RenderSection(category: Category, options: seq<string>, activeOptions: seq<string>,
                         search: string, m: Matcher<string>): (v: SectionView)
    ensures v.Hidden? <==> |options| == 0
    ensures v.NoMatches? <==> |options| > 0 && |FilteredOptions(options, search, m)| == 0
    ensures v.Rows? ==> var shown := FilteredOptions(options, search, m);
      && |v.rows| == |shown|
      && forall i :: 0 <= i < |shown| ==>
        && v.rows[i].option == shown[i]
        && (v.rows[i].checked <==> shown[i] in activeOptions)
        && v.rows[i].onChange == (category, shown[i])
  {
    if |options| == 0 then Hidden
    else
      var shown := FilteredOptions(options, search, m);
      if |shown| == 0 then NoMatches
      else Rows(seq(|shown|, i requires 0 <= i < |shown| => CheckboxRow(shown[i], shown[i] in activeOptions, (category, shown[i]))))
  }

  /**
   * Clicking a checkbox and letting the page handle the change flips that
   * checkbox and leaves every other checkbox of the section as it was.
   */
  lemma ClickFlipsOnlyThatCheckbox(st: PageState, category: Category, options: seq<string>,
                                   search: string, m: Matcher<string>, i: nat)
    requires RenderSection(category, options, st.activeFilters.Get(category), search, m).Rows?
    requires i < |RenderSection(category, options, st.activeFilters.Get(category), search, m).rows|
    ensures var before := RenderSection(category, options, st.activeFilters.Get(category), search, m);
      var click := before.rows[i].onChange;
      var after := HandleFilterChange(st, click.0, click.1);
      var rerendered := RenderSection(category, options, after.activeFilters.Get(category), search, m);
      && rerendered.Rows?
      && rerendered.rows[i].checked == !before.rows[i].checked
      && forall j :: 0 <= j < |before.rows| && before.rows[j].option != before.rows[i].option ==>
           rerendered.rows[j].checked == before.rows[j].checked
  {
  }

  // ---------------------------------------------------------------------------
  // The AI search box
  // ---------------------------------------------------------------------------

  datatype AgentState = AgentState(query: string, isSearching: bool)

  /** What one submission leaves behind: the state, the output handed to `onAiSearch`, and whether the failure notice showed. */
  datatype AgentRun = AgentRun(state: AgentState, delivered: Option<SearchOutput>, failureNotice: bool)

  /** The submit button's `disabled`. */
  predicate SubmitDisabled(st: AgentState) {
    st.isSearching || Trim(st.query) == ""
  }

  /** The synchronous start of `handleSearch`: a blank query returns early, otherwise the box turns busy. */
  function BeginSearch(st: AgentState): (r: Option<AgentState>)
    ensures r.None? <==> IsBlank(st.query)
    ensures r.Some? ==> r.value.isSearching && r.value.query == st.query
  {
    TrimEmptyIffBlank(st.query);
    if Trim(st.query) == "" then None else Some(st.(isSearching := true))
  }

  /** The end of `handleSearch` once the call settles: output delivered or notice shown, and never busy afterwards. */
  function FinishSearch(pending: AgentState, response: Result<SearchOutput, string>): (run: AgentRun)
    ensures !run.state.isSearching && run.state.query == pending.query
    ensures run.delivered.Some? <==> response.Success?
    ensures run.delivered.Some? ==> response == Success(run.delivered.value)
    ensures run.failureNotice <==> response.Failure?
  {
    var settled := pending.(isSearching := false);
    match response
    case Success(out) => AgentRun(settled, Some(out), false)
    case Failure(_) => AgentRun(settled, None, true)
  }

  /**
   * `handleSearch` as a whole; `search` stands for the awaited
   * `intelligentSearch({ query })` call.
   */
  function HandleSearch(st: AgentState, search: string -> Result<SearchOutput, string>): (run: AgentRun)
    ensures IsBlank(st.query) ==> run == AgentRun(st, None, false)
    ensures !IsBlank(st.query) ==> !run.state.isSearching && run.state.query == st.query
    ensures !IsBlank(st.query) ==> (run.delivered.Some? <==> search(st.query).Success?)
    ensures !IsBlank(st.query) ==> (run.failureNotice <==> search(st.query).Failure?)
    ensures run.delivered.Some? ==> search(st.query) == Success(run.delivered.value)
  {
    match BeginSearch(st)
    case None => AgentRun(st, None, false)
    case Some(pending) => FinishSearch(pending, search(pending.query))
  }

  /** A blank query never reaches the search call: any two search functions give the same run. */
  lemma BlankQueryNeverSearches(st: AgentState, search1: string -> Result<SearchOutput, string>,
                                search2: string -> Result<SearchOutput, string>)
    requires IsBlank(st.query)
    ensures HandleSearch(st, search1) == HandleSearch(st, search2)
  {
  }
}
