/**
 * The empty-state panel's choice of icon, title and description from its
 * props: three ordered if/return chains.
 */
module NoSearchResult {
  import opened Wrappers

  datatype Icon = SearchIcon | TagIcon | CalendarIcon | FolderSearchIcon

  /** The props the rules read; an absent prop is `None`. */
  datatype Props = Props(
    hasActiveFilters: Option<bool>,
    filterTypes: Option<seq<string>>,
    title: Option<string>,
    description: Option<string>)

  /** `hasActiveFilters = false`: the destructuring default. */
  function ActiveFilters(props: Props): bool
  {
    if props.hasActiveFilters.Some? then props.hasActiveFilters.value else false
  }

  /** `filterTypes = []`. */
  function FilterTypes(props: Props): seq<string>
  {
    if props.filterTypes.Some? then props.filterTypes.value else []
  }

  /** A string prop is truthy when present and non-empty. */
  predicate Truthy(s: Option<string>)
  {
    s.Some? && s.value != ""
  }

  const SearchFilter: string := "search"
  const TagsFilter: string := "tags"
  const DateRangeFilter: string := "dateRange"

  function GetIcon(props: Props): Icon
  {
    var types := FilterTypes(props);
    if SearchFilter in types then SearchIcon
    else if TagsFilter in types then TagIcon
    else if DateRangeFilter in types then CalendarIcon
    else FolderSearchIcon
  }

  const NoResultsTitle: string := "NO RESULTS FOUND"
  const NoProjectsTitle: string := "NO PROJECTS YET"

  function GetTitle(props: Props): string
  {
    if Truthy(props.title) then props.title.value
    else if ActiveFilters(props) then NoResultsTitle
    else NoProjectsTitle
  }

  const SearchAndTagsText: string := "No projects match your search term and tags. Try adjusting your filters."
  const SearchAndDateText: string := "No projects match your search term and date range. Try adjusting your filters."
  const TagsAndDateText: string := "No projects match your tags and date range. Try adjusting your filters."
  const SearchText: string := "No projects match your search term. Try a different keyword."
  const TagsText: string := "No projects match your selected tags. Try different tags."
  const DateText: string := "No projects found in the selected date range. Try a different period."
  const OtherFiltersText: string := "No projects match your current filters. Try adjusting your search criteria."
  const NoProjectsText: string := "You haven't created any projects yet. Create your first project to get started."

  function GetDescription(props: Props): string
  {
    var types := FilterTypes(props);
    if Truthy(props.description) then props.description.value
    else if ActiveFilters(props) then
      if SearchFilter in types && TagsFilter in types then SearchAndTagsText
      else if SearchFilter in types && DateRangeFilter in types then SearchAndDateText
      else if TagsFilter in types && DateRangeFilter in types then TagsAndDateText
      else if SearchFilter in types then SearchText
      else if TagsFilter in types then TagsText
      else if DateRangeFilter in types then DateText
      else OtherFiltersText
    else NoProjectsText
  }

  /**
   * A priority table read top to bottom: the first row all of whose filter
   * types are present decides.
   */
  function FirstMatch<T>(rows: seq<(set<string>, T)>, types: seq<string>, fallback: T): T
  {
    if rows == [] then fallback
    else if Covers(rows[0].0, types) then rows[0].1
    else FirstMatch(rows[1..], types, fallback)
  }

  /** The description rules as a table: pairs of filters before single ones. */
  const DescriptionTable: seq<(set<string>, string)> := [
    ({SearchFilter, TagsFilter}, SearchAndTagsText),
    ({SearchFilter, DateRangeFilter}, SearchAndDateText),
    ({TagsFilter, DateRangeFilter}, TagsAndDateText),
    ({SearchFilter}, SearchText),
    ({TagsFilter}, TagsText),
    ({DateRangeFilter}, DateText)
  ]

  const IconTable: seq<(set<string>, Icon)> := [
    ({SearchFilter}, SearchIcon),
    ({TagsFilter}, TagIcon),
    ({DateRangeFilter}, CalendarIcon)
  ]

  /** A table row with the filter types `keys` applies to `types`. */
  predicate Covers(keys: set<string>, types: seq<string>)
  {
    forall f :: f in keys ==> f in types
  }

  lemma CoversPair(a: string, b: string, types: seq<string>)
    ensures Covers({a, b}, types) <==> a in types && b in types
  {
  }

  lemma CoversOne(a: string, types: seq<string>)
    ensures Covers({a}, types) <==> a in types
  {
  }

  /** The icon follows the priority search, tags, date range, default. */
  lemma IconFollowsTable(props: Props)
    ensures GetIcon(props) == FirstMatch(IconTable, FilterTypes(props), FolderSearchIcon)
  {
    var types := FilterTypes(props);
    CoversOne(SearchFilter, types);
    CoversOne(TagsFilter, types);
    CoversOne(DateRangeFilter, types);
    var r1 := IconTable[1..];
    var r2 := r1[1..];
    assert r2[1..] == [];
    assert FirstMatch(r2, types, FolderSearchIcon) == if DateRangeFilter in types then CalendarIcon else FolderSearchIcon;
    assert FirstMatch(r1, types, FolderSearchIcon) ==
      if TagsFilter in types then TagIcon else FirstMatch(r2, types, FolderSearchIcon);
  }

  /** With active filters and no description, the description follows the table. */
  lemma DescriptionFollowsTable(props: Props)
    requires !Truthy(props.description) && ActiveFilters(props)
    ensures GetDescription(props) == FirstMatch(DescriptionTable, FilterTypes(props), OtherFiltersText)
  {
    var types := FilterTypes(props);
    CoversPair(SearchFilter, TagsFilter, types);
    CoversPair(SearchFilter, DateRangeFilter, types);
    CoversPair(TagsFilter, DateRangeFilter, types);
    CoversOne(SearchFilter, types);
    CoversOne(TagsFilter, types);
    CoversOne(DateRangeFilter, types);
    var r1 := DescriptionTable[1..];
    var r2 := r1[1..];
    var r3 := r2[1..];
    var r4 := r3[1..];
    var r5 := r4[1..];
    assert r5[1..] == [];
    assert FirstMatch(r5, types, OtherFiltersText) == if DateRangeFilter in types then DateText else OtherFiltersText;
    assert FirstMatch(r4, types, OtherFiltersText) ==
      if TagsFilter in types then TagsText else FirstMatch(r5, types, OtherFiltersText);
    assert FirstMatch(r3, types, OtherFiltersText) ==
      if SearchFilter in types then SearchText else FirstMatch(r4, types, OtherFiltersText);
    assert FirstMatch(r2, types, OtherFiltersText) ==
      if TagsFilter in types && DateRangeFilter in types then TagsAndDateText else FirstMatch(r3, types, OtherFiltersText);
    assert FirstMatch(r1, types, OtherFiltersText) ==
      if SearchFilter in types && DateRangeFilter in types then SearchAndDateText else FirstMatch(r2, types, OtherFiltersText);
  }

  /** A truthy title wins; otherwise "NO RESULTS FOUND" exactly when filters are active. */
  lemma TitleRules(props: Props)
    ensures Truthy(props.title) ==> GetTitle(props) == props.title.value
    ensures !Truthy(props.title) ==>
      (GetTitle(props) == NoResultsTitle <==> ActiveFilters(props))
      && (GetTitle(props) == NoProjectsTitle <==> !ActiveFilters(props))
  {
  }

  /** An empty title or description falls through to the generated text. */
  lemma EmptyStringsFallThrough(props: Props)
    ensures props.title == Some("") ==> GetTitle(props) == GetTitle(props.(title := None))
    ensures props.description == Some("") ==> GetDescription(props) == GetDescription(props.(description := None))
  {
  }

  /** Without active filters the filter types are ignored. */
  lemma InactiveIgnoresFilterTypes(props: Props, otherTypes: Option<seq<string>>)
    requires !Truthy(props.description) && !ActiveFilters(props)
    ensures GetDescription(props) == NoProjectsText
    ensures GetDescription(props.(filterTypes := otherTypes)) == NoProjectsText
  {
  }

  /** All three filter types at once: search with tags wins. */
  lemma SearchAndTagsWin(props: Props)
    requires !Truthy(props.description) && ActiveFilters(props)
    requires SearchFilter in FilterTypes(props) && TagsFilter in FilterTypes(props)
    ensures GetDescription(props) == SearchAndTagsText
  {
  }

  /** The icon reads only the filter types: not the active flag, the title or the description. */
  lemma IconIgnoresOtherProps(props: Props, active: Option<bool>, title: Option<string>, description: Option<string>)
    ensures GetIcon(props) == GetIcon(props.(hasActiveFilters := active, title := title, description := description))
  {
  }

  /** Only which of the three known filter types are present matters, not their order or any other entry. */
  lemma OnlyKnownTypesMatter(props: Props, other: Props)
    requires props.hasActiveFilters == other.hasActiveFilters && props.description == other.description
    requires forall f :: f in {SearchFilter, TagsFilter, DateRangeFilter} ==>
      (f in FilterTypes(props) <==> f in FilterTypes(other))
    ensures GetIcon(props) == GetIcon(other)
    ensures GetDescription(props) == GetDescription(other)
  {
  }
}
