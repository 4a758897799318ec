/**
 * The filter panel of the home screen: the category chips, the search box and
 * the "Clear All" button, each of which replaces the store's filter record,
 * and the "Active Filters" banner shown while some criterion is set.
 */
module ExpenseFilter {
  import opened Types
  import opened Collections
  import opened ExpenseViews

  /** The chips of the panel: "All" followed by the category list. */
  const FilterCategories: seq<string> := ["All"] + CATEGORIES

  /** Every chip is a distinct, non-empty label, and "All" is the first. */
  lemma FilterCategoriesSpec()
    ensures |FilterCategories| == |CATEGORIES| + 1 && FilterCategories[0] == "All"
    ensures forall c :: c in FilterCategories ==> c != ""
    ensures forall i, j :: 0 <= i < j < |FilterCategories| ==> FilterCategories[i] != FilterCategories[j]
  {
  }

  /** `handleCategoryChange`: the "All" chip removes the category criterion, any other chip sets it. */
  function HandleCategoryChange(filters: ExpenseFilters, category: string): (r: ExpenseFilters)
    ensures category == "All" ==> r.category.None?
    ensures category != "All" ==> r.category == Some(category)
    ensures r.filterType == filters.filterType && r.dateRange == filters.dateRange
    ensures r.searchText == filters.searchText && r.amountRange == filters.amountRange
  {
    filters.(category := if category == "All" then None else Some(category))
  }

  /** `handleSearchChange`: an empty text removes the search criterion; other fields are kept. */
  function HandleSearchChange(filters: ExpenseFilters, text: string): (r: ExpenseFilters)
    ensures text == "" ==> r.searchText.None?
    ensures text != "" ==> r.searchText == Some(text)
    ensures r.filterType == filters.filterType && r.category == filters.category
    ensures r.dateRange == filters.dateRange && r.amountRange == filters.amountRange
  {
    filters.(searchText := if text == "" then None else Some(text))
  }

  /** The value shown in the search box: the search text, or "" when there is none. */
  function SearchBoxValue(filters: ExpenseFilters): (r: string)
    ensures r == "" <==> !Truthy(filters.searchText)
  {
    if filters.searchText.Some? then filters.searchText.value else ""
  }

  /** Typing a text shows that text in the box. */
  lemma SearchBoxShowsTyped(filters: ExpenseFilters, text: string)
    ensures SearchBoxValue(HandleSearchChange(filters, text)) == text
  {
  }

  /** Re-entering what the box shows changes nothing, unless the stored text is the empty string, which is dropped. */
  lemma SearchBoxRetypeIsStable(filters: ExpenseFilters)
    ensures HandleSearchChange(filters, SearchBoxValue(filters)) == filters <==> filters.searchText != Some("")
  {
    if filters.searchText == Some("") {
      assert HandleSearchChange(filters, SearchBoxValue(filters)).searchText == None;
    }
  }

  /**
   * `clearFilters`: the record becomes type "all" with no category and no
   * search text. The date and amount ranges are not carried over either,
   * since the new record is written without them.
   */
  function ClearFilters(): (r: ExpenseFilters)
    ensures r.filterType == AllType
    ensures r.category.None? && r.searchText.None?
    ensures r.dateRange.None? && r.amountRange.None?
  {
    ExpenseFilters(AllType, None, None, None, None)
  }

  /** `hasActiveFilters`: a category, a date range or a search text is set. */
  predicate HasActiveFilters(filters: ExpenseFilters)
  {
    Truthy(filters.category) || filters.dateRange.Some? || Truthy(filters.searchText)
  }

  /** After "Clear All" the banner disappears and the list shows every expense. */
  lemma ClearFiltersShowsEverything(es: seq<Expense>)
    ensures !HasActiveFilters(ClearFilters())
    ensures multiset(FilteredExpenses(es, ClearFilters())) == multiset(es)
  {
    NoCriteriaShowsEverything(es, ClearFilters());
  }

  /** With the banner hidden and no amount range, no expense is hidden from the list. */
  lemma InactiveFiltersShowEverything(es: seq<Expense>, filters: ExpenseFilters)
    requires !HasActiveFilters(filters) && filters.amountRange.None?
    ensures multiset(FilteredExpenses(es, filters)) == multiset(es)
  {
    NoCriteriaShowsEverything(es, filters);
  }

  /** An amount range alone hides expenses while the banner reports no active filter. */
  lemma AmountRangeIsNotReported(e: Expense)
    requires e.amount > 10.0
    ensures var f := NoFilters.(amountRange := Some(AmountRange(0.0, 10.0)));
      !HasActiveFilters(f) && FilteredExpenses([e], f) == []
  {
    var f := NoFilters.(amountRange := Some(AmountRange(0.0, 10.0)));
    ApplyFiltersSingle(e, f);
    assert ApplyFilters([e], f) == [];
  }

  /** A chip is highlighted when it names the category criterion, and "All" when there is none. */
  predicate ChipHighlighted(filters: ExpenseFilters, chip: string)
  {
    filters.category == Some(chip) || (chip == "All" && !Truthy(filters.category))
  }

  /**
   * When the category criterion is absent or one of the chips, exactly one
   * chip is highlighted: the one `selectedCategory` reports.
   */
  lemma OneChipHighlighted(filters: ExpenseFilters)
    requires !Truthy(filters.category) || filters.category.value in FilterCategories
    ensures SelectedCategory(filters) in FilterCategories
    ensures forall chip :: chip in FilterCategories ==> (ChipHighlighted(filters, chip) <==> chip == SelectedCategory(filters))
  {
  }

  /** A category criterion that is not a chip leaves every chip unhighlighted. */
  lemma NoChipForOtherCategory(filters: ExpenseFilters)
    requires Truthy(filters.category) && filters.category.value !in FilterCategories
    ensures forall chip :: chip in FilterCategories ==> !ChipHighlighted(filters, chip)
  {
  }

  /** Pressing a chip highlights that chip and no other. */
  lemma PressedChipIsHighlighted(filters: ExpenseFilters, chip: string)
    requires chip in FilterCategories
    ensures forall other :: other in FilterCategories ==>
      (ChipHighlighted(HandleCategoryChange(filters, chip), other) <==> other == chip)
  {
    FilterCategoriesSpec();
    OneChipHighlighted(HandleCategoryChange(filters, chip));
  }

  lemma PressedChipMatches(filters: ExpenseFilters, chip: string, e: Expense)
    requires chip in CATEGORIES
    ensures Matches(HandleCategoryChange(filters, chip), e) <==> Matches(filters.(category := None), e) && e.category == chip
  {
  }

  /** Pressing a chip narrows the list to that category, keeping the other criteria. */
  lemma PressedChipFilters(es: seq<Expense>, filters: ExpenseFilters, chip: string)
    requires chip in CATEGORIES
    ensures forall e :: e in FilteredExpenses(es, HandleCategoryChange(filters, chip)) <==>
      e in FilteredExpenses(es, filters.(category := None)) && e.category == chip
  {
    var pressed, cleared := HandleCategoryChange(filters, chip), filters.(category := None);
    FilteredMembers(es, pressed);
    FilteredMembers(es, cleared);
    forall e ensures e in FilteredExpenses(es, pressed) <==> e in FilteredExpenses(es, cleared) && e.category == chip {
      PressedChipMatches(filters, chip, e);
    }
  }
}
