/**
 * The views the expense store derives from its collection: the running total,
 * the filtered and date-sorted list, and the selected-category shortcut.
 * All of them are pure functions of the collection and the filter record.
 */
module ExpenseViews {
  import opened Types
  import opened Collections
  import opened Text

  /** The set of ids present in a collection. */
  function Ids(es: seq<Expense>): set<string>
  {
    set e | e in es :: e.id
  }

  lemma IdsAppend(a: seq<Expense>, b: seq<Expense>)
    ensures Ids(a + b) == Ids(a) + Ids(b)
  {
  }

  /** `totalExpenses`: the sum of all amounts, folded from the left as `reduce` does. */
  function TotalExpenses(es: seq<Expense>): real
  {
    if es == [] then 0.0 else TotalExpenses(es[..|es| - 1]) + es[|es| - 1].amount
  }

  /** The total of a concatenation is the sum of the totals. */
  lemma {:induction false} TotalAppend(a: seq<Expense>, b: seq<Expense>)
    ensures TotalExpenses(a + b) == TotalExpenses(a) + TotalExpenses(b)
  {
    if b == [] {
      assert a + b == a;
    } else {
      assert (a + b)[..|a + b| - 1] == a + b[..|b| - 1];
      TotalAppend(a, b[..|b| - 1]);
    }
  }

  // The four criteria of `filteredExpenses`, as closures that `Keep` applies.

  function InCategory(c: string): Expense -> bool
  {
    (e: Expense) => e.category == c
  }

  function InDateRange(r: DateRange): Expense -> bool
  {
    (e: Expense) => r.start <= e.date <= r.end
  }

  /** Case-insensitive search over description and category; `needle` is already lower-cased. */
  function MentionsText(needle: string): Expense -> bool
  {
    (e: Expense) => Includes(ToLower(e.description), needle) || Includes(ToLower(e.category), needle)
  }

  function InAmountRange(r: AmountRange): Expense -> bool
  {
    (e: Expense) => r.min <= e.amount <= r.max
  }

  /**
   * The conjunction of every criterion present in `f`. A category or search
   * text that is absent or empty is not applied (JavaScript truthiness).
   */
  predicate Matches(f: ExpenseFilters, e: Expense)
  {
    && (Truthy(f.category) ==> e.category == f.category.value)
    && (f.dateRange.Some? ==> f.dateRange.value.start <= e.date <= f.dateRange.value.end)
    && (Truthy(f.searchText) ==>
          var needle := ToLower(f.searchText.value);
          Includes(ToLower(e.description), needle) || Includes(ToLower(e.category), needle))
    && (f.amountRange.Some? ==> f.amountRange.value.min <= e.amount <= f.amountRange.value.max)
  }

  function MatchesFilters(f: ExpenseFilters): Expense -> bool
  {
    (e: Expense) => Matches(f, e)
  }

  /** The entries that satisfy every present criterion, in collection order. */
  function Visible(es: seq<Expense>, f: ExpenseFilters): seq<Expense>
  {
    Keep(es, MatchesFilters(f))
  }

  /** The four successive `filter` passes of `filteredExpenses`, each applied only when its field is set. */
  function ApplyFilters(es: seq<Expense>, f: ExpenseFilters): seq<Expense>
  {
    var byCategory := if Truthy(f.category) then Keep(es, InCategory(f.category.value)) else es;
    var byDate := if f.dateRange.Some? then Keep(byCategory, InDateRange(f.dateRange.value)) else byCategory;
    var bySearch :=
      if Truthy(f.searchText) then Keep(byDate, MentionsText(ToLower(f.searchText.value))) else byDate;
    if f.amountRange.Some? then Keep(bySearch, InAmountRange(f.amountRange.value)) else bySearch
  }

  lemma ApplyFiltersAppend(a: seq<Expense>, b: seq<Expense>, f: ExpenseFilters)
    ensures ApplyFilters(a + b, f) == ApplyFilters(a, f) + ApplyFilters(b, f)
  {
    var a1, b1 := a, b;
    if Truthy(f.category) {
      KeepAppend(a, b, InCategory(f.category.value));
      a1, b1 := Keep(a, InCategory(f.category.value)), Keep(b, InCategory(f.category.value));
    }
    var a2, b2 := a1, b1;
    if f.dateRange.Some? {
      KeepAppend(a1, b1, InDateRange(f.dateRange.value));
      a2, b2 := Keep(a1, InDateRange(f.dateRange.value)), Keep(b1, InDateRange(f.dateRange.value));
    }
    var a3, b3 := a2, b2;
    if Truthy(f.searchText) {
      var needle := ToLower(f.searchText.value);
      KeepAppend(a2, b2, MentionsText(needle));
      a3, b3 := Keep(a2, MentionsText(needle)), Keep(b2, MentionsText(needle));
    }
    if f.amountRange.Some? {
      KeepAppend(a3, b3, InAmountRange(f.amountRange.value));
    }
  }

  lemma ApplyFiltersSingle(x: Expense, f: ExpenseFilters)
    ensures ApplyFilters([x], f) == if Matches(f, x) then [x] else []
  {
    if Truthy(f.category) { KeepSingle(x, InCategory(f.category.value)); }
    if f.dateRange.Some? {
      KeepSingle(x, InDateRange(f.dateRange.value));
    }
    if Truthy(f.searchText) {
      KeepSingle(x, MentionsText(ToLower(f.searchText.value)));
    }
    if f.amountRange.Some? {
      KeepSingle(x, InAmountRange(f.amountRange.value));
    }
  }

  /** Applying the criteria one after another is the same as keeping the entries that satisfy all of them. */
  lemma {:induction false} ApplyFiltersIsConjunction(es: seq<Expense>, f: ExpenseFilters)
    ensures ApplyFilters(es, f) == Visible(es, f)
  {
    if es != [] {
      var x, rest := es[0], es[1..];
      assert es == [x] + rest;
      ApplyFiltersAppend([x], rest, f);
      ApplyFiltersSingle(x, f);
      KeepAppend([x], rest, MatchesFilters(f));
      KeepSingle(x, MatchesFilters(f));
      ApplyFiltersIsConjunction(rest, f);
    }
  }

  // Sorting by date, most recent first, stable on ties.

  predicate SortedByDateDesc(s: seq<Expense>)
  {
    forall i, j :: 0 <= i < j < |s| ==> s[i].date >= s[j].date
  }

  function HasDate(d: int): Expense -> bool
  {
    (e: Expense) => e.date == d
  }

  /** The entries dated `d`, in their order in `s`. */
  function OnDate(s: seq<Expense>, d: int): seq<Expense>
  {
    Keep(s, HasDate(d))
  }

  /** Inserts `x` before the first entry strictly older than it, so it stays ahead of its ties. */
  function InsertByDate(x: Expense, s: seq<Expense>): (r: seq<Expense>)
    ensures multiset(r) == multiset(s) + multiset{x}
    ensures forall y :: y in r <==> y == x || y in s
  {
    if s == [] || x.date >= s[0].date then
      [x] + s
    else
      var r := [s[0]] + InsertByDate(x, s[1..]);
      assert s == [s[0]] + s[1..];
      r
  }

  lemma {:induction false} InsertByDateSorted(x: Expense, s: seq<Expense>)
    requires SortedByDateDesc(s)
    ensures SortedByDateDesc(InsertByDate(x, s))
  {
    if s != [] && x.date < s[0].date {
      var t := InsertByDate(x, s[1..]);
      InsertByDateSorted(x, s[1..]);
      var r := [s[0]] + t;
      forall i, j | 0 <= i < j < |r| ensures r[i].date >= r[j].date {
        assert r[j] == t[j - 1];
        if i > 0 {
          assert r[i] == t[i - 1];
        } else if r[j] != x {
          assert r[j] in s[1..];
          var k :| 0 <= k < |s[1..]| && s[1..][k] == r[j];
          assert s[k + 1] == r[j];
        }
      }
    }
  }

  /** `sort((a, b) => b.date - a.date)` as a stable insertion sort. */
  function SortByDateDesc(s: seq<Expense>): (r: seq<Expense>)
    ensures multiset(r) == multiset(s)
    ensures SortedByDateDesc(r)
  {
    if s == [] then []
    else
      assert s == [s[0]] + s[1..];
      InsertByDateSorted(s[0], SortByDateDesc(s[1..]));
      InsertByDate(s[0], SortByDateDesc(s[1..]))
  }

  lemma {:induction false} InsertByDateStable(x: Expense, s: seq<Expense>, d: int)
    ensures OnDate(InsertByDate(x, s), d) == OnDate([x], d) + OnDate(s, d)
  {
    if s == [] || x.date >= s[0].date {
      KeepAppend([x], s, HasDate(d));
    } else {
      var s0, t := s[0], InsertByDate(x, s[1..]);
      assert InsertByDate(x, s) == [s0] + t;
      KeepAppend([s0], t, HasDate(d));
      InsertByDateStable(x, s[1..], d);
      assert s == [s0] + s[1..];
      KeepAppend([s0], s[1..], HasDate(d));
      KeepSingle(s0, HasDate(d));
      KeepSingle(x, HasDate(d));
      assert OnDate([x], d) == [] || OnDate([s0], d) == [];
    }
  }

  /** Entries that share a date keep their relative order through the sort. */
  lemma {:induction false} SortByDateDescStable(s: seq<Expense>, d: int)
    ensures OnDate(SortByDateDesc(s), d) == OnDate(s, d)
  {
    if s != [] {
      InsertByDateStable(s[0], SortByDateDesc(s[1..]), d);
      SortByDateDescStable(s[1..], d);
      assert s == [s[0]] + s[1..];
      KeepAppend([s[0]], s[1..], HasDate(d));
    }
  }

  /** `filteredExpenses`. */
  function FilteredExpenses(es: seq<Expense>, f: ExpenseFilters): seq<Expense>
  {
    SortByDateDesc(ApplyFilters(es, f))
  }

  /** An entry is in the view iff it is in the collection and matches the filters. */
  lemma FilteredMembers(es: seq<Expense>, f: ExpenseFilters)
    ensures forall e :: e in FilteredExpenses(es, f) <==> e in es && Matches(f, e)
  {
    ApplyFiltersIsConjunction(es, f);
    KeepMembers(es, MatchesFilters(f));
    forall e ensures e in FilteredExpenses(es, f) <==> e in Visible(es, f) {
      assert e in FilteredExpenses(es, f) <==> e in multiset(FilteredExpenses(es, f));
    }
  }

  /**
   * An entry is visible iff it is in the collection and meets every present
   * criterion; the view is a permutation of the matching entries, sorted by
   * date with the most recent first, and entries of equal date keep their
   * collection order.
   */
  lemma FilteredExpensesSpec(es: seq<Expense>, f: ExpenseFilters)
    ensures forall e :: e in FilteredExpenses(es, f) <==>
      && e in es
      && (Truthy(f.category) ==> e.category == f.category.value)
      && (f.dateRange.Some? ==> f.dateRange.value.start <= e.date <= f.dateRange.value.end)
      && (Truthy(f.searchText) ==>
            Includes(ToLower(e.description), ToLower(f.searchText.value))
            || Includes(ToLower(e.category), ToLower(f.searchText.value)))
      && (f.amountRange.Some? ==> f.amountRange.value.min <= e.amount <= f.amountRange.value.max)
    ensures multiset(FilteredExpenses(es, f)) == multiset(Visible(es, f))
    ensures SortedByDateDesc(FilteredExpenses(es, f))
    ensures forall d :: OnDate(FilteredExpenses(es, f), d) == OnDate(Visible(es, f), d)
  {
    ApplyFiltersIsConjunction(es, f);
    FilteredMembers(es, f);
    var v := Visible(es, f);
    forall d ensures OnDate(FilteredExpenses(es, f), d) == OnDate(v, d) {
      SortByDateDescStable(v, d);
    }
  }

  /** Without any present criterion the view holds the whole collection. */
  lemma NoCriteriaShowsEverything(es: seq<Expense>, f: ExpenseFilters)
    requires !Truthy(f.category) && f.dateRange.None? && !Truthy(f.searchText) && f.amountRange.None?
    ensures multiset(FilteredExpenses(es, f)) == multiset(es)
  {
    FilteredExpensesSpec(es, f);
    KeepAll(es, MatchesFilters(f));
  }

  /** `setFilter`: "All" clears the category, any other name selects it. */
  function SetFilter(category: string): (r: ExpenseFilters)
    ensures r.dateRange.None? && r.searchText.None? && r.amountRange.None?
    ensures category == "All" <==> r.category.None?
    ensures r.filterType == AllType <==> category == "All"
    ensures category != "All" ==> r.filterType == CategoryType && r.category == Some(category)
  {
    ExpenseFilters(
      if category == "All" then AllType else CategoryType,
      if category == "All" then None else Some(category),
      None, None, None)
  }

  /** `selectedCategory`: the category filter, or "All" when it is absent or empty. */
  function SelectedCategory(f: ExpenseFilters): (r: string)
    ensures r != ""
    ensures Truthy(f.category) ==> r == f.category.value
    ensures !Truthy(f.category) ==> r == "All"
  {
    if Truthy(f.category) then f.category.value else "All"
  }

  /** `setFilter` followed by `selectedCategory` gives back any non-empty name. */
  lemma SelectedCategoryRoundTrip(category: string)
    requires category != ""
    ensures SelectedCategory(SetFilter(category)) == category
  {
  }
}
