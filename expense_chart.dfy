/**
 * The category chart of the home screen: per-category totals over the whole
 * collection, kept in a dictionary whose keys remember their insertion
 * order, the legend and slice records built from them, the colour lookup and
 * the selected-slice toggle.
 */
module ExpenseChart {
  import opened Types
  import opened Collections
  import opened ExpenseViews

  const CategoryColors: map<string, string> := map[
    "Food" := "#FF6384",
    "Transport" := "#36A2EB",
    "Entertainment" := "#FFCE56",
    "Bills" := "#4BC0C0",
    "Shopping" := "#9966FF",
    "Health" := "#FF9F40",
    "Other" := "#C9CBCF"]

  const FallbackColor: string := "#ccc"

  /** A category of the list gets its fixed colour; any other name gets the fallback. */
  function ColorOf(category: string): (r: string)
    ensures category in CATEGORIES ==> r == CategoryColors[category]
    ensures r == FallbackColor <==> category !in CATEGORIES
  {
    if category in CategoryColors then CategoryColors[category] else FallbackColor
  }

  /** The sum of the amounts of the entries of one category. */
  function CategoryTotal(es: seq<Expense>, category: string): real
  {
    TotalExpenses(Keep(es, InCategory(category)))
  }

  lemma CategoryTotalStep(es: seq<Expense>, e: Expense, category: string)
    ensures CategoryTotal(es + [e], category)
         == CategoryTotal(es, category) + (if e.category == category then e.amount else 0.0)
  {
    KeepAppend(es, [e], InCategory(category));
    KeepSingle(e, InCategory(category));
    TotalAppend(Keep(es, InCategory(category)), Keep([e], InCategory(category)));
    assert [e][..0] == [];
  }

  /** Some entry of `es` has the category. */
  predicate HasCategory(es: seq<Expense>, category: string)
  {
    exists i :: 0 <= i < |es| && es[i].category == category
  }

  /** The categories of `es` in order of first appearance: the key order of the totals dictionary. */
  function FirstAppearance(es: seq<Expense>): seq<string>
  {
    if es == [] then []
    else
      var prev := FirstAppearance(es[..|es| - 1]);
      var c := es[|es| - 1].category;
      if c in prev then prev else prev + [c]
  }

  /** The keys are exactly the categories present, each listed once. */
  lemma {:induction false} FirstAppearanceSpec(es: seq<Expense>)
    ensures forall c :: c in FirstAppearance(es) <==> HasCategory(es, c)
    ensures forall i, j :: 0 <= i < j < |FirstAppearance(es)| ==> FirstAppearance(es)[i] != FirstAppearance(es)[j]
  {
    if es != [] {
      var n := |es| - 1;
      FirstAppearanceSpec(es[..n]);
      forall c ensures HasCategory(es, c) <==> HasCategory(es[..n], c) || es[n].category == c {
        if HasCategory(es, c) {
          var i :| 0 <= i < |es| && es[i].category == c;
          if i < n {
            assert es[..n][i] == es[i];
          }
        }
        if HasCategory(es[..n], c) {
          var i :| 0 <= i < n && es[..n][i].category == c;
          assert es[i] == es[..n][i];
        }
      }
    }
  }

  /** The index of the first entry of a category, or |es| when there is none. */
  function FirstIndex(es: seq<Expense>, category: string): (k: nat)
    ensures k <= |es|
    ensures k < |es| ==> es[k].category == category
    ensures forall i :: 0 <= i < k ==> es[i].category != category
  {
    if es == [] then 0
    else if es[0].category == category then 0
    else 1 + FirstIndex(es[1..], category)
  }

  lemma FirstIndexPrefix(es: seq<Expense>, n: nat, category: string)
    requires n <= |es|
    requires FirstIndex(es, category) < n
    ensures FirstIndex(es[..n], category) == FirstIndex(es, category)
  {
    var k := FirstIndex(es, category);
    var k' := FirstIndex(es[..n], category);
    assert es[..n][k] == es[k];
  }

  /** Legend keys are listed in the order in which their categories first occur in the collection. */
  lemma {:induction false} FirstAppearanceOrder(es: seq<Expense>, i: nat, j: nat)
    requires i < j < |FirstAppearance(es)|
    ensures FirstIndex(es, FirstAppearance(es)[i]) < FirstIndex(es, FirstAppearance(es)[j]) < |es|
  {
    var n := |es| - 1;
    var prev := FirstAppearance(es[..n]);
    var c := es[n].category;
    var r := FirstAppearance(es);
    var ci, cj := r[i], r[j];
    FirstAppearanceSpec(es[..n]);
    assert forall k :: 0 <= k < n ==> es[..n][k] == es[k];
    if j < |prev| {
      FirstAppearanceOrder(es[..n], i, j);
      FirstIndexPrefix(es, n, ci);
      FirstIndexPrefix(es, n, cj);
    } else {
      // cj is the last entry's category, seen for the first time
      assert cj == c && c !in prev;
      assert ci in prev;
      assert HasCategory(es[..n], ci);
      var ki := FirstIndex(es[..n], ci);
      assert es[ki] == es[..n][ki];
      FirstIndexPrefix(es, n, ci);
      forall k | 0 <= k < n ensures es[k].category != c {
        assert es[..n][k] == es[k];
      }
    }
  }

  /** The value under `k`, zero when there is none. */
  function ValueOf(totals: map<string, real>, k: string): real
  {
    if k in totals then totals[k] else 0.0
  }

  /** The sum over `keys` of their values in `totals`. */
  function SumOver(keys: seq<string>, totals: map<string, real>): real
  {
    if keys == [] then 0.0 else SumOver(keys[..|keys| - 1], totals) + ValueOf(totals, keys[|keys| - 1])
  }

  lemma {:induction false} SumOverUnaffected(keys: seq<string>, totals: map<string, real>, c: string, v: real)
    requires c !in keys
    ensures SumOver(keys, totals[c := v]) == SumOver(keys, totals)
  {
    if keys != [] {
      SumOverUnaffected(keys[..|keys| - 1], totals, c, v);
    }
  }

  lemma {:induction false} SumOverAdd(keys: seq<string>, totals: map<string, real>, c: string, a: real)
    requires forall i, j :: 0 <= i < j < |keys| ==> keys[i] != keys[j]
    requires c in keys
    ensures SumOver(keys, totals[c := ValueOf(totals, c) + a]) == SumOver(keys, totals) + a
  {
    var n := |keys| - 1;
    var init := keys[..n];
    if keys[n] == c {
      assert c !in init;
      SumOverUnaffected(init, totals, c, ValueOf(totals, c) + a);
    } else {
      SumOverAdd(init, totals, c, a);
    }
  }

  /** Adding `a` under `c` (a new key goes last) adds `a` to the sum. */
  lemma SumStep(keys: seq<string>, totals: map<string, real>, c: string, a: real)
    requires c in totals <==> c in keys
    requires forall i, j :: 0 <= i < j < |keys| ==> keys[i] != keys[j]
    ensures SumOver(if c in keys then keys else keys + [c], totals[c := ValueOf(totals, c) + a])
         == SumOver(keys, totals) + a
  {
    if c in totals {
      SumOverAdd(keys, totals, c, a);
    } else {
      SumOverUnaffected(keys, totals, c, a);
      assert (keys + [c])[..|keys|] == keys;
    }
  }

  /** The totals dictionary of `es`, built entry by entry as the `forEach` does. */
  function TotalsMap(es: seq<Expense>): map<string, real>
  {
    if es == [] then map[]
    else
      var m := TotalsMap(es[..|es| - 1]);
      var e := es[|es| - 1];
      m[e.category := ValueOf(m, e.category) + e.amount]
  }

  /** The dictionary has a key exactly for each category in the key order. */
  lemma {:induction false} TotalsMapKeys(es: seq<Expense>)
    ensures forall c :: c in TotalsMap(es) <==> c in FirstAppearance(es)
  {
    if es != [] {
      TotalsMapKeys(es[..|es| - 1]);
    }
  }

  lemma AbsentCategoryTotal(es: seq<Expense>, c: string)
    requires !HasCategory(es, c)
    ensures CategoryTotal(es, c) == 0.0
  {
    forall x | x in es ensures x.category != c {
      var i :| 0 <= i < |es| && es[i] == x;
    }
    KeepNone(es, InCategory(c));
  }

  /** Each key holds the sum of the amounts of its category. */
  lemma {:induction false} TotalsMapValues(es: seq<Expense>)
    ensures forall c :: c in TotalsMap(es) ==> TotalsMap(es)[c] == CategoryTotal(es, c)
  {
    if es != [] {
      var n := |es| - 1;
      var e := es[n];
      assert es == es[..n] + [e];
      TotalsMapValues(es[..n]);
      TotalsMapKeys(es[..n]);
      FirstAppearanceSpec(es[..n]);
      forall c | c in TotalsMap(es) ensures TotalsMap(es)[c] == CategoryTotal(es, c) {
        CategoryTotalStep(es[..n], e, c);
        if c == e.category && c !in TotalsMap(es[..n]) {
          AbsentCategoryTotal(es[..n], c);
        }
      }
    }
  }

  /** The values, summed in key order, add up to the total of the collection. */
  lemma {:induction false} TotalsMapSum(es: seq<Expense>)
    ensures SumOver(FirstAppearance(es), TotalsMap(es)) == TotalExpenses(es)
  {
    if es != [] {
      var n := |es| - 1;
      var c, amount := es[n].category, es[n].amount;
      var keys, totals := FirstAppearance(es[..n]), TotalsMap(es[..n]);
      assert FirstAppearance(es) == if c in keys then keys else keys + [c];
      assert TotalsMap(es) == totals[c := ValueOf(totals, c) + amount];
      assert TotalExpenses(es) == TotalExpenses(es[..n]) + amount;
      TotalsMapSum(es[..n]);
      TotalsMapKeys(es[..n]);
      FirstAppearanceSpec(es[..n]);
      SumStep(keys, totals, c, amount);
    }
  }

  /**
   * The `forEach` that fills the totals dictionary: `keys` is its key order,
   * `totals` maps each category present to the sum of its amounts, and the
   * totals add up to the store's `totalExpenses`.
   */
  method CategoryTotals(expenses: seq<Expense>) returns (keys: seq<string>, totals: map<string, real>)
    ensures keys == FirstAppearance(expenses) && totals == TotalsMap(expenses)
    ensures forall c :: c in totals <==> HasCategory(expenses, c)
    ensures forall c :: c in totals ==> totals[c] == CategoryTotal(expenses, c)
    ensures SumOver(keys, totals) == TotalExpenses(expenses)
  {
    keys, totals := [], map[];
    for i := 0 to |expenses|
      invariant keys == FirstAppearance(expenses[..i])
      invariant totals == TotalsMap(expenses[..i])
    {
      var e := expenses[i];
      assert expenses[..i + 1][..i] == expenses[..i];
      TotalsMapKeys(expenses[..i]);
      var previous := if e.category in totals then totals[e.category] else 0.0;
      assert previous == ValueOf(totals, e.category);
      if e.category !in totals {
        keys := keys + [e.category];
      }
      totals := totals[e.category := previous + e.amount];
    }
    assert expenses[..|expenses|] == expenses;
    TotalsMapKeys(expenses);
    FirstAppearanceSpec(expenses);
    TotalsMapValues(expenses);
    TotalsMapSum(expenses);
  }

  /** An entry of the legend: `data` in the chart component. */
  datatype LegendItem = LegendItem(value: real, color: string, text: string)

  /** An entry of the pie: `chartData`, the legend entry plus its offset when selected. */
  datatype Slice = Slice(value: real, color: string, text: string, shiftX: int, shiftY: int)

  /** `Object.entries(categoryTotals).map(...)`: one legend entry per key, in key order. */
  function LegendData(keys: seq<string>, totals: map<string, real>): (r: seq<LegendItem>)
    requires forall k :: k in keys ==> k in totals
    ensures |r| == |keys|
  {
    seq(|keys|, i requires 0 <= i < |keys| => LegendItem(totals[keys[i]], ColorOf(keys[i]), keys[i]))
  }

  /**
   * The legend of a collection: entry `i` names the `i`-th category to appear,
   * carries the sum of that category's amounts and its colour, and the
   * percentages it shows add up over the whole collection.
   */
  lemma LegendOfExpenses(es: seq<Expense>)
    ensures forall k :: k in FirstAppearance(es) ==> k in TotalsMap(es)
    ensures |LegendData(FirstAppearance(es), TotalsMap(es))| == |FirstAppearance(es)|
    ensures forall i :: 0 <= i < |FirstAppearance(es)| ==>
      var item := LegendData(FirstAppearance(es), TotalsMap(es))[i];
      && item.text == FirstAppearance(es)[i]
      && item.value == CategoryTotal(es, item.text)
      && item.color == ColorOf(item.text)
    ensures SumOver(FirstAppearance(es), TotalsMap(es)) == TotalExpenses(es)
  {
    var keys, totals := FirstAppearance(es), TotalsMap(es);
    TotalsMapKeys(es);
    TotalsMapValues(es);
    var data := LegendData(keys, totals);
    forall i | 0 <= i < |keys|
      ensures data[i].text == keys[i] && data[i].value == CategoryTotal(es, keys[i]) && data[i].color == ColorOf(keys[i])
    {
      assert keys[i] in keys;
    }
    TotalsMapSum(es);
  }

  predicate HasLegendEntry(data: seq<LegendItem>, category: string)
  {
    exists i :: 0 <= i < |data| && data[i].text == category
  }

  /**
   * A category has a legend entry iff some expense has it, and an empty
   * collection has no entries.
   */
  lemma LegendSpec(expenses: seq<Expense>, keys: seq<string>, totals: map<string, real>)
    requires keys == FirstAppearance(expenses)
    requires forall c :: c in totals <==> c in keys
    ensures forall c :: HasLegendEntry(LegendData(keys, totals), c) <==> HasCategory(expenses, c)
    ensures expenses == [] <==> LegendData(keys, totals) == []
  {
    var data := LegendData(keys, totals);
    FirstAppearanceSpec(expenses);
    if expenses != [] {
      assert HasCategory(expenses, expenses[0].category);
    }
    forall c ensures HasLegendEntry(data, c) <==> c in keys {
      if c in keys {
        var i :| 0 <= i < |keys| && keys[i] == c;
        assert data[i].text == c;
      }
    }
  }

  /** `chartData`: only the selected slice is shifted, by (2, 8). */
  function ChartData(data: seq<LegendItem>, selected: Option<string>): (r: seq<Slice>)
    ensures |r| == |data|
    ensures forall i :: 0 <= i < |r| ==>
      && r[i].value == data[i].value && r[i].color == data[i].color && r[i].text == data[i].text
      && (r[i].shiftX != 0 <==> selected == Some(data[i].text))
      && (r[i].shiftY != 0 <==> selected == Some(data[i].text))
  {
    seq(|data|, i requires 0 <= i < |data| =>
      var on := selected == Some(data[i].text);
      Slice(data[i].value, data[i].color, data[i].text, if on then 2 else 0, if on then 8 else 0))
  }

  /** With distinct legend texts, at most one slice is shifted. */
  lemma AtMostOneShifted(data: seq<LegendItem>, selected: Option<string>, i: nat, j: nat)
    requires forall a, b :: 0 <= a < b < |data| ==> data[a].text != data[b].text
    requires i < |data| && j < |data|
    requires ChartData(data, selected)[i].shiftX != 0 && ChartData(data, selected)[j].shiftX != 0
    ensures i == j
  {
  }

  /**
   * `onPress`: pressing the selected slice clears the selection, pressing
   * another selects it; a slice without text changes nothing.
   */
  function OnPress(selected: Option<string>, text: string): (r: Option<string>)
    ensures text == "" ==> r == selected
    ensures text != "" && selected == Some(text) ==> r == None
    ensures text != "" && selected != Some(text) ==> r == Some(text)
  {
    if text == "" then selected
    else if selected == Some(text) then None
    else Some(text)
  }

  /** Pressing the same slice twice from no selection, or from that slice, restores the selection. */
  lemma OnPressTwice(selected: Option<string>, text: string)
    requires selected == None || selected == Some(text)
    ensures OnPress(OnPress(selected, text), text) == selected
  {
  }
}
