/**
 * Client code driving the store through the situations its design talks
 * about: a duplicate id, the spending alert, re-importing a batch, restarting
 * the app, and deleting the last entry.
 */
module StoreScenarios {
  import opened Types
  import opened Collections
  import opened ExpenseViews
  import opened ExpenseStore

  /** A second expense with a known id is rejected, not merged: the first amount stays. */
  method DuplicateIdIsRejected(now: int, dayOf: int -> int) returns (count: nat, amount: real)
    ensures count == 1 && amount == 50.0
  {
    var store := new Store(None);
    store.AddExpense(Expense("1", 50.0, "Food", "Lunch", now, None), now, dayOf);
    store.AddExpense(Expense("1", 999.0, "Food", "Dinner", now, None), now, dayOf);
    count := |store.expenses|;
    amount := store.expenses[0].amount;
  }

  /** Three of today's expenses totalling 120, added as one batch, schedule exactly one alert. */
  method BatchSchedulesOneAlert(now: int, dayOf: int -> int) returns (alerts: seq<real>)
    ensures alerts == [120.0]
  {
    var a := Expense("a", 50.0, "Food", "Lunch", now, None);
    var b := Expense("b", 40.0, "Transport", "Taxi", now, None);
    var c := Expense("c", 30.0, "Bills", "Phone", now, None);
    var store := new Store(None);
    UnseenSpec([a, b, c], {});
    assert [] + [a, b, c] == [a, b, c];
    KeepAll([a, b, c], OnDay(dayOf, dayOf(now)));
    TotalOfPrefixes(a, b, c);
    store.AddExpenses([a, b, c], now, dayOf);
    alerts := store.alerts;
  }

  /** The same three added one by one: only the add that crosses the threshold alerts. */
  method SingleAddsScheduleOneAlert(now: int, dayOf: int -> int) returns (alerts: seq<real>)
    ensures alerts == [120.0]
  {
    var a := Expense("a", 50.0, "Food", "Lunch", now, None);
    var b := Expense("b", 40.0, "Transport", "Taxi", now, None);
    var c := Expense("c", 30.0, "Bills", "Phone", now, None);
    TodayAlerts(a, b, c, now, dayOf);
    var store := new Store(None);
    assert [] + [a] == [a];
    store.AddExpense(a, now, dayOf);
    assert [a] + [b] == [a, b];
    store.AddExpense(b, now, dayOf);
    assert [a, b] + [c] == [a, b, c];
    store.AddExpense(c, now, dayOf);
    alerts := store.alerts;
  }

  lemma TodayAlerts(a: Expense, b: Expense, c: Expense, now: int, dayOf: int -> int)
    requires a.date == b.date == c.date == now
    requires a.amount == 50.0 && b.amount == 40.0 && c.amount == 30.0
    ensures SpendingAlerts([a], now, dayOf) == []
    ensures SpendingAlerts([a, b], now, dayOf) == []
    ensures SpendingAlerts([a, b, c], now, dayOf) == [120.0]
  {
    TotalOfPrefixes(a, b, c);
    KeepAll([a], OnDay(dayOf, dayOf(now)));
    KeepAll([a, b], OnDay(dayOf, dayOf(now)));
    KeepAll([a, b, c], OnDay(dayOf, dayOf(now)));
  }

  lemma TotalOfPrefixes(a: Expense, b: Expense, c: Expense)
    ensures TotalExpenses([a]) == a.amount
    ensures TotalExpenses([a, b]) == a.amount + b.amount
    ensures TotalExpenses([a, b, c]) == a.amount + b.amount + c.amount
  {
    assert [a, b, c][..2] == [a, b];
    assert [a, b][..1] == [a];
    assert [a][..0] == [];
  }

  /** Importing the same batch twice leaves the collection as one import did. */
  method ImportTwice(batch: seq<Expense>, now: int, dayOf: int -> int) returns (once: seq<Expense>, twice: seq<Expense>)
    ensures once == Unseen(batch, {})
    ensures twice == once
  {
    var store := new Store(None);
    store.AddExpenses(batch, now, dayOf);
    once := store.expenses;
    UnseenSpec(batch, {});
    ImportIsIdempotent(batch, {});
    store.AddExpenses(batch, now, dayOf);
    twice := store.expenses;
  }

  /** After a restart the store reloads exactly what the previous session held. */
  method RestartRestores(batch: seq<Expense>, now: int, dayOf: int -> int) returns (before: seq<Expense>, after: seq<Expense>)
    ensures after == before
  {
    var store := new Store(None);
    store.AddExpenses(batch, now, dayOf);
    before := store.expenses;
    var restarted := new Store(store.storage);
    restarted.Initialize(false);
    after := restarted.expenses;
  }

  /**
   * Deleting the only expense empties the collection, but the save effect
   * skips empty collections, so the next start loads the deleted expense again.
   */
  method DeletedLastExpenseReturns(e: Expense, now: int, dayOf: int -> int) returns (afterDelete: seq<Expense>, reloaded: seq<Expense>)
    ensures afterDelete == [] && reloaded == [e]
  {
    var store := new Store(None);
    store.AddExpense(e, now, dayOf);
    store.DeleteExpense(e.id);
    WithoutIdSpec([e], e.id);
    afterDelete := store.expenses;
    var restarted := new Store(store.storage);
    restarted.Initialize(false);
    reloaded := restarted.expenses;
  }
}
