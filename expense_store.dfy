/**
 * The expense store: the ordered collection, the side set of ids already
 * seen, the filter record, the persisted copy and the spending alerts it
 * schedules. Every mutator keeps the id set equal to the ids of the
 * collection; the persisted copy is rewritten after a change only when the
 * collection is non-empty.
 */
module ExpenseStore {
  import opened Types
  import opened Collections
  import opened ExpenseViews

  /** Today's spending above this amount schedules an alert. */
  const AlertThreshold: real := 100.0

  function OnDay(dayOf: int -> int, day: int): Expense -> bool
  {
    (e: Expense) => dayOf(e.date) == day
  }

  /**
   * The sum of the amounts of the entries that fall on the calendar day of
   * `now`; `dayOf` maps a timestamp to its local calendar day.
   */
  function TodayTotal(es: seq<Expense>, now: int, dayOf: int -> int): real
  {
    TotalExpenses(Keep(es, OnDay(dayOf, dayOf(now))))
  }

  /** The alerts one add schedules: at most one, carrying the day's total. */
  function SpendingAlerts(es: seq<Expense>, now: int, dayOf: int -> int): (r: seq<real>)
    ensures |r| <= 1
    ensures r != [] <==> TodayTotal(es, now, dayOf) > AlertThreshold
    ensures forall a :: a in r ==> a == TodayTotal(es, now, dayOf)
  {
    var total := TodayTotal(es, now, dayOf);
    if total > AlertThreshold then [total] else []
  }

  function IdUnknown(known: set<string>): Expense -> bool
  {
    (e: Expense) => e.id !in known
  }

  /** The part of a batch whose ids are not known yet, in batch order. */
  function Unseen(batch: seq<Expense>, known: set<string>): seq<Expense>
  {
    Keep(batch, IdUnknown(known))
  }

  function IdIsNot(id: string): Expense -> bool
  {
    (e: Expense) => e.id != id
  }

  /** The collection with every entry of the given id removed. */
  function WithoutId(es: seq<Expense>, id: string): seq<Expense>
  {
    Keep(es, IdIsNot(id))
  }

  /** The collection with the category of every entry of the given id replaced. */
  function Recategorized(es: seq<Expense>, id: string, category: string): (r: seq<Expense>)
    ensures |r| == |es|
  {
    seq(|es|, i requires 0 <= i < |es| => if es[i].id == id then es[i].(category := category) else es[i])
  }

  /** What a load yields: the stored list, or [] when the slot is empty or cannot be read. */
  function Loaded(slot: Option<seq<Expense>>, readFails: bool): seq<Expense>
  {
    if readFails || slot.None? then [] else slot.value
  }

  /** The persisted copy after the save effect has seen `es`. */
  function Persisted(slot: Option<seq<Expense>>, es: seq<Expense>): Option<seq<Expense>>
  {
    if |es| > 0 then Some(es) else slot
  }

  predicate DistinctIds(es: seq<Expense>)
  {
    forall i, j :: 0 <= i < j < |es| ==> es[i].id != es[j].id
  }

  /**
   * A batch add keeps exactly the entries of unknown id, in batch order; the
   * ids recorded afterwards are the known ids plus every id of the batch.
   */
  lemma UnseenSpec(batch: seq<Expense>, known: set<string>)
    ensures forall e :: e in Unseen(batch, known) <==> e in batch && e.id !in known
    ensures known + Ids(Unseen(batch, known)) == known + Ids(batch)
    ensures (forall e :: e in batch ==> e.id in known) ==> Unseen(batch, known) == []
    ensures (forall e :: e in batch ==> e.id !in known) ==> Unseen(batch, known) == batch
  {
    KeepMembers(batch, IdUnknown(known));
    if forall e :: e in batch ==> e.id in known {
      KeepNone(batch, IdUnknown(known));
    }
    if forall e :: e in batch ==> e.id !in known {
      KeepAll(batch, IdUnknown(known));
    }
  }

  /** Adding the same batch a second time adds nothing. */
  lemma ImportIsIdempotent(batch: seq<Expense>, known: set<string>)
    ensures Unseen(batch, known + Ids(Unseen(batch, known))) == []
  {
    UnseenSpec(batch, known);
    KeepNone(batch, IdUnknown(known + Ids(Unseen(batch, known))));
  }

  /** Two entries of one batch that share a fresh id are both added: a batch is not checked against itself. */
  lemma BatchDuplicatesKept(a: Expense, b: Expense, known: set<string>)
    requires a.id == b.id && a.id !in known
    ensures Unseen([a, b], known) == [a, b]
    ensures !DistinctIds(Unseen([a, b], known))
  {
    UnseenSpec([a, b], known);
  }

  /** A batch whose own ids are distinct keeps the ids of the collection distinct. */
  lemma {:induction false} UnseenKeepsIdsDistinct(es: seq<Expense>, batch: seq<Expense>)
    requires DistinctIds(es) && DistinctIds(batch)
    ensures DistinctIds(es + Unseen(batch, Ids(es)))
  {
    var u := Unseen(batch, Ids(es));
    UnseenSpec(batch, Ids(es));
    UnseenDistinct(batch, Ids(es));
    var r := es + u;
    forall i, j | 0 <= i < j < |r| ensures r[i].id != r[j].id {
      if j >= |es| {
        assert r[j] == u[j - |es|] && r[j] in u;
        if i < |es| {
          assert r[i] in es;
        }
      }
    }
  }

  lemma {:induction false} UnseenDistinct(batch: seq<Expense>, known: set<string>)
    requires DistinctIds(batch)
    ensures DistinctIds(Unseen(batch, known))
  {
    if batch != [] {
      UnseenDistinct(batch[1..], known);
      KeepMembers(batch[1..], IdUnknown(known));
      var rest := Unseen(batch[1..], known);
      assert forall e :: e in rest ==> e in batch[1..];
      assert forall e :: e in batch[1..] ==> e.id != batch[0].id;
    }
  }

  /**
   * Deleting removes every entry of that id and nothing else, and is a no-op
   * on the collection when the id is absent.
   */
  lemma WithoutIdSpec(es: seq<Expense>, id: string)
    ensures forall e :: e in WithoutId(es, id) <==> e in es && e.id != id
    ensures Ids(WithoutId(es, id)) == Ids(es) - {id}
    ensures id !in Ids(es) ==> WithoutId(es, id) == es
  {
    KeepMembers(es, IdIsNot(id));
    if id !in Ids(es) {
      KeepAll(es, IdIsNot(id));
    }
  }

  lemma {:induction false} RecategorizedTotal(es: seq<Expense>, id: string, category: string)
    ensures TotalExpenses(Recategorized(es, id, category)) == TotalExpenses(es)
  {
    if es != [] {
      var n := |es|;
      assert Recategorized(es, id, category)[..n - 1] == Recategorized(es[..n - 1], id, category);
      RecategorizedTotal(es[..n - 1], id, category);
    }
  }

  /**
   * Changing a category keeps the length, the order, the ids, the total and
   * every other field; entries of that id get the new category, unchecked
   * against the category list.
   */
  lemma RecategorizedSpec(es: seq<Expense>, id: string, category: string)
    ensures |Recategorized(es, id, category)| == |es|
    ensures forall i :: 0 <= i < |es| ==>
      var r := Recategorized(es, id, category)[i];
      && r.id == es[i].id && r.amount == es[i].amount && r.description == es[i].description
      && r.date == es[i].date && r.photoUri == es[i].photoUri
      && r.category == (if es[i].id == id then category else es[i].category)
    ensures Ids(Recategorized(es, id, category)) == Ids(es)
    ensures TotalExpenses(Recategorized(es, id, category)) == TotalExpenses(es)
  {
    var r := Recategorized(es, id, category);
    forall x | x in Ids(es) ensures x in Ids(r) {
      var i :| 0 <= i < |es| && es[i].id == x;
      assert r[i].id == x;
    }
    RecategorizedTotal(es, id, category);
  }

  class Store {
    var expenses: seq<Expense>
    /** The ids seen so far; kept equal to the ids of `expenses`. */
    var knownIds: set<string>
    var filters: ExpenseFilters
    /** The persisted copy in the key-value slot; None once the slot is removed. */
    var storage: Option<seq<Expense>>
    /** The spending alerts scheduled so far, oldest first. */
    var alerts: seq<real>

    ghost predicate Valid()
      reads this
    {
      knownIds == Ids(expenses)
    }

    constructor(slot: Option<seq<Expense>>)
      ensures Valid()
      ensures expenses == [] && knownIds == {} && filters == NoFilters
      ensures storage == slot && alerts == []
    {
      expenses := [];
      knownIds := {};
      filters := NoFilters;
      storage := slot;
      alerts := [];
    }

    /** The effect that runs after each change of `expenses`: save only a non-empty collection. */
    method SaveEffect()
      modifies this`storage
      ensures storage == Persisted(old(storage), expenses)
    {
      if |expenses| > 0 {
        storage := Some(expenses);
      }
    }

    /** Startup: load the persisted copy (or [] on failure) and rebuild the id set from it. */
    method Initialize(readFails: bool)
      modifies this
      ensures Valid()
      ensures expenses == Loaded(old(storage), readFails)
      ensures storage == Persisted(old(storage), expenses)
      ensures filters == old(filters) && alerts == old(alerts)
    {
      var loaded := Loaded(storage, readFails);
      expenses := loaded;
      knownIds := Ids(loaded);
      SaveEffect();
    }

    /**
     * Adds an expense unless its id is known; after an insertion, schedules
     * one alert when today's total exceeds the threshold.
     */
    method AddExpense(expense: Expense, now: int, dayOf: int -> int)
      requires Valid()
      modifies this
      ensures Valid()
      ensures filters == old(filters)
      ensures old(expense.id in knownIds) ==>
        expenses == old(expenses) && alerts == old(alerts) && storage == old(storage)
      ensures old(expense.id !in knownIds) ==>
        && expenses == old(expenses) + [expense]
        && knownIds == old(knownIds) + {expense.id}
        && alerts == old(alerts) + SpendingAlerts(expenses, now, dayOf)
        && storage == Some(expenses)
    {
      if expense.id in knownIds {
        return;
      }
      var newExpenses := expenses + [expense];
      var todayTotal := TodayTotal(newExpenses, now, dayOf);
      if todayTotal > AlertThreshold {
        alerts := alerts + [todayTotal];
      }
      expenses := newExpenses;
      IdsAppend(old(expenses), [expense]);
      knownIds := knownIds + {expense.id};
      SaveEffect();
    }

    /**
     * Adds, in batch order, the entries whose ids are not known yet, with a
     * single alert check for the whole batch; a batch with nothing new is a
     * no-op.
     */
    method AddExpenses(batch: seq<Expense>, now: int, dayOf: int -> int)
      requires Valid()
      modifies this
      ensures Valid()
      ensures filters == old(filters)
      ensures Unseen(batch, old(knownIds)) == [] ==>
        expenses == old(expenses) && alerts == old(alerts) && storage == old(storage)
      ensures Unseen(batch, old(knownIds)) != [] ==>
        && expenses == old(expenses) + Unseen(batch, old(knownIds))
        && knownIds == old(knownIds) + Ids(batch)
        && alerts == old(alerts) + SpendingAlerts(expenses, now, dayOf)
        && storage == Some(expenses)
    {
      var unique := Unseen(batch, knownIds);
      if |unique| == 0 {
        return;
      }
      var newExpenses := expenses + unique;
      var todayTotal := TodayTotal(newExpenses, now, dayOf);
      if todayTotal > AlertThreshold {
        alerts := alerts + [todayTotal];
      }
      expenses := newExpenses;
      RecordIds(unique);
      IdsAppend(old(expenses), unique);
      UnseenSpec(batch, old(knownIds));
      SaveEffect();
    }

    /** The `forEach` that adds the ids of the inserted entries to the id set. */
    method RecordIds(added: seq<Expense>)
      modifies this`knownIds
      ensures knownIds == old(knownIds) + Ids(added)
    {
      var i := 0;
      while i < |added|
        invariant 0 <= i <= |added|
        invariant knownIds == old(knownIds) + Ids(added[..i])
      {
        assert added[..i + 1] == added[..i] + [added[i]];
        IdsAppend(added[..i], [added[i]]);
        knownIds := knownIds + {added[i].id};
        i := i + 1;
      }
      assert added[..i] == added;
    }

    /** Removes every entry of the given id. */
    method DeleteExpense(id: string)
      requires Valid()
      modifies this
      ensures Valid()
      ensures expenses == WithoutId(old(expenses), id)
      ensures knownIds == old(knownIds) - {id}
      ensures storage == Persisted(old(storage), expenses)
      ensures filters == old(filters) && alerts == old(alerts)
    {
      WithoutIdSpec(expenses, id);
      expenses := WithoutId(expenses, id);
      knownIds := knownIds - {id};
      SaveEffect();
    }

    /** Empties the collection and the id set and removes the persisted copy. */
    method ClearStorage()
      modifies this
      ensures Valid()
      ensures expenses == [] && knownIds == {} && storage == None
      ensures filters == old(filters) && alerts == old(alerts)
    {
      expenses := [];
      knownIds := {};
      storage := None;
    }

    /** Sets the category of every entry of the given id. */
    method UpdateExpenseCategory(id: string, category: string)
      requires Valid()
      modifies this
      ensures Valid()
      ensures expenses == Recategorized(old(expenses), id, category)
      ensures knownIds == old(knownIds)
      ensures storage == Persisted(old(storage), expenses)
      ensures filters == old(filters) && alerts == old(alerts)
    {
      RecategorizedSpec(expenses, id, category);
      expenses := Recategorized(expenses, id, category);
      SaveEffect();
    }

    method SetFilters(newFilters: ExpenseFilters)
      modifies this`filters
      ensures filters == newFilters
    {
      filters := newFilters;
    }

    /** `setFilter`: replaces the whole filter record by a category choice. */
    method SetCategoryFilter(category: string)
      modifies this`filters
      ensures filters == SetFilter(category)
    {
      filters := SetFilter(category);
    }
  }
}
