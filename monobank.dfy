/**
 * Conversion of Monobank statements into expenses. The two HTTP calls are
 * inputs: the outcome of the client-info call (`ClientInfo`) and, per
 * account id, the statement response (None when it is not ok or the
 * request throws).
 */
module Monobank {
  import opened Types
  import opened Collections

  datatype Account = Account(id: string, accountType: string)

  /** A statement entry: `amount` in minor units (negative for debits), `time` in seconds. */
  datatype Tx = Tx(id: string, amount: int, mcc: int, description: string, time: int)

  /**
   * The merchant-category-code table; the first matching range wins, so the
   * food codes inside 5000-5999 never reach "Shopping".
   */
  function MapMccToCategory(mcc: int): (r: string)
    ensures r in CATEGORIES
    ensures r == "Food" <==> 5411 <= mcc <= 5499 || 5812 <= mcc <= 5814
    ensures r == "Transport" <==> 4000 <= mcc <= 4199 || 4784 <= mcc <= 4789
    ensures r == "Entertainment" <==> 7800 <= mcc <= 7999
    ensures r == "Bills" <==> 4900 <= mcc <= 4999 || 4812 <= mcc <= 4814 || mcc == 6012
    ensures r == "Shopping" <==> 5000 <= mcc <= 5999 && !(5411 <= mcc <= 5499 || 5812 <= mcc <= 5814)
    ensures r == "Health" <==> 8011 <= mcc <= 8099
  {
    if (5411 <= mcc <= 5499) || (5812 <= mcc <= 5814) then "Food"
    else if (4000 <= mcc <= 4199) || (4784 <= mcc <= 4789) || mcc == 4121 then "Transport"
    else if (7800 <= mcc <= 7999) || (7832 <= mcc <= 7999) then "Entertainment"
    else if (4900 <= mcc <= 4999) || (4812 <= mcc <= 4814) || mcc == 6012 then "Bills"
    else if (5000 <= mcc <= 5999) || (5300 <= mcc <= 5399) then "Shopping"
    else if (8011 <= mcc <= 8099) || (8041 <= mcc <= 8049) then "Health"
    else "Other"
  }

  function NotFop(): Account -> bool
  {
    (a: Account) => a.accountType != "fop"
  }

  /**
   * The client-info call as seen by the caller: a response that is not ok,
   * an exception with its own message (the request rejects, the body is not
   * JSON or has no `accounts` list), or the account list.
   */
  datatype ClientInfo = NotOk | Thrown(message: string) | Accounts(accounts: seq<Account>)

  /** The accounts that are not of type "fop", in their original order and multiplicity. */
  function CardAccounts(accounts: seq<Account>): (r: seq<Account>)
    ensures forall a :: a in r <==> a in accounts && a.accountType != "fop"
    ensures multiset(r) <= multiset(accounts)
  {
    KeepMembers(accounts, NotFop());
    KeepMultiset(accounts, NotFop());
    Keep(accounts, NotFop())
  }

  /** Dropping "fop" accounts commutes with concatenation, so the kept accounts stay in order. */
  lemma CardAccountsAppend(a: seq<Account>, b: seq<Account>)
    ensures CardAccounts(a + b) == CardAccounts(a) + CardAccounts(b)
  {
    KeepAppend(a, b, NotFop());
  }

  /** One account is kept iff its type is not "fop". */
  lemma CardAccountsSingle(account: Account)
    ensures CardAccounts([account]) == if account.accountType != "fop" then [account] else []
  {
    KeepSingle(account, NotFop());
  }

  /**
   * `fetchMonobankAccounts`: a response that is not ok is the error "Failed to
   * fetch accounts", an exception keeps its message, otherwise the card accounts.
   */
  function FetchMonobankAccounts(clientInfo: ClientInfo): (r: Result<seq<Account>>)
    ensures clientInfo.NotOk? ==> r == Err("Failed to fetch accounts")
    ensures clientInfo.Thrown? ==> r == Err(clientInfo.message)
    ensures r.Ok? <==> clientInfo.Accounts?
    ensures r.Ok? ==> r.value == CardAccounts(clientInfo.accounts)
  {
    match clientInfo
    case NotOk => Err("Failed to fetch accounts")
    case Thrown(message) => Err(message)
    case Accounts(accounts) => Ok(CardAccounts(accounts))
  }

  /** One debit as an expense: positive amount in major units, id as text, time in milliseconds. */
  function ToExpense(tx: Tx): (e: Expense)
    ensures e.category in CATEGORIES
    ensures tx.amount < 0 ==> e.amount > 0.0
  {
    Expense(
      tx.id,
      (if tx.amount < 0 then -tx.amount else tx.amount) as real / 100.0,
      MapMccToCategory(tx.mcc),
      tx.description,
      tx.time * 1000,
      None)
  }

  function IsDebit(): Tx -> bool
  {
    (tx: Tx) => tx.amount < 0
  }

  /** The statement of one account: its debits, in order, as expenses. */
  function AccountExpenses(txs: seq<Tx>): (r: seq<Expense>)
    ensures |r| <= |txs|
  {
    var debits := Keep(txs, IsDebit());
    seq(|debits|, i requires 0 <= i < |debits| => ToExpense(debits[i]))
  }

  /** The expenses of two statements one after the other are those of each, in order. */
  lemma AccountExpensesAppend(a: seq<Tx>, b: seq<Tx>)
    ensures AccountExpenses(a + b) == AccountExpenses(a) + AccountExpenses(b)
  {
    KeepAppend(a, b, IsDebit());
    var da, db := Keep(a, IsDebit()), Keep(b, IsDebit());
    var r, ra, rb := AccountExpenses(a + b), AccountExpenses(a), AccountExpenses(b);
    forall i | 0 <= i < |r| ensures r[i] == (ra + rb)[i] {
      if i < |da| {
        assert (da + db)[i] == da[i];
      } else {
        assert (da + db)[i] == db[i - |da|];
      }
    }
  }

  /** A single entry yields its conversion when it is a debit and nothing otherwise. */
  lemma AccountExpensesSingle(tx: Tx)
    ensures AccountExpenses([tx]) == if tx.amount < 0 then [ToExpense(tx)] else []
  {
    KeepSingle(tx, IsDebit());
  }

  /**
   * Every expense of a statement comes from one of its debits, and every
   * debit yields one: id, |amount| / 100, category by code, time * 1000.
   */
  lemma AccountExpensesSpec(txs: seq<Tx>)
    ensures forall e :: e in AccountExpenses(txs) <==> exists tx :: tx in txs && tx.amount < 0 && e == ToExpense(tx)
    ensures forall e :: e in AccountExpenses(txs) ==> e.amount > 0.0 && e.category in CATEGORIES && e.photoUri.None?
  {
    var debits := Keep(txs, IsDebit());
    KeepMembers(txs, IsDebit());
    var r := AccountExpenses(txs);
    forall e | e in r ensures exists tx :: tx in txs && tx.amount < 0 && e == ToExpense(tx) {
      var i :| 0 <= i < |r| && r[i] == e;
      assert debits[i] in debits;
    }
    forall tx | tx in txs && tx.amount < 0 ensures ToExpense(tx) in r {
      assert tx in debits;
      var i :| 0 <= i < |debits| && debits[i] == tx;
      assert r[i] == ToExpense(tx);
    }
  }

  /** What one account contributes: nothing when its statement failed. */
  function Fetched(account: Account, statement: string -> Option<seq<Tx>>): seq<Expense>
  {
    match statement(account.id)
    case None => []
    case Some(txs) => AccountExpenses(txs)
  }

  /** The concatenation, in account order, of what every account contributes. */
  function Imported(accounts: seq<Account>, statement: string -> Option<seq<Tx>>): seq<Expense>
  {
    if accounts == [] then []
    else Imported(accounts[..|accounts| - 1], statement) + Fetched(accounts[|accounts| - 1], statement)
  }

  /** Everything imported is a positive-amount expense with a category from the list. */
  lemma {:induction false} ImportedAreDebits(accounts: seq<Account>, statement: string -> Option<seq<Tx>>)
    ensures forall e :: e in Imported(accounts, statement) ==> e.amount > 0.0 && e.category in CATEGORIES
  {
    if accounts != [] {
      ImportedAreDebits(accounts[..|accounts| - 1], statement);
      var last := accounts[|accounts| - 1];
      if statement(last.id).Some? {
        AccountExpensesSpec(statement(last.id).value);
      }
    }
  }

  lemma ImportedSnoc(s: seq<Account>, account: Account, statement: string -> Option<seq<Tx>>)
    ensures Imported(s + [account], statement) == Imported(s, statement) + Fetched(account, statement)
  {
    assert (s + [account])[..|s|] == s;
  }

  /** The import of two account lists one after the other is the import of each, in order. */
  lemma {:induction false} ImportedAppend(a: seq<Account>, b: seq<Account>, statement: string -> Option<seq<Tx>>)
    ensures Imported(a + b, statement) == Imported(a, statement) + Imported(b, statement)
  {
    if b == [] {
      assert a + b == a;
    } else {
      var front, last := b[..|b| - 1], b[|b| - 1];
      assert a + b == (a + front) + [last];
      ImportedSnoc(a + front, last, statement);
      ImportedAppend(a, front, statement);
      AppendAssociative(Imported(a, statement), Imported(front, statement), Fetched(last, statement));
    }
  }

  /** An account whose statement fails contributes nothing, wherever it stands; the others are unaffected. */
  lemma FailedAccountsSkipped(a: seq<Account>, failing: Account, b: seq<Account>, statement: string -> Option<seq<Tx>>)
    requires statement(failing.id).None?
    ensures Imported(a + [failing] + b, statement) == Imported(a + b, statement)
  {
    ImportedAppend(a + [failing], b, statement);
    ImportedAppend(a, [failing], statement);
    ImportedAppend(a, b, statement);
    assert [failing][..0] == [];
  }

  /** What `fetchMonobankTransactions` resolves or rejects with, the network replaced by its outcomes. */
  function ImportResult(clientInfo: ClientInfo, statement: string -> Option<seq<Tx>>): (r: Result<seq<Expense>>)
    ensures clientInfo.NotOk? ==> r == Err("Failed to fetch accounts")
    ensures clientInfo.Thrown? ==> r == Err(clientInfo.message)
    ensures clientInfo.Accounts? && CardAccounts(clientInfo.accounts) == [] ==> r == Err("No card accounts found for this user")
    ensures r.Ok? <==> clientInfo.Accounts? && CardAccounts(clientInfo.accounts) != []
    ensures r.Ok? ==> r.value == Imported(CardAccounts(clientInfo.accounts), statement)
  {
    match FetchMonobankAccounts(clientInfo)
    case Err(msg) => Err(msg)
    case Ok(accounts) =>
      if accounts == [] then Err("No card accounts found for this user")
      else Ok(Imported(accounts, statement))
  }

  /**
   * The loop over the card accounts: appends each fetched account's debits
   * and skips an account whose statement fails.
   */
  method ImportAccounts(accounts: seq<Account>, statement: string -> Option<seq<Tx>>) returns (allTransactions: seq<Expense>)
    ensures allTransactions == Imported(accounts, statement)
  {
    allTransactions := [];
    for i := 0 to |accounts|
      invariant allTransactions == Imported(accounts[..i], statement)
    {
      assert accounts[..i + 1] == accounts[..i] + [accounts[i]];
      ImportedSnoc(accounts[..i], accounts[i], statement);
      var response := statement(accounts[i].id);
      if response.None? {
        continue;
      }
      allTransactions := allTransactions + AccountExpenses(response.value);
    }
    assert accounts[..|accounts|] == accounts;
  }

  /** `fetchMonobankTransactions`, with the network replaced by its outcomes. */
  method FetchMonobankTransactions(clientInfo: ClientInfo, statement: string -> Option<seq<Tx>>)
    returns (r: Result<seq<Expense>>)
    ensures r == ImportResult(clientInfo, statement)
    ensures r.Ok? ==> forall e :: e in r.value ==> e.amount > 0.0 && e.category in CATEGORIES
  {
    var fetched := FetchMonobankAccounts(clientInfo);
    if fetched.Err? {
      return Err(fetched.message);
    }
    var accounts := fetched.value;
    if |accounts| == 0 {
      return Err("No card accounts found for this user");
    }
    var allTransactions := ImportAccounts(accounts, statement);
    ImportedAreDebits(accounts, statement);
    r := Ok(allTransactions);
  }
}
