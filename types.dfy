/**
 * The records shared by the expense tracker: an expense, the filter record
 * the home screen edits, the add-expense form, and the fixed category list.
 */
module Types {

  datatype Option<T> = None | Some(value: T)

  /** The outcome of an operation that can raise an error with a message. */
  datatype Result<T> = Ok(value: T) | Err(message: string)

  /**
   * One recorded expense. `date` is a timestamp in milliseconds; `amount` is a
   * decimal value in the single currency of the app.
   */
  datatype Expense = Expense(
    id: string,
    amount: real,
    category: string,
    description: string,
    date: int,
    photoUri: Option<string>)

  /** The seven category names, in the order the pickers list them. */
  const CATEGORIES: seq<string> :=
    ["Food", "Transport", "Entertainment", "Bills", "Shopping", "Health", "Other"]

  /** The `type` tag of a filter record: "all", "category" or "date". */
  datatype FilterType = AllType | CategoryType | DateType

  /** An inclusive range of timestamps. */
  datatype DateRange = DateRange(start: int, end: int)

  /** An inclusive range of amounts. */
  datatype AmountRange = AmountRange(min: real, max: real)

  /** The view criteria of the home screen; an absent field imposes nothing. */
  datatype ExpenseFilters = ExpenseFilters(
    filterType: FilterType,
    category: Option<string>,
    dateRange: Option<DateRange>,
    searchText: Option<string>,
    amountRange: Option<AmountRange>)

  /** The filter record the store starts with: type "all" and nothing else. */
  const NoFilters: ExpenseFilters := ExpenseFilters(AllType, None, None, None, None)

  /** The text fields of the add-expense form, as typed. */
  datatype FormData = FormData(
    amount: string,
    category: string,
    description: string,
    photoUri: Option<string>)

  /**
   * JavaScript truthiness of an optional string: absent and "" are both false.
   */
  predicate Truthy(s: Option<string>)
  {
    s.Some? && s.value != ""
  }
}
