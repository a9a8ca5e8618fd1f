/** The data model shared by the web front end and the Python back end:
    one expense record, the record a form hands over before it has an id,
    and the Option/Result wrappers used for unset values and error returns. */
module ExpenseModel {

  /** A calendar date-time, as milliseconds since the epoch. */
  type Date = int

  /** A monetary amount; floating point is modelled by exact reals. */
  type Amount = real

  datatype Option<T> = None | Some(value: T)

  datatype Result<T, E> = Ok(value: T) | Err(error: E)

  /** A stored expense. */
  datatype Expense = Expense(id: string, title: string, amount: Amount, date: Date, category: string)

  /** An expense as the form submits it, before the store gives it an id. */
  datatype ExpenseInput = ExpenseInput(title: string, amount: Amount, date: Date, category: string)

  /** The stored record for `input` under identifier `id`. */
  function WithId(input: ExpenseInput, id: string): Expense
  {
    Expense(id, input.title, input.amount, input.date, input.category)
  }

  /** No two elements of `s` share an identifier. */
  predicate UniqueIds(s: seq<Expense>)
  {
    forall i, j :: 0 <= i < j < |s| ==> s[i].id != s[j].id
  }
}
