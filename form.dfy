/** The add-expense form (src/components/ExpenseForm.tsx): four pieces of
    field state and the submit handler that either reports missing fields
    or hands one expense to `onSubmit` and clears the form. */
module Form {
  import opened ExpenseModel

  /** A toast notification; `destructive` is the error styling. */
  datatype Toast = Toast(title: string, description: string, destructive: bool)

  const MissingFieldsToast: Toast := Toast("Error", "Please fill in all fields", true)
  const AddedToast: Toast := Toast("Success", "Expense added successfully", false)

  /** What one submit does: report an error, or pass an expense to
      `onSubmit` (once) and report success. */
  datatype SubmitOutcome =
    | Rejected(toast: Toast)
    | Submitted(expense: ExpenseInput, toast: Toast)

  class ExpenseForm {
    var title: string
    /** The amount as typed; it is parsed only on submit. */
    var amount: string
    /** The picked date; the picker only ever stores a date it was given. */
    var date: Option<Date>
    var category: string

    /** Empty fields; the date starts at the current moment `now`. */
    constructor (now: Date)
      ensures title == "" && amount == "" && date == Some(now) && category == ""
    {
      title, amount, date, category := "", "", Some(now), "";
    }

    /** The title input's change handler. */
    method SetTitle(value: string)
      modifies this`title
      ensures title == value
    {
      title := value;
    }

    /** The amount input's change handler. */
    method SetAmount(value: string)
      modifies this`amount
      ensures amount == value
    {
      amount := value;
    }

    /** The category input's change handler. */
    method SetCategory(value: string)
      modifies this`category
      ensures category == value
    {
      category := value;
    }

    /** The calendar's `onSelect`: a deselection leaves the date as it was. */
    method SelectDate(picked: Option<Date>)
      modifies this`date
      ensures date == if picked.Some? then picked else old(date)
    {
      if picked.Some? {
        date := picked;
      }
    }

    /** `handleSubmit`. Only emptiness is checked: any amount text, and so any
        sign or size of amount, passes the gate. `parseAmount` stands for
        `parseFloat`; `now` is the clock reading taken for the reset. */
    method HandleSubmit(now: Date, parseAmount: string -> Amount) returns (outcome: SubmitOutcome)
      modifies this
      ensures outcome.Submitted? <==> Complete(old(title), old(amount), old(date), old(category))
      ensures outcome.Rejected? ==>
        outcome.toast == MissingFieldsToast &&
        title == old(title) && amount == old(amount) && date == old(date) && category == old(category)
      ensures outcome.Submitted? ==>
        outcome.expense == ExpenseInput(old(title), parseAmount(old(amount)), old(date).value, old(category)) &&
        outcome.toast == AddedToast &&
        title == "" && amount == "" && date == Some(now) && category == ""
    {
      if !Complete(title, amount, date, category) {
        return Rejected(MissingFieldsToast);
      }
      var expense := ExpenseInput(title, parseAmount(amount), date.value, category);
      title := "";
      amount := "";
      date := Some(now);
      category := "";
      outcome := Submitted(expense, AddedToast);
    }
  }

  /** The submit gate of ExpenseForm.tsx:30, negated: every field is filled in. */
  predicate Complete(title: string, amount: string, date: Option<Date>, category: string)
  {
    title != "" && amount != "" && date.Some? && category != ""
  }
}
