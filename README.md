# Expense tracker: a Dafny model of its data core

The expense tracker is a small web app with an optional Python back end. Expenses are
added through a form, listed and filtered, exported as CSV, and summarised on a dashboard.
This project models the parts of it that transform data and proves what they promise:

- `sequences.dfy`, module `Sequences`: the list and string operations the core is built
  from. `Keep` is `Array.prototype.filter`. `IsSubsequence` means "order-preserving
  subsequence". `Distinct` is `Array.from(new Set(...))`. `Join` and `Split` work on one
  separator character, and `Count` counts a character.
- `text.dfy`, module `Text`: `toLowerCase` restricted to ASCII letters (`Lower`) and
  `String.prototype.includes` (`Includes`). `Includes` is proved equal to "the needle occurs
  at some offset".
- `model.dfy`, module `ExpenseModel`: the `Expense` record and the form's `ExpenseInput`.
  Both the front end and the back end use this one record shape.
- `index.dfy`, module `Index` (src/pages/Index.tsx): the `expenses` state as class
  `ExpenseStore`, holding a `seq` field. It has add and delete, the filter (`Filtered`),
  the category list (`Categories`) and the CSV text of the export button (`CsvText`,
  `ExportCsv`). Two methods wire in the page's two children: the form's `onSubmit`
  (`SubmitForm`) and the dashboard (`ViewDashboard`).
- `dashboard.dfy`, module `Dashboard` (src/components/ExpenseDashboard.tsx): the total
  and average, and the in-place stable sort of the array by date (`SortInPlace`, an
  insertion sort on `array<Expense>`). The sort is specified by the functional
  `SortByDate`. The chart points are computed from the sorted array.
- `form.dfy`, module `Form` (src/components/ExpenseForm.tsx): class `ExpenseForm` with the
  four field states, their change handlers, and the `handleSubmit` gate.
- `backend.dfy`, module `Backend` (backend/main.py): class `Storage`, which holds the
  module-level list. It has the four handlers: list, create, delete (a search loop plus
  `pop`) and export (a loop that builds the text).

Representation choices:

- Amounts are exact `real`s in place of JavaScript and Python floats; rounding is not
  modelled.
- Dates are `int` timestamps. Comparing dates compares the timestamps, as
  `new Date(...) >= from` and the sort comparator do.
- Ids are supplied by the caller, because `Math.random` and `uuid4` are not modelled.
- Formatting the model cannot see is a function-valued parameter:
  - `showAmount` is number-to-text (JavaScript's `String(number)` or Python's `str(float)`);
  - `showDate` is date-fns `format(..., "yyyy-MM-dd")` or Python's `str(datetime)`;
  - `formatLabel` is `format(..., "MMM d")`;
  - `parseAmount` is `parseFloat`.

  The CSV lemmas that read the text back require that the separator they split at occurs
  in no field. For lines (`CsvLines`, `ExportLines`, `ExportLineCount`), no title, no
  category and no formatter output may contain a newline. For fields (`CsvRowFields`), none
  of them may contain a comma.
- Toasts are values of the result: `Rejected(toast)` or `Submitted(expense, toast)`.

Behaviour worth knowing, as the code has it:

- The front-end delete removes every expense with the id and ignores an absent id. The
  back-end delete pops only the first match and answers 404 when there is none.
  `PopIsRemoveId` shows the two agree when ids are unique.
- The filter's date range restricts only when both bounds are set, and then it includes
  both ends.
- The front-end CSV joins its lines with `\n` and has no trailing newline. The back-end
  CSV ends every line, the last one included, with `\n`. `ExportIsFrontEndPlusNewline`
  proves that, given the same formatters, the back-end text is the front-end text plus one
  newline. The real formatters differ, though: the back end prints Python's `str` of the
  datetime (`2024-01-02 00:00:00`) and of the float (`5.0`), and the front end prints
  `yyyy-MM-dd` and JavaScript's `String` of the number (`5`). So the two texts also differ
  in their date and amount fields, and the lemma only relates their line structure.
  Neither side escapes commas or newlines inside fields.
- The dashboard is given the store's own array (src/pages/Index.tsx:114), and `.sort`
  reorders that array in place. So viewing the dashboard leaves the store sorted by date,
  and later exports and lists follow that order. `ViewDashboard` states this.
- The form checks only that each field is non-empty. Any amount text passes the gate,
  whatever its sign or size. The date field always holds a date in practice: the picker
  stores only a date it was given. It is still modelled as `Option<Date>`, so that the
  gate's `!date` test has something to test.

## Model

| member | source | states |
|---|---|---|
| Index.ExpenseStore.constructor | src/pages/Index.tsx:24 | the store starts with an empty list |
| Index.ExpenseStore.AddExpense | src/pages/Index.tsx:30-36 | the new list is the old list plus one record at the end, carrying the input's title, amount, date and category and the new id; if ids were unique and the id is fresh, they stay unique |
| Index.ExpenseStore.DeleteExpense | src/pages/Index.tsx:38-40 | the new list is the old list with every expense of that id removed; deleting an absent id leaves the list as it was |
| Index.RemoveIdSpec | src/pages/Index.tsx:39 | delete yields an order-preserving subsequence that contains no expense with the id; every expense with a different id occurs in it exactly as often as in the old list |
| Index.RemoveAbsentId | src/pages/Index.tsx:39 | deleting an id that no expense has returns the list unchanged |
| Index.AddThenDelete | src/pages/Index.tsx:30-40 | adding under a fresh id and then deleting that id gives back the original list |
| Index.ExpenseStore.SubmitForm | src/pages/Index.tsx:168-170 | a submission succeeds exactly when the form is complete. A rejection adds nothing and leaves the form's fields as they were. A success adds one expense at the end, built from the old title, parsed amount, date and category under the supplied id, and clears the form with the date reset to now |
| Index.ExpenseStore.ViewDashboard | src/pages/Index.tsx:113-115 | the dashboard's total and average are those of the list, and afterwards the store's own list is sorted by date, because the dashboard sorts the array it is handed |
| Index.MatchesSearchIff | src/pages/Index.tsx:67-69 | the search matches exactly when the lower-cased term occurs at some offset in the lower-cased title |
| Text.IncludesEmpty | src/pages/Index.tsx:67-69 | an empty search term matches every title |
| Index.MatchesIgnoreCase | src/pages/Index.tsx:67-72 | the search and the category comparison give the same answer whatever the case of the search term or the chosen category |
| Index.MatchesDateRangeInclusive | src/pages/Index.tsx:73-77 | with both bounds set, the date test holds exactly when from <= date <= to, with both ends included |
| Index.FilteredSpec | src/pages/Index.tsx:66-79 | the filtered list is an order-preserving subsequence of the expenses; it holds only matching expenses, and every matching expense occurs in it exactly as often as in the list |
| Index.FilteredIdempotent | src/pages/Index.tsx:66-79 | filtering the filtered list again with the same criteria returns it unchanged |
| Index.FilteredInactive | src/pages/Index.tsx:66-79 | with an empty search, no category and no complete date range, the filter returns the list unchanged |
| Index.CategoriesSpec | src/pages/Index.tsx:81-83 | the category list has no duplicates, holds every category in use, and holds nothing else |
| Index.CategoriesInFirstAppearanceOrder | src/pages/Index.tsx:81-83 | categories are listed in the order of their first appearance among the expenses |
| Index.CsvLines | src/pages/Index.tsx:43-54 | split at newlines, the export is exactly the header followed by one row per filtered expense, in order, with no trailing empty line, provided no field contains a newline |
| Index.CsvRowFields | src/pages/Index.tsx:47-52 | split at commas, a row is exactly title, amount, date and category, provided no field contains a comma |
| Index.CsvEmpty | src/pages/Index.tsx:43-54 | exporting no expenses yields exactly the header `Title,Amount,Date,Category` |
| Index.CsvSnoc | src/pages/Index.tsx:44-54 | one more expense appends a newline and its row to the export, and nothing more |
| Dashboard.AverageSpec | src/components/ExpenseDashboard.tsx:28-29 | with no expenses, the total and the average are 0; otherwise the average times the count gives back the total, so there is no division by zero |
| Dashboard.AverageBounds | src/components/ExpenseDashboard.tsx:29 | the average lies between any lower and upper bound of the amounts |
| Dashboard.TotalBounds | src/components/ExpenseDashboard.tsx:28 | the total lies between count * lo and count * hi when every amount lies in [lo, hi] |
| Dashboard.TotalConcat | src/components/ExpenseDashboard.tsx:28 | the total of two lists put together is the sum of their totals |
| Dashboard.SortInPlace | src/components/ExpenseDashboard.tsx:31-32 | the array it is given is sorted in place, and its new contents are the stable date order of its old contents |
| Dashboard.InsertStep | src/components/ExpenseDashboard.tsx:32 | one pass of the in-place sort inserts the next element into the sorted prefix and leaves the rest of the array alone |
| Dashboard.SortSorted | src/components/ExpenseDashboard.tsx:31-32 | after the sort, dates are non-decreasing |
| Dashboard.SortPermutes | src/components/ExpenseDashboard.tsx:31-32 | the sort is a permutation: the multiset of expenses is unchanged |
| Dashboard.SortStable | src/components/ExpenseDashboard.tsx:32 | the sort is stable: for every date, the expenses on that date keep their relative order |
| Dashboard.SortKeepsTotal | src/components/ExpenseDashboard.tsx:28-32 | sorting does not change the total |
| Dashboard.ChartData | src/components/ExpenseDashboard.tsx:31-36 | sorts the given array and returns one point per expense of the sorted array |
| Dashboard.ChartSpec | src/components/ExpenseDashboard.tsx:31-36 | the chart has exactly one point per expense, point i carries the amount of the i-th expense by date, and nothing is merged: the points add up to the total |
| Form.ExpenseForm.constructor | src/components/ExpenseForm.tsx:22-25 | the form starts with empty title, amount and category, and the date set to now |
| Form.ExpenseForm.SetTitle | src/components/ExpenseForm.tsx:67 | the title field takes the typed text, and no other field changes |
| Form.ExpenseForm.SetAmount | src/components/ExpenseForm.tsx:79 | the amount field takes the typed text as it is, unparsed, and no other field changes |
| Form.ExpenseForm.SetCategory | src/components/ExpenseForm.tsx:117 | the category field takes the typed text, and no other field changes |
| Form.ExpenseForm.SelectDate | src/components/ExpenseForm.tsx:105 | a picked date replaces the field, and a cleared pick leaves the field as it was |
| Form.ExpenseForm.HandleSubmit | src/components/ExpenseForm.tsx:28-55 | it submits exactly when all four fields are non-empty. A rejection reports the error toast and changes no field. A submission hands over the title, the parsed amount, the date and the category, reports success, and resets title, amount and category to empty and the date to now |
| Backend.Storage.constructor | backend/main.py:27-28 | the storage starts with an empty list |
| Backend.Storage.GetExpenses | backend/main.py:30-32 | returns the stored list in insertion order |
| Backend.Storage.CreateExpense | backend/main.py:34-38 | the record gets the new id and is returned; the list is the old list plus that record at the end |
| Backend.Storage.DeleteExpense | backend/main.py:40-45 | when an expense has the id, the first such expense is returned and removed, and the others stay in order; otherwise a 404 error is returned and the list is unchanged |
| Backend.FindId | backend/main.py:42-43 | finds the first index holding the id, or reports that no index holds it |
| Backend.PopIsRemoveId | backend/main.py:42-44 | when ids are unique, removing the first match is the same as the front end's remove-all-matches delete |
| Backend.Storage.ExportExpenses | backend/main.py:47-53 | returns the header line and then one newline-terminated row per expense, in list order, and does not change the list |
| Backend.ExportIsFrontEndPlusNewline | backend/main.py:50-52 | with the same formatters, the back-end export is the front-end export plus one trailing newline (the real formatters differ, see above) |
| Backend.ExportLines | backend/main.py:50-53 | split at newlines, the export is the header, one row per expense in order, and the empty piece after the final newline |
| Backend.ExportLineCount | backend/main.py:50-52 | the export holds count + 1 newlines, one for the header and one for each expense |
| Backend.ExportEmpty | backend/main.py:50 | the empty list exports exactly `Title,Amount,Date,Category\n` |

## Left out

- Rendering, JSX, styling, tabs, cards, the chart widget, animations, the theme toggle and
  the date-range picker widget: presentation only. The picker's value enters as
  `Index.Criteria`.
- src/components/ExpenseList.tsx is not part of this model. It only renders the list and
  forwards `onDelete(expense.id)`.
- The browser download in `exportToCSV` (`Blob`, object URL, link click) and the file name
  with today's date: I/O. The model stops at the CSV text.
- Formatting and parsing that live in other libraries: date-fns `format`, number-to-text,
  `toFixed(2)`, `parseFloat`, and Python's `str` of floats and datetimes. They are
  parameters, so a `NaN` from `parseFloat` is whatever `parseAmount` returns.
- Floating-point arithmetic: amounts are exact reals, so rounding in the sum and the
  average is not modelled.
- `toLowerCase` beyond ASCII: `Text.Lower` changes only `A`–`Z`. Other Unicode case
  mappings are not modelled.
- Id generation (`Math.random().toString(36)`, `uuid.uuid4()`): the id is a parameter.
  Freshness is not guaranteed by the code, so uniqueness appears only as a hypothesis
  (`AddExpense`'s conditional ensures, `AddThenDelete`, `PopIsRemoveId`).
- Index.ExpenseStore.ViewDashboard: in the source, the store state and the dashboard's
  array are the same object. The model copies the list into a fresh array, sorts it, and
  stores the result back. The resulting order is the same, but that one object has two
  references, and this aliasing is not represented.
- `Array.prototype.sort` is specified to be stable. The model sorts with an insertion
  sort, whose result is the unique stable order. The engine's own sorting algorithm is not
  modelled.
- FastAPI setup, CORS, async routing, request parsing into `Expense`, and `uvicorn`:
  framework plumbing. The handlers are methods of `Backend.Storage`.
- React's deferred state updates and re-rendering: each handler is one synchronous update
  of the state.
- The filter state (search term, category, date range) is a `Criteria` value passed to
  the functions. It is not a field with setters, because its setters only store the
  input.
