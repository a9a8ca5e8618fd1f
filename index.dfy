/** The page component of the web front end (src/pages/Index.tsx): the
    expense store held in component state, the search/category/date-range
    filter, the category list and the CSV text of the export button. */
module Index {
  import opened ExpenseModel
  import opened Sequences
  import opened Text
  import Form
  import Dashboard

  /** The date-range picker's value: either bound may be unset. */
  datatype DateRange = DateRange(from: Option<Date>, to: Option<Date>)

  /** The filter state: search box, category select ("" is "All Categories")
      and the optional date range. */
  datatype Criteria = Criteria(searchTerm: string, category: string, dateRange: Option<DateRange>)

  // ---------------------------------------------------------------- store

  /** The `expenses` state. Every update builds a new list (an array spread
      on add, `filter` on delete), so the state is a sequence value. */
  class ExpenseStore {
    var expenses: seq<Expense>

    /** The state starts out empty. */
    constructor ()
      ensures expenses == []
    {
      expenses := [];
    }

    /** `handleAddExpense`: the input plus a freshly generated id, appended
        at the end. The id generator is random and not modelled: `id` is
        supplied, and uniqueness is kept only when it is indeed fresh. */
    method AddExpense(input: ExpenseInput, id: string)
      modifies this
      ensures expenses == old(expenses) + [WithId(input, id)]
      ensures UniqueIds(old(expenses)) && id !in IdsOf(old(expenses)) ==> UniqueIds(expenses)
    {
      expenses := expenses + [WithId(input, id)];
    }

    /** `handleDeleteExpense`: drops every expense with this id; an absent
        id is no error. */
    method DeleteExpense(id: string)
      modifies this
      ensures expenses == RemoveId(old(expenses), id)
      ensures id !in IdsOf(old(expenses)) ==> expenses == old(expenses)
    {
      RemoveAbsentId(expenses, id);
      expenses := RemoveId(expenses, id);
    }

    /** The add tab (Index.tsx:169), where the form's submit handler
        calls the add handler. A rejected submission adds nothing and leaves
        the form as it was; an accepted one adds exactly the expense made
        from the old form fields, under the supplied id, and clears the form. */
    method SubmitForm(form: Form.ExpenseForm, now: Date, parseAmount: string -> Amount, id: string)
      returns (outcome: Form.SubmitOutcome)
      modifies this, form
      ensures outcome.Submitted? <==> Form.Complete(old(form.title), old(form.amount), old(form.date), old(form.category))
      ensures outcome.Rejected? ==> expenses == old(expenses)
      ensures outcome.Rejected? ==>
        form.title == old(form.title) && form.amount == old(form.amount) &&
        form.date == old(form.date) && form.category == old(form.category)
      ensures outcome.Submitted? ==>
        outcome.expense == ExpenseInput(old(form.title), parseAmount(old(form.amount)), old(form.date).value, old(form.category)) &&
        expenses == old(expenses) + [WithId(outcome.expense, id)] &&
        form.title == "" && form.amount == "" && form.date == Some(now) && form.category == ""
    {
      outcome := form.HandleSubmit(now, parseAmount);
      if outcome.Submitted? {
        AddExpense(outcome.expense, id);
      }
    }

    /** The dashboard tab (Index.tsx:113-115), which hands this state to the
        dashboard component. The dashboard sorts the array it is handed, and that array is this
        state, so viewing the dashboard leaves the store sorted by date. */
    method ViewDashboard(formatLabel: Date -> string)
      returns (total: Amount, average: Amount, points: seq<Dashboard.ChartPoint>)
      modifies this
      ensures total == Dashboard.Total(old(expenses)) && average == Dashboard.Average(old(expenses))
      ensures expenses == Dashboard.SortByDate(old(expenses))
      ensures points == Dashboard.Points(expenses, formatLabel)
    {
      var s := expenses;
      total, average := Dashboard.Total(s), Dashboard.Average(s);
      var a := new Expense[|s|](i requires 0 <= i < |s| => s[i]);
      assert a[..] == s;
      points := Dashboard.ChartData(a, formatLabel);
      expenses := a[..];
    }
  }

  /** The set of identifiers used in `s`. */
  function IdsOf(s: seq<Expense>): set<string>
  {
    set i | 0 <= i < |s| :: s[i].id
  }

  /** The delete handler's update (Index.tsx:39): keep the expenses whose
      id differs from `id`. */
  function RemoveId(s: seq<Expense>, id: string): seq<Expense>
  {
    Keep(s, (e: Expense) => e.id != id)
  }

  /** Delete keeps exactly the elements with other ids, in their old order. */
  lemma RemoveIdSpec(s: seq<Expense>, id: string)
    ensures IsSubsequence(RemoveId(s, id), s)
    ensures forall i :: 0 <= i < |RemoveId(s, id)| ==> RemoveId(s, id)[i].id != id
    ensures forall i :: 0 <= i < |s| && s[i].id != id ==> s[i] in RemoveId(s, id)
    ensures forall x: Expense :: multiset(RemoveId(s, id))[x] == if x.id != id then multiset(s)[x] else 0
  {
    KeepIsSubsequence(s, (e: Expense) => e.id != id);
    KeepMembers(s, (e: Expense) => e.id != id);
    forall x: Expense ensures multiset(RemoveId(s, id))[x] == if x.id != id then multiset(s)[x] else 0 {
      KeepMultiset(s, (e: Expense) => e.id != id, x);
    }
  }

  /** Deleting an id nobody has changes nothing. */
  lemma RemoveAbsentId(s: seq<Expense>, id: string)
    ensures id !in IdsOf(s) ==> RemoveId(s, id) == s
  {
    if id !in IdsOf(s) {
      KeepAll(s, (e: Expense) => e.id != id);
    }
  }

  /** Adding an expense under a fresh id and deleting that id restores the store. */
  lemma AddThenDelete(s: seq<Expense>, input: ExpenseInput, id: string)
    requires id !in IdsOf(s)
    ensures RemoveId(s + [WithId(input, id)], id) == s
  {
    var p := (e: Expense) => e.id != id;
    KeepConcat(s, [WithId(input, id)], p);
    KeepAll(s, p);
  }

  // --------------------------------------------------------------- filter

  /** `matchesSearch`: the lowered search term occurs in the lowered title. */
  predicate MatchesSearch(e: Expense, term: string)
  {
    Includes(Lower(e.title), Lower(term))
  }

  /** `matchesCategory`: no category selected, or equal up to case. */
  predicate MatchesCategory(e: Expense, category: string)
  {
    category == "" || Lower(e.category) == Lower(category)
  }

  /** `matchesDateRange`: only a range with both ends set restricts, and then
      both ends are inclusive. */
  predicate MatchesDateRange(e: Expense, range: Option<DateRange>)
  {
    match range
    case None => true
    case Some(DateRange(from, to)) =>
      from.None? || to.None? || (from.value <= e.date && e.date <= to.value)
  }

  /** The three criteria joined by AND. */
  predicate Matches(e: Expense, c: Criteria)
  {
    MatchesSearch(e, c.searchTerm) && MatchesCategory(e, c.category) && MatchesDateRange(e, c.dateRange)
  }

  /** `filteredExpenses`. */
  function Filtered(s: seq<Expense>, c: Criteria): seq<Expense>
  {
    Keep(s, (e: Expense) => Matches(e, c))
  }

  /** The search matches exactly when the lowered term is a window of the lowered title. */
  lemma MatchesSearchIff(e: Expense, term: string)
    ensures MatchesSearch(e, term) <==> exists i :: OccursAt(Lower(e.title), Lower(term), i)
  {
  }

  /** Both comparisons lower-case both sides, so the case the user types
      the search term or picks the category in makes no difference. */
  lemma MatchesIgnoreCase(e: Expense, term: string, category: string)
    ensures MatchesSearch(e, Lower(term)) == MatchesSearch(e, term)
    ensures MatchesCategory(e, Lower(category)) == MatchesCategory(e, category)
  {
    LowerIdempotent(term);
    LowerIdempotent(category);
  }

  /** A range with both bounds set holds exactly on the closed interval. */
  lemma MatchesDateRangeInclusive(e: Expense, from: Date, to: Date)
    ensures MatchesDateRange(e, Some(DateRange(Some(from), Some(to)))) <==> from <= e.date <= to
  {
  }

  /** The filter keeps exactly the matching elements, in their original order. */
  lemma FilteredSpec(s: seq<Expense>, c: Criteria)
    ensures IsSubsequence(Filtered(s, c), s)
    ensures forall i :: 0 <= i < |Filtered(s, c)| ==> Matches(Filtered(s, c)[i], c)
    ensures forall i :: 0 <= i < |s| && Matches(s[i], c) ==> s[i] in Filtered(s, c)
    ensures forall x: Expense :: multiset(Filtered(s, c))[x] == if Matches(x, c) then multiset(s)[x] else 0
  {
    KeepIsSubsequence(s, (e: Expense) => Matches(e, c));
    KeepMembers(s, (e: Expense) => Matches(e, c));
    forall x: Expense ensures multiset(Filtered(s, c))[x] == if Matches(x, c) then multiset(s)[x] else 0 {
      KeepMultiset(s, (e: Expense) => Matches(e, c), x);
    }
  }

  /** Filtering the filtered list again with the same criteria changes nothing. */
  lemma FilteredIdempotent(s: seq<Expense>, c: Criteria)
    ensures Filtered(Filtered(s, c), c) == Filtered(s, c)
  {
    KeepIdempotent(s, (e: Expense) => Matches(e, c));
  }

  /** No criteria in force: empty search, no category, and a range missing a bound. */
  predicate Inactive(c: Criteria)
  {
    c.searchTerm == "" && c.category == "" &&
    (c.dateRange.None? || c.dateRange.value.from.None? || c.dateRange.value.to.None?)
  }

  /** With no criteria in force the filter returns the whole list unchanged. */
  lemma FilteredInactive(s: seq<Expense>, c: Criteria)
    requires Inactive(c)
    ensures Filtered(s, c) == s
  {
    forall i | 0 <= i < |s| ensures Matches(s[i], c) {
      IncludesEmpty(Lower(s[i].title));
    }
    KeepAll(s, (e: Expense) => Matches(e, c));
  }

  // ----------------------------------------------------------- categories

  /** The category of every expense, in order. */
  function CategoryColumn(s: seq<Expense>): seq<string>
  {
    seq(|s|, i requires 0 <= i < |s| => s[i].category)
  }

  /** `categories`: the distinct categories in order of first appearance. */
  function Categories(s: seq<Expense>): seq<string>
  {
    Distinct(CategoryColumn(s))
  }

  /** Every category appears once, and exactly the categories in use appear. */
  lemma CategoriesSpec(s: seq<Expense>)
    ensures NoDuplicates(Categories(s))
    ensures forall i :: 0 <= i < |s| ==> s[i].category in Categories(s)
    ensures forall k :: 0 <= k < |Categories(s)| ==> exists i :: 0 <= i < |s| && s[i].category == Categories(s)[k]
  {
    var col := CategoryColumn(s);
    forall i | 0 <= i < |s| ensures s[i].category in Categories(s) {
      assert col[i] == s[i].category;
    }
    forall k | 0 <= k < |Categories(s)|
      ensures exists i :: 0 <= i < |s| && s[i].category == Categories(s)[k]
    {
      var i := FirstIndex(col, Categories(s)[k]);
      assert s[i].category == Categories(s)[k];
    }
  }

  /** The categories are listed in the order in which they first appear. */
  lemma CategoriesInFirstAppearanceOrder(s: seq<Expense>, i: nat, j: nat)
    requires i < j < |Categories(s)|
    ensures Categories(s)[i] in CategoryColumn(s) && Categories(s)[j] in CategoryColumn(s)
    ensures FirstIndex(CategoryColumn(s), Categories(s)[i]) < FirstIndex(CategoryColumn(s), Categories(s)[j])
  {
    DistinctFirstOccurrenceOrder(CategoryColumn(s), i, j);
  }

  // ------------------------------------------------------------------ CSV

  const CsvHeader: string := "Title,Amount,Date,Category"

  lemma HeaderHasNoNewline()
    ensures '\n' !in CsvHeader
  {
  }

  /** One exported row: title, amount, date as `yyyy-MM-dd` and category,
      joined by commas without escaping. The number-to-text conversion and
      the date formatter are supplied. */
  function CsvRow(e: Expense, showAmount: Amount -> string, showDate: Date -> string): string
  {
    Join([e.title, showAmount(e.amount), showDate(e.date), e.category], ',')
  }

  /** The rows of `s`, in order. */
  function CsvRows(s: seq<Expense>, showAmount: Amount -> string, showDate: Date -> string): seq<string>
  {
    seq(|s|, i requires 0 <= i < |s| => CsvRow(s[i], showAmount, showDate))
  }

  /** The export text of `exportToCSV`: header and rows joined by newlines. */
  function CsvText(s: seq<Expense>, showAmount: Amount -> string, showDate: Date -> string): string
  {
    Join([CsvHeader] + CsvRows(s, showAmount, showDate), '\n')
  }

  /** What the export button exports: the CSV text of the filtered list. */
  function ExportCsv(s: seq<Expense>, c: Criteria, showAmount: Amount -> string, showDate: Date -> string): string
  {
    CsvText(Filtered(s, c), showAmount, showDate)
  }

  /** No newline in any field of any expense of `s`, whatever the formatters print. */
  predicate NoNewlines(s: seq<Expense>, showAmount: Amount -> string, showDate: Date -> string)
  {
    forall i :: 0 <= i < |s| ==>
      '\n' !in s[i].title && '\n' !in s[i].category &&
      '\n' !in showAmount(s[i].amount) && '\n' !in showDate(s[i].date)
  }

  /** A row holds a newline only where one of its fields does. */
  lemma RowNoNewline(e: Expense, showAmount: Amount -> string, showDate: Date -> string)
    requires '\n' !in e.title && '\n' !in e.category
    requires '\n' !in showAmount(e.amount) && '\n' !in showDate(e.date)
    ensures '\n' !in CsvRow(e, showAmount, showDate)
  {
    JoinAvoids([e.title, showAmount(e.amount), showDate(e.date), e.category], ',', '\n');
  }

  /** Read back line by line, the export is the header followed by one row
      per expense, in order: nothing more, nothing less. */
  lemma CsvLines(s: seq<Expense>, showAmount: Amount -> string, showDate: Date -> string)
    requires NoNewlines(s, showAmount, showDate)
    ensures Split(CsvText(s, showAmount, showDate), '\n') == [CsvHeader] + CsvRows(s, showAmount, showDate)
  {
    var lines := [CsvHeader] + CsvRows(s, showAmount, showDate);
    forall k | 0 <= k < |lines| ensures '\n' !in lines[k] {
      if k > 0 {
        RowNoNewline(s[k - 1], showAmount, showDate);
      }
    }
    SplitJoin(lines, '\n');
  }

  /** Read back field by field, a row is its four fields, provided none holds a comma. */
  lemma CsvRowFields(e: Expense, showAmount: Amount -> string, showDate: Date -> string)
    requires ',' !in e.title && ',' !in e.category
    requires ',' !in showAmount(e.amount) && ',' !in showDate(e.date)
    ensures Split(CsvRow(e, showAmount, showDate), ',') == [e.title, showAmount(e.amount), showDate(e.date), e.category]
  {
    SplitJoin([e.title, showAmount(e.amount), showDate(e.date), e.category], ',');
  }

  /** Exporting an empty list yields the header and nothing else. */
  lemma CsvEmpty(showAmount: Amount -> string, showDate: Date -> string)
    ensures CsvText([], showAmount, showDate) == CsvHeader
  {
    assert [CsvHeader] + CsvRows([], showAmount, showDate) == [CsvHeader];
  }

  /** One expense more adds a newline and its row at the end. */
  lemma CsvSnoc(s: seq<Expense>, e: Expense, showAmount: Amount -> string, showDate: Date -> string)
    ensures CsvText(s + [e], showAmount, showDate)
         == CsvText(s, showAmount, showDate) + "\n" + CsvRow(e, showAmount, showDate)
  {
    var lines := [CsvHeader] + CsvRows(s, showAmount, showDate);
    assert [CsvHeader] + CsvRows(s + [e], showAmount, showDate) == lines + [CsvRow(e, showAmount, showDate)];
    JoinSnoc(lines, CsvRow(e, showAmount, showDate), '\n');
  }
}
