/** The Python back end (backend/main.py): the module-level `expenses`
    list and its four handlers, list, create, delete and CSV export. */
module Backend {
  import opened ExpenseModel
  import opened Sequences
  import Index

  /** The HTTP error a handler raises. */
  datatype HttpError = HttpError(status: int, detail: string)

  const NotFound: HttpError := HttpError(404, "Expense not found")

  /** `"Title,Amount,Date,Category\n"`. */
  const HeaderLine: string := Index.CsvHeader + "\n"

  /** The in-memory storage: one list, changed in place by the handlers. */
  class Storage {
    var expenses: seq<Expense>

    /** The list starts out empty. */
    constructor ()
      ensures expenses == []
    {
      expenses := [];
    }

    /** `get_expenses`: the list, in insertion order. */
    method GetExpenses() returns (r: seq<Expense>)
      ensures r == expenses
    {
      r := expenses;
    }

    /** `create_expense`: overwrites the posted id with a new one (uuid4,
        supplied here as `freshId`), appends the record and returns it. */
    method CreateExpense(posted: Expense, freshId: string) returns (created: Expense)
      modifies this
      ensures created == posted.(id := freshId)
      ensures expenses == old(expenses) + [created]
    {
      created := posted.(id := freshId);
      expenses := expenses + [created];
    }

    /** `delete_expense`: scans for the first expense with this id, pops it
        and returns it; raises 404 when there is none. */
    method DeleteExpense(expenseId: string) returns (r: Result<Expense, HttpError>)
      modifies this
      ensures match FindId(old(expenses), expenseId)
        case Some(i) => r == Ok(old(expenses)[i]) && expenses == old(expenses)[..i] + old(expenses)[i + 1..]
        case None => r == Err(NotFound) && expenses == old(expenses)
    {
      var i := 0;
      while i < |expenses|
        invariant 0 <= i <= |expenses|
        invariant expenses == old(expenses)
        invariant forall k :: 0 <= k < i ==> expenses[k].id != expenseId
      {
        if expenses[i].id == expenseId {
          FindIdFirst(expenses, expenseId, i);
          r := Ok(expenses[i]);
          expenses := expenses[..i] + expenses[i + 1..];
          return;
        }
        i := i + 1;
      }
      r := Err(NotFound);
    }

    /** `export_expenses`: the header line, then one line per expense, each
        ending in a newline. Reads the list and leaves it as it is. */
    method ExportExpenses(showAmount: Amount -> string, showDate: Date -> string) returns (csv: string)
      ensures csv == ExportText(expenses, showAmount, showDate)
    {
      csv := HeaderLine;
      var i := 0;
      while i < |expenses|
        invariant 0 <= i <= |expenses|
        invariant csv == HeaderLine + Body(expenses[..i], showAmount, showDate)
      {
        assert expenses[..i + 1][..i] == expenses[..i];
        csv := csv + Row(expenses[i], showAmount, showDate) + "\n";
        i := i + 1;
      }
      assert expenses[..i] == expenses;
    }
  }

  /** The index of the first expense with identifier `id`, if any. */
  function FindId(s: seq<Expense>, id: string): (r: Option<nat>)
    ensures r.Some? ==> r.value < |s| && s[r.value].id == id &&
                        forall k :: 0 <= k < r.value ==> s[k].id != id
    ensures r.None? ==> forall k :: 0 <= k < |s| ==> s[k].id != id
  {
    if s == [] then None
    else if s[0].id == id then Some(0)
    else match FindId(s[1..], id)
      case None => None
      case Some(i) => Some(i + 1)
  }

  /** An index with this id and none before it is what FindId finds. */
  lemma FindIdFirst(s: seq<Expense>, id: string, i: nat)
    requires i < |s| && s[i].id == id
    requires forall k :: 0 <= k < i ==> s[k].id != id
    ensures FindId(s, id) == Some(i)
  {
  }

  /** One exported line (main.py:52): title, amount, date and category as
      Python prints them, separated by commas, without escaping. */
  function Row(e: Expense, showAmount: Amount -> string, showDate: Date -> string): string
  {
    e.title + "," + showAmount(e.amount) + "," + showDate(e.date) + "," + e.category
  }

  /** The lines of `s`, each with its newline, as the loop accumulates them. */
  function Body(s: seq<Expense>, showAmount: Amount -> string, showDate: Date -> string): string
  {
    if s == [] then "" else Body(s[..|s| - 1], showAmount, showDate) + Row(s[|s| - 1], showAmount, showDate) + "\n"
  }

  /** The `csv` field of the export response. */
  function ExportText(s: seq<Expense>, showAmount: Amount -> string, showDate: Date -> string): string
  {
    HeaderLine + Body(s, showAmount, showDate)
  }

  /** A back-end line is the front end's comma-joined row. */
  lemma RowIsJoin(e: Expense, showAmount: Amount -> string, showDate: Date -> string)
    ensures Row(e, showAmount, showDate) == Index.CsvRow(e, showAmount, showDate)
  {
    var f := [e.title, showAmount(e.amount), showDate(e.date), e.category];
    assert Join(f[3..], ',') == e.category;
    assert Join(f[2..], ',') == f[2] + [','] + Join(f[3..], ',');
    assert Join(f[1..], ',') == f[1] + [','] + Join(f[2..], ',');
  }

  /** With the same formatters, the back-end export is the front-end export
      plus one newline: every line, the last included, is terminated. */
  lemma {:induction false} ExportIsFrontEndPlusNewline(s: seq<Expense>, showAmount: Amount -> string, showDate: Date -> string)
    ensures ExportText(s, showAmount, showDate) == Index.CsvText(s, showAmount, showDate) + "\n"
  {
    if s == [] {
      Index.CsvEmpty(showAmount, showDate);
    } else {
      var n := |s| - 1;
      ExportIsFrontEndPlusNewline(s[..n], showAmount, showDate);
      RowIsJoin(s[n], showAmount, showDate);
      assert s == s[..n] + [s[n]];
      Index.CsvSnoc(s[..n], s[n], showAmount, showDate);
    }
  }

  /** Read back line by line, the export is the header, one row per expense
      in list order, and the empty piece after the final newline. */
  lemma ExportLines(s: seq<Expense>, showAmount: Amount -> string, showDate: Date -> string)
    requires Index.NoNewlines(s, showAmount, showDate)
    ensures Split(ExportText(s, showAmount, showDate), '\n') == [Index.CsvHeader] + Index.CsvRows(s, showAmount, showDate) + [""]
  {
    var lines := [Index.CsvHeader] + Index.CsvRows(s, showAmount, showDate);
    ExportIsFrontEndPlusNewline(s, showAmount, showDate);
    JoinSnoc(lines, "", '\n');
    assert Index.CsvText(s, showAmount, showDate) + "\n" == Join(lines + [""], '\n');
    Index.CsvLines(s, showAmount, showDate);
    forall k | 0 <= k < |lines + [""]| ensures '\n' !in (lines + [""])[k] {
      if k < |lines| {
        assert (lines + [""])[k] in Split(Index.CsvText(s, showAmount, showDate), '\n');
      }
    }
    SplitJoin(lines + [""], '\n');
  }

  /** The export holds one newline per expense plus the header's: count + 1 lines. */
  lemma {:induction false} ExportLineCount(s: seq<Expense>, showAmount: Amount -> string, showDate: Date -> string)
    requires Index.NoNewlines(s, showAmount, showDate)
    ensures Count(ExportText(s, showAmount, showDate), '\n') == |s| + 1
  {
    BodyLineCount(s, showAmount, showDate);
    CountConcat(HeaderLine, Body(s, showAmount, showDate), '\n');
    HeaderLineCount();
  }

  lemma HeaderLineCount()
    ensures Count(HeaderLine, '\n') == 1
  {
    Index.HeaderHasNoNewline();
    CountAbsent(Index.CsvHeader, '\n');
    CountConcat(Index.CsvHeader, "\n", '\n');
  }

  lemma {:induction false} BodyLineCount(s: seq<Expense>, showAmount: Amount -> string, showDate: Date -> string)
    requires Index.NoNewlines(s, showAmount, showDate)
    ensures Count(Body(s, showAmount, showDate), '\n') == |s|
  {
    if s != [] {
      var n := |s| - 1;
      var e := s[n];
      assert Index.NoNewlines(s[..n], showAmount, showDate);
      BodyLineCount(s[..n], showAmount, showDate);
      RowIsJoin(e, showAmount, showDate);
      Index.RowNoNewline(e, showAmount, showDate);
      CountAbsent(Row(e, showAmount, showDate), '\n');
      CountConcat(Body(s[..n], showAmount, showDate) + Row(e, showAmount, showDate), "\n", '\n');
      CountConcat(Body(s[..n], showAmount, showDate), Row(e, showAmount, showDate), '\n');
    }
  }

  /** The empty list exports exactly the header line. */
  lemma ExportEmpty(showAmount: Amount -> string, showDate: Date -> string)
    ensures ExportText([], showAmount, showDate) == "Title,Amount,Date,Category\n"
  {
  }

  /** With unique ids, popping the first match is the front end's delete,
      which removes every match. */
  lemma PopIsRemoveId(s: seq<Expense>, id: string, i: nat)
    requires UniqueIds(s)
    requires FindId(s, id) == Some(i)
    ensures s[..i] + s[i + 1..] == Index.RemoveId(s, id)
  {
    var before, after := s[..i], s[i + 1..];
    assert s == before + [s[i]] + after;
    forall k | 0 <= k < |after| ensures after[k].id != id {
      assert after[k] == s[i + 1 + k];
    }
    KeepDropsOne(before, s[i], after, (e: Expense) => e.id != id);
  }
}
