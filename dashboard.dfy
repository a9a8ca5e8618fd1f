/** The dashboard (src/components/ExpenseDashboard.tsx): total and average
    of the amounts, and the trend series, built by sorting the expense array
    it is given by date, in place and stably, and mapping each expense to a
    labelled point. */
module Dashboard {
  import opened ExpenseModel
  import opened Sequences

  // ------------------------------------------------------ total, average

  /** The sum of the amounts, added up from the left (ExpenseDashboard.tsx:28). */
  function Total(s: seq<Expense>): Amount
  {
    if s == [] then 0.0 else Total(s[..|s| - 1]) + s[|s| - 1].amount
  }

  /** The total divided by the count when there are expenses, else 0
      (ExpenseDashboard.tsx:29). */
  function Average(s: seq<Expense>): Amount
  {
    if |s| > 0 then Total(s) / |s| as real else 0.0
  }

  /** The total of a concatenation is the sum of the totals. */
  lemma {:induction false} TotalConcat(a: seq<Expense>, b: seq<Expense>)
    ensures Total(a + b) == Total(a) + Total(b)
    decreases |b|
  {
    if b != [] {
      assert (a + b)[..|a + b| - 1] == a + b[..|b| - 1];
      TotalConcat(a, b[..|b| - 1]);
    } else {
      assert a + b == a;
    }
  }

  /** The total lies between count * lo and count * hi when every amount does. */
  lemma {:induction false} TotalBounds(s: seq<Expense>, lo: Amount, hi: Amount)
    requires forall i :: 0 <= i < |s| ==> lo <= s[i].amount <= hi
    ensures |s| as real * lo <= Total(s) <= |s| as real * hi
  {
    if s != [] {
      var n := |s| - 1;
      TotalBounds(s[..n], lo, hi);
      assert |s| as real * lo == n as real * lo + lo;
      assert |s| as real * hi == n as real * hi + hi;
    }
  }

  /** The average never divides by zero: it is 0 for no expenses, and
      otherwise times the count gives back the total. */
  lemma AverageSpec(s: seq<Expense>)
    ensures s == [] ==> Average(s) == 0.0 && Total(s) == 0.0
    ensures s != [] ==> Average(s) * |s| as real == Total(s)
  {
  }

  /** The average lies between the smallest and the largest amount. */
  lemma AverageBounds(s: seq<Expense>, lo: Amount, hi: Amount)
    requires s != []
    requires forall i :: 0 <= i < |s| ==> lo <= s[i].amount <= hi
    ensures lo <= Average(s) <= hi
  {
    TotalBounds(s, lo, hi);
    var n := |s| as real;
    assert Average(s) * n == Total(s);
  }

  // ----------------------------------------------------- the stable sort

  /** Non-decreasing by date. */
  ghost predicate SortedByDate(s: seq<Expense>)
  {
    forall i, j :: 0 <= i < j < |s| ==> s[i].date <= s[j].date
  }

  /** Insert `x` after every element of `s` whose date is not later than its own:
      one step of a stable insertion sort, scanning from the right. */
  function Insert(s: seq<Expense>, x: Expense): seq<Expense>
  {
    if s == [] || s[|s| - 1].date <= x.date then s + [x]
    else Insert(s[..|s| - 1], x) + [s[|s| - 1]]
  }

  /** The order `Array.prototype.sort` leaves with the date comparator: the
      stable sort by date. */
  function SortByDate(s: seq<Expense>): seq<Expense>
  {
    if s == [] then [] else Insert(SortByDate(s[..|s| - 1]), s[|s| - 1])
  }

  /** The expenses of `s` on date `d`, in order. */
  function OnDate(s: seq<Expense>, d: Date): seq<Expense>
  {
    Keep(s, (e: Expense) => e.date == d)
  }

  lemma {:induction false} InsertPermutes(s: seq<Expense>, x: Expense)
    ensures multiset(Insert(s, x)) == multiset(s) + multiset{x}
  {
    if !(s == [] || s[|s| - 1].date <= x.date) {
      var n := |s| - 1;
      InsertPermutes(s[..n], x);
      assert s == s[..n] + [s[n]];
    }
  }

  /** Inserting keeps every date at or below a common bound. */
  lemma {:induction false} InsertBounded(s: seq<Expense>, x: Expense, bound: Date)
    requires forall k :: 0 <= k < |s| ==> s[k].date <= bound
    requires x.date <= bound
    ensures forall k :: 0 <= k < |Insert(s, x)| ==> Insert(s, x)[k].date <= bound
  {
    if !(s == [] || s[|s| - 1].date <= x.date) {
      InsertBounded(s[..|s| - 1], x, bound);
    }
  }

  lemma {:induction false} InsertSorted(s: seq<Expense>, x: Expense)
    requires SortedByDate(s)
    ensures SortedByDate(Insert(s, x))
  {
    if !(s == [] || s[|s| - 1].date <= x.date) {
      var n := |s| - 1;
      InsertSorted(s[..n], x);
      InsertBounded(s[..n], x, s[n].date);
    }
  }

  /** Inserting keeps the per-date order, putting `x` last among its date. */
  lemma {:induction false} InsertOnDate(s: seq<Expense>, x: Expense, d: Date)
    ensures OnDate(Insert(s, x), d) == OnDate(s, d) + (if x.date == d then [x] else [])
  {
    var p := (e: Expense) => e.date == d;
    if s == [] || s[|s| - 1].date <= x.date {
      KeepConcat(s, [x], p);
    } else {
      var n := |s| - 1;
      InsertOnDate(s[..n], x, d);
      KeepConcat(Insert(s[..n], x), [s[n]], p);
      assert s == s[..n] + [s[n]];
      KeepConcat(s[..n], [s[n]], p);
    }
  }

  /** The sort orders by date. */
  lemma {:induction false} SortSorted(s: seq<Expense>)
    ensures SortedByDate(SortByDate(s))
  {
    if s != [] {
      SortSorted(s[..|s| - 1]);
      InsertSorted(SortByDate(s[..|s| - 1]), s[|s| - 1]);
    }
  }

  /** The sort rearranges: it neither adds, drops nor duplicates an expense. */
  lemma {:induction false} SortPermutes(s: seq<Expense>)
    ensures multiset(SortByDate(s)) == multiset(s)
  {
    if s != [] {
      var n := |s| - 1;
      SortPermutes(s[..n]);
      InsertPermutes(SortByDate(s[..n]), s[n]);
      assert s == s[..n] + [s[n]];
    }
  }

  /** The sort is stable: the expenses of any one date keep their relative order. */
  lemma {:induction false} SortStable(s: seq<Expense>, d: Date)
    ensures OnDate(SortByDate(s), d) == OnDate(s, d)
  {
    if s != [] {
      var n := |s| - 1;
      SortStable(s[..n], d);
      InsertOnDate(SortByDate(s[..n]), s[n], d);
      assert s == s[..n] + [s[n]];
      KeepConcat(s[..n], [s[n]], (e: Expense) => e.date == d);
    }
  }

  /** Sorting does not change the total. */
  lemma {:induction false} SortKeepsTotal(s: seq<Expense>)
    ensures Total(SortByDate(s)) == Total(s)
  {
    if s != [] {
      var n := |s| - 1;
      SortKeepsTotal(s[..n]);
      InsertKeepsTotal(SortByDate(s[..n]), s[n]);
    }
  }

  lemma {:induction false} InsertKeepsTotal(s: seq<Expense>, x: Expense)
    ensures Total(Insert(s, x)) == Total(s) + x.amount
  {
    if !(s == [] || s[|s| - 1].date <= x.date) {
      var n := |s| - 1;
      InsertKeepsTotal(s[..n], x);
      var r := Insert(s[..n], x);
      assert (r + [s[n]])[..|r|] == r;
      assert s[..n] + [s[n]] == s;
    } else {
      assert (s + [x])[..|s|] == s;
    }
  }

  /** Insertion where every element from `j` on is later than `x` and the one
      before `j` is not: `x` lands at position `j`. */
  lemma {:induction false} InsertAt(s: seq<Expense>, x: Expense, j: nat)
    requires j <= |s|
    requires j > 0 ==> s[j - 1].date <= x.date
    requires forall k :: j <= k < |s| ==> s[k].date > x.date
    ensures Insert(s, x) == s[..j] + [x] + s[j..]
    decreases |s|
  {
    if |s| == j {
      assert s[..j] == s && s[j..] == [];
    } else {
      var n := |s| - 1;
      InsertAt(s[..n], x, j);
      assert s[..n][..j] == s[..j];
      assert s[..n][j..] + [s[n]] == s[j..];
    }
  }

  /** One pass of the insertion sort: with `a[..i]` already sorted, moves
      `a[i]` left past every later-dated element. */
  method InsertStep(a: array<Expense>, i: nat)
    requires i < a.Length
    modifies a
    ensures a[..i + 1] == Insert(old(a[..i]), old(a[i]))
    ensures a[i + 1..] == old(a[i + 1..])
  {
    ghost var before := a[..];
    ghost var sorted := a[..i];
    var x := a[i];
    var j := i;
    while j > 0 && a[j - 1].date > x.date
      invariant 0 <= j <= i
      invariant forall k :: 0 <= k < j ==> a[k] == before[k]
      invariant forall k :: j < k <= i ==> a[k] == before[k - 1]
      invariant forall k :: i < k < a.Length ==> a[k] == before[k]
      invariant forall k :: j <= k < i ==> before[k].date > x.date
    {
      a[j] := a[j - 1];
      j := j - 1;
    }
    a[j] := x;
    ghost var after := a[..];
    ShiftedInsert(before, after, i, j);
    InsertAt(sorted, x, j);
  }

  /** The sequence facts behind one pass: the prefix up to `i` is the old
      prefix with the old `before[i]` put at `j`, and the rest is untouched. */
  lemma ShiftedInsert(before: seq<Expense>, after: seq<Expense>, i: nat, j: nat)
    requires j <= i < |before| == |after|
    requires forall k :: 0 <= k < j ==> after[k] == before[k]
    requires after[j] == before[i]
    requires forall k :: j < k <= i ==> after[k] == before[k - 1]
    requires forall k :: i < k < |after| ==> after[k] == before[k]
    ensures after[..i + 1] == before[..i][..j] + [before[i]] + before[..i][j..]
    ensures after[i + 1..] == before[i + 1..]
  {
  }

  /** Sorting one element more inserts that element into the sorted prefix. */
  lemma SortByDateSnoc(s: seq<Expense>, i: nat)
    requires i < |s|
    ensures SortByDate(s[..i + 1]) == Insert(SortByDate(s[..i]), s[i])
  {
    assert s[..i + 1][..i] == s[..i];
  }

  /** The sort at ExpenseDashboard.tsx:32, which compares the two dates'
      timestamps: sorts the caller's array in place, stably, by date (here
      by an insertion sort). */
  method SortInPlace(a: array<Expense>)
    modifies a
    ensures a[..] == SortByDate(old(a[..]))
  {
    ghost var original := a[..];
    var i := 0;
    while i < a.Length
      invariant 0 <= i <= a.Length
      invariant a[..i] == SortByDate(original[..i])
      invariant a[i..] == original[i..]
    {
      ghost var before := a[..];
      assert before[..i] == SortByDate(original[..i]) && before[i] == original[i];
      assert before[i + 1..] == original[i + 1..];
      SortByDateSnoc(original, i);
      InsertStep(a, i);
      i := i + 1;
    }
    assert a[..] == a[..a.Length] && original[..a.Length] == original;
  }

  // ------------------------------------------------------------ the chart

  /** One point of the trend chart: the formatted date label and the amount. */
  datatype ChartPoint = ChartPoint(dateLabel: string, amount: Amount)

  /** `.map(...)`: one point per expense, in order, labels by the supplied
      `MMM d` date formatter. */
  function Points(s: seq<Expense>, formatLabel: Date -> string): seq<ChartPoint>
  {
    seq(|s|, i requires 0 <= i < |s| => ChartPoint(formatLabel(s[i].date), s[i].amount))
  }

  /** `chartData`: sorts the array it is given (the store's own array) and
      maps it to points. */
  method ChartData(a: array<Expense>, formatLabel: Date -> string) returns (points: seq<ChartPoint>)
    modifies a
    ensures a[..] == SortByDate(old(a[..]))
    ensures points == Points(a[..], formatLabel)
  {
    SortInPlace(a);
    points := Points(a[..], formatLabel);
  }

  /** The sum of the chart's amounts. */
  function PointsTotal(p: seq<ChartPoint>): Amount
  {
    if p == [] then 0.0 else PointsTotal(p[..|p| - 1]) + p[|p| - 1].amount
  }

  /** The chart has one point per expense, point `i` carries the amount of the
      `i`-th expense by date, and nothing is merged: the points add up to the total. */
  lemma ChartSpec(s: seq<Expense>, formatLabel: Date -> string)
    ensures |Points(SortByDate(s), formatLabel)| == |s|
    ensures forall i :: 0 <= i < |s| ==> Points(SortByDate(s), formatLabel)[i].amount == SortByDate(s)[i].amount
    ensures PointsTotal(Points(SortByDate(s), formatLabel)) == Total(s)
  {
    SortPermutes(s);
    assert |SortByDate(s)| == |multiset(SortByDate(s))| == |s|;
    PointsKeepTotal(SortByDate(s), formatLabel);
    SortKeepsTotal(s);
  }

  lemma {:induction false} PointsKeepTotal(s: seq<Expense>, formatLabel: Date -> string)
    ensures PointsTotal(Points(s, formatLabel)) == Total(s)
  {
    if s != [] {
      var n := |s| - 1;
      PointsKeepTotal(s[..n], formatLabel);
      assert Points(s, formatLabel)[..n] == Points(s[..n], formatLabel);
    }
  }
}
