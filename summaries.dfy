/** Day summaries: the `{ date, expenses, budget, totalSpent, remaining }`
    records both history scans build, the newest-first sort they apply, and the
    totals the reports accumulate over them. */
module Summaries {
  import opened Common
  import opened Dates
  import opened Expenses

  datatype DaySummary = DaySummary(
    date: Date,
    expenses: seq<Entry>,
    budget: real,
    totalSpent: real,
    remaining: real)

  /** The summary of a day's list against a budget. */
  function Summarize(date: Date, expenses: seq<Entry>, budget: real): DaySummary {
    DaySummary(date, expenses, budget, Total(expenses), budget - Total(expenses))
  }

  /** A summary's derived fields agree with its list and budget. */
  predicate Consistent(day: DaySummary) {
    day.totalSpent == Total(day.expenses) && day.remaining == day.budget - day.totalSpent
  }

  /** `{ ...day, expenses, totalSpent, remaining: day.budget - totalSpent }`. */
  function Recompute(day: DaySummary, expenses: seq<Entry>): (r: DaySummary)
    ensures Consistent(r) && r.date == day.date && r.budget == day.budget && r.expenses == expenses
  {
    Summarize(day.date, expenses, day.budget)
  }

  /** Strictly newest first: every later position holds an older date. */
  predicate NewestFirst(days: seq<DaySummary>) {
    forall i, j :: 0 <= i < j < |days| ==> Newer(days[i].date, days[j].date)
  }

  /** Newest first, ties allowed. */
  predicate NewestFirstOrSame(days: seq<DaySummary>) {
    forall i, j :: 0 <= i < j < |days| ==> days[j].date.ordinal <= days[i].date.ordinal
  }

  predicate DistinctDates(days: seq<DaySummary>) {
    forall i, j :: 0 <= i < j < |days| ==> days[i].date != days[j].date
  }

  /** Stable insertion of `x` before the first day that is not newer than it. */
  function InsertNewestFirst(x: DaySummary, days: seq<DaySummary>): seq<DaySummary> {
    if days == [] then [x]
    else if days[0].date.ordinal <= x.date.ordinal then [x] + days
    else [days[0]] + InsertNewestFirst(x, days[1..])
  }

  /** `history.sort((a, b) => new Date(b.date) - new Date(a.date))`, as a
      stable sort. */
  function SortNewestFirst(days: seq<DaySummary>): seq<DaySummary> {
    if days == [] then [] else InsertNewestFirst(days[0], SortNewestFirst(days[1..]))
  }

  /** The members of a non-empty list: its head and the members of its tail. */
  lemma ConsMembers(days: seq<DaySummary>)
    requires days != []
    ensures forall z :: z in days <==> z == days[0] || z in days[1..]
  {
    assert days == [days[0]] + days[1..];
  }

  /** The tail of a newest-first list (ties allowed) is one too, and its head
      is no older than any day after it. */
  lemma OrSameTail(days: seq<DaySummary>)
    requires NewestFirstOrSame(days) && days != []
    ensures NewestFirstOrSame(days[1..])
    ensures forall y :: y in days[1..] ==> y.date.ordinal <= days[0].date.ordinal
  {
    var tail := days[1..];
    forall i, j | 0 <= i < j < |tail| ensures tail[j].date.ordinal <= tail[i].date.ordinal {
      assert tail[i] == days[i + 1] && tail[j] == days[j + 1];
    }
    forall y | y in tail ensures y.date.ordinal <= days[0].date.ordinal {
      var k :| 0 <= k < |tail| && tail[k] == y;
      assert days[k + 1] == y;
    }
  }

  lemma OrSameCons(d: DaySummary, rest: seq<DaySummary>)
    requires NewestFirstOrSame(rest)
    requires forall y :: y in rest ==> y.date.ordinal <= d.date.ordinal
    ensures NewestFirstOrSame([d] + rest)
  {
    var r := [d] + rest;
    forall i, j | 0 <= i < j < |r| ensures r[j].date.ordinal <= r[i].date.ordinal {
      assert r[j] == rest[j - 1];
      if i > 0 {
        assert r[i] == rest[i - 1];
      } else {
        assert rest[j - 1] in rest;
      }
    }
  }

  /** The tail of a strictly newest-first list is one too, and its head is
      newer than every day after it. */
  lemma StrictTail(days: seq<DaySummary>)
    requires NewestFirst(days) && days != []
    ensures NewestFirst(days[1..])
    ensures forall y :: y in days[1..] ==> Newer(days[0].date, y.date)
  {
    var tail := days[1..];
    forall i, j | 0 <= i < j < |tail| ensures Newer(tail[i].date, tail[j].date) {
      assert tail[i] == days[i + 1] && tail[j] == days[j + 1];
    }
    forall y | y in tail ensures Newer(days[0].date, y.date) {
      var k :| 0 <= k < |tail| && tail[k] == y;
      assert days[k + 1] == y;
    }
  }

  lemma StrictCons(d: DaySummary, rest: seq<DaySummary>)
    requires NewestFirst(rest)
    requires forall y :: y in rest ==> Newer(d.date, y.date)
    ensures NewestFirst([d] + rest)
  {
    var r := [d] + rest;
    forall i, j | 0 <= i < j < |r| ensures Newer(r[i].date, r[j].date) {
      assert r[j] == rest[j - 1];
      if i > 0 {
        assert r[i] == rest[i - 1];
      } else {
        assert rest[j - 1] in rest;
      }
    }
  }

  /** The members of an insertion: the inserted day and the old ones. */
  lemma {:induction false} InsertMembers(x: DaySummary, days: seq<DaySummary>)
    ensures forall y :: y in InsertNewestFirst(x, days) <==> y == x || y in days
  {
    if days != [] {
      ConsMembers(days);
      if x.date.ordinal < days[0].date.ordinal {
        InsertMembers(x, days[1..]);
      }
    }
  }

  lemma {:induction false} InsertPermutes(x: DaySummary, days: seq<DaySummary>)
    ensures multiset(InsertNewestFirst(x, days)) == multiset(days) + multiset{x}
  {
    if days != [] && x.date.ordinal < days[0].date.ordinal {
      var r := InsertNewestFirst(x, days[1..]);
      InsertPermutes(x, days[1..]);
      assert InsertNewestFirst(x, days) == [days[0]] + r;
      assert multiset([days[0]] + r) == multiset{days[0]} + multiset(r);
      assert days == [days[0]] + days[1..];
      assert multiset(days) == multiset{days[0]} + multiset(days[1..]);
    }
  }

  lemma {:induction false} SortPermutes(days: seq<DaySummary>)
    ensures multiset(SortNewestFirst(days)) == multiset(days)
  {
    if days != [] {
      SortPermutes(days[1..]);
      InsertPermutes(days[0], SortNewestFirst(days[1..]));
      assert days == [days[0]] + days[1..];
    }
  }

  lemma {:induction false} InsertSorted(x: DaySummary, days: seq<DaySummary>)
    requires NewestFirstOrSame(days)
    ensures NewestFirstOrSame(InsertNewestFirst(x, days))
  {
    if days != [] {
      OrSameTail(days);
      if x.date.ordinal < days[0].date.ordinal {
        InsertSorted(x, days[1..]);
        InsertMembers(x, days[1..]);
        OrSameCons(days[0], InsertNewestFirst(x, days[1..]));
      } else {
        ConsMembers(days);
        OrSameCons(x, days);
      }
    }
  }

  lemma {:induction false} SortSorted(days: seq<DaySummary>)
    ensures NewestFirstOrSame(SortNewestFirst(days))
  {
    if days != [] {
      SortSorted(days[1..]);
      InsertSorted(days[0], SortNewestFirst(days[1..]));
    }
  }

  /** The sort returns a permutation of its input (same elements, same
      multiplicities), ordered newest first; when no two input days share a
      date, the order is strict. */
  lemma SortSpec(days: seq<DaySummary>)
    ensures multiset(SortNewestFirst(days)) == multiset(days)
    ensures |SortNewestFirst(days)| == |days|
    ensures forall x :: x in SortNewestFirst(days) <==> x in days
    ensures DistinctDates(days) ==> NewestFirst(SortNewestFirst(days))
  {
    SortPermutes(days);
    SortSorted(days);
    var r := SortNewestFirst(days);
    assert |multiset(r)| == |multiset(days)|;
    forall x ensures x in r <==> x in days {
      assert x in r <==> x in multiset(r);
      assert x in days <==> x in multiset(days);
    }
    if DistinctDates(days) {
      forall i, j | 0 <= i < j < |r| ensures Newer(r[i].date, r[j].date) {
        if r[i].date == r[j].date {
          PermutationKeepsDistinct(days, r, i, j);
        }
      }
    }
  }

  /** Two positions of a permutation of a date-distinct list carry different dates. */
  lemma PermutationKeepsDistinct(days: seq<DaySummary>, r: seq<DaySummary>, i: nat, j: nat)
    requires multiset(r) == multiset(days) && DistinctDates(days)
    requires i < j < |r|
    ensures r[i].date != r[j].date
  {
    if r[i].date == r[j].date {
      assert r[i] in multiset(days) && r[j] in multiset(days);
      var a :| 0 <= a < |days| && days[a] == r[i];
      var b :| 0 <= b < |days| && days[b] == r[j];
      if a == b {
        // r holds the same value at two positions, days holds it once.
        var x := r[i];
        assert r == r[..i] + [x] + r[i + 1..];
        assert r[i + 1..] == r[i + 1..j] + [x] + r[j + 1..];
        assert multiset(r)[x] >= 2;
        OnceInDistinct(days, a);
        assert false;
      }
    }
  }

  lemma OnceInDistinct(days: seq<DaySummary>, a: nat)
    requires DistinctDates(days) && a < |days|
    ensures multiset(days)[days[a]] == 1
  {
    var x := days[a];
    assert days == days[..a] + [x] + days[a + 1..];
    assert x !in days[..a] by {
      forall k | 0 <= k < a ensures days[..a][k] != x {
        assert days[..a][k] == days[k];
      }
    }
    var tail := days[a + 1..];
    assert x !in tail by {
      forall k | 0 <= k < |tail| ensures tail[k] != x {
        assert tail[k] == days[a + 1 + k];
      }
    }
  }

  /** The report's grand total: the sum of the days' `totalSpent`. */
  function SumSpent(days: seq<DaySummary>): real {
    if days == [] then 0.0 else days[0].totalSpent + SumSpent(days[1..])
  }

  /** The report's transaction count: the sum of the days' list lengths. */
  function TransactionCount(days: seq<DaySummary>): nat {
    if days == [] then 0 else |days[0].expenses| + TransactionCount(days[1..])
  }

  lemma {:induction false} SumsConcat(a: seq<DaySummary>, b: seq<DaySummary>)
    ensures SumSpent(a + b) == SumSpent(a) + SumSpent(b)
    ensures TransactionCount(a + b) == TransactionCount(a) + TransactionCount(b)
  {
    if a == [] {
      assert a + b == b;
    } else {
      assert (a + b)[0] == a[0];
      assert (a + b)[1..] == a[1..] + b;
      SumsConcat(a[1..], b);
    }
  }

  lemma {:induction false} InsertSums(x: DaySummary, days: seq<DaySummary>)
    ensures SumSpent(InsertNewestFirst(x, days)) == x.totalSpent + SumSpent(days)
    ensures TransactionCount(InsertNewestFirst(x, days)) == |x.expenses| + TransactionCount(days)
  {
    if days != [] && x.date.ordinal < days[0].date.ordinal {
      InsertSums(x, days[1..]);
      assert ([days[0]] + InsertNewestFirst(x, days[1..]))[1..] == InsertNewestFirst(x, days[1..]);
    } else if days != [] {
      assert ([x] + days)[1..] == days;
    }
  }

  /** Sorting changes neither the grand total nor the transaction count. */
  lemma {:induction false} SortSums(days: seq<DaySummary>)
    ensures SumSpent(SortNewestFirst(days)) == SumSpent(days)
    ensures TransactionCount(SortNewestFirst(days)) == TransactionCount(days)
  {
    if days != [] {
      SortSums(days[1..]);
      InsertSums(days[0], SortNewestFirst(days[1..]));
    }
  }

  /** The first day in the list with a given date. */
  function DayWithDate(days: seq<DaySummary>, date: Date): Option<DaySummary> {
    if days == [] then None
    else if days[0].date == date then Some(days[0])
    else DayWithDate(days[1..], date)
  }

  lemma {:induction false} DayWithDateAt(days: seq<DaySummary>, date: Date, i: nat)
    requires i < |days| && days[i].date == date
    requires forall j :: 0 <= j < i ==> days[j].date != date
    ensures DayWithDate(days, date) == Some(days[i])
  {
    if i > 0 {
      DayWithDateAt(days[1..], date, i - 1);
    }
  }

  lemma {:induction false} DayWithDateNone(days: seq<DaySummary>, date: Date)
    requires forall j :: 0 <= j < |days| ==> days[j].date != date
    ensures DayWithDate(days, date) == None
  {
    if days != [] {
      DayWithDateNone(days[1..], date);
    }
  }

  /** One day under the history screens' `day.date === date ? … : day`: the day
      with the date gets the edit applied to its list and its totals recomputed
      against its own budget; any other day is kept as it is. */
  function EditDay(day: DaySummary, date: Date, edit: ListEdit): DaySummary {
    if day.date == date then Recompute(day, ApplyEdit(edit, day.expenses)) else day
  }

  /** `historyData.map(day => day.date === date ? … : day)`. */
  function MapDay(days: seq<DaySummary>, date: Date, edit: ListEdit): (r: seq<DaySummary>)
    ensures |r| == |days|
  {
    seq(|days|, i requires 0 <= i < |days| => EditDay(days[i], date, edit))
  }

  /** `.filter(day => day.expenses.length > 0)`. */
  function DropEmpty(days: seq<DaySummary>): seq<DaySummary> {
    if days == [] then []
    else (if |days[0].expenses| > 0 then [days[0]] else []) + DropEmpty(days[1..])
  }

  /** Mapping one day keeps every date and budget in place and every other day
      unchanged, so the newest-first order and the consistency of every summary
      carry over. */
  lemma MapDayPreserves(days: seq<DaySummary>, date: Date, edit: ListEdit)
    ensures var r := MapDay(days, date, edit);
      && (forall i :: 0 <= i < |days| ==> r[i].date == days[i].date && r[i].budget == days[i].budget)
      && (forall i :: 0 <= i < |days| && days[i].date != date ==> r[i] == days[i])
      && (NewestFirst(days) ==> NewestFirst(r))
      && ((forall i :: 0 <= i < |days| ==> Consistent(days[i])) ==> forall i :: 0 <= i < |r| ==> Consistent(r[i]))
  {
    var r := MapDay(days, date, edit);
    forall i | 0 <= i < |days| ensures r[i].date == days[i].date && r[i].budget == days[i].budget {
      assert r[i] == EditDay(days[i], date, edit);
    }
  }

  /** Dropping empty days keeps exactly the non-empty ones, in order. */
  lemma {:induction false} DropEmptySpec(days: seq<DaySummary>)
    ensures forall x :: x in DropEmpty(days) <==> x in days && |x.expenses| > 0
    ensures NewestFirst(days) ==> NewestFirst(DropEmpty(days))
  {
    if days != [] {
      DropEmptySpec(days[1..]);
      ConsMembers(days);
      var rest := DropEmpty(days[1..]);
      assert DropEmpty(days) == (if |days[0].expenses| > 0 then [days[0]] else []) + rest;
      if NewestFirst(days) {
        StrictTail(days);
        if |days[0].expenses| > 0 {
          StrictCons(days[0], rest);
        } else {
          assert DropEmpty(days) == rest;
        }
      }
    }
  }

  /** A list with no empty day is left as it is by the filter. */
  lemma {:induction false} DropEmptyKeepsAll(days: seq<DaySummary>)
    requires forall i :: 0 <= i < |days| ==> |days[i].expenses| > 0
    ensures DropEmpty(days) == days
  {
    if days != [] {
      assert |days[0].expenses| > 0;
      DropEmptyKeepsAll(days[1..]);
    }
  }

  lemma FirstIsMember(b: seq<DaySummary>)
    ensures b == [] || b[0] in b
  {
  }

  /** A strictly newest-first list is determined by its elements: two such
      lists with the same members are equal. */
  lemma {:induction false} NewestFirstUnique(a: seq<DaySummary>, b: seq<DaySummary>)
    requires NewestFirst(a) && NewestFirst(b)
    requires forall x :: x in a <==> x in b
    ensures a == b
    decreases |a|
  {
    if a == [] {
      FirstIsMember(b);
    } else {
      assert a[0] in b;
      var j :| 0 <= j < |b| && b[j] == a[0];
      assert b[0] in a;
      var i :| 0 <= i < |a| && a[i] == b[0];
      assert a[0] == b[0];
      StrictTail(a);
      StrictTail(b);
      ConsMembers(a);
      ConsMembers(b);
      NewestFirstUnique(a[1..], b[1..]);
      assert a == [a[0]] + a[1..] && b == [b[0]] + b[1..];
    }
  }

  /** A strictly newest-first list never holds a date twice. */
  lemma NewestFirstDistinct(days: seq<DaySummary>)
    requires NewestFirst(days)
    ensures DistinctDates(days)
  {
    forall i, j | 0 <= i < j < |days| ensures days[i].date != days[j].date {
      assert Newer(days[i].date, days[j].date);
    }
  }

  /** Sorting a list that is already strictly newest first leaves it as it is. */
  lemma SortKeepsSorted(days: seq<DaySummary>)
    requires NewestFirst(days)
    ensures SortNewestFirst(days) == days
  {
    NewestFirstDistinct(days);
    SortSpec(days);
    NewestFirstUnique(SortNewestFirst(days), days);
  }
}
