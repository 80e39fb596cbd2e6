/** `src/components/ExpenseHistory.jsx`: the history screen. It rebuilds the
    per-day summaries from the store itself (budget fallback 1000), edits and
    deletes single expenses of a shown day while writing that day's key
    directly, expands and collapses days, and clears the date-scoped keys. */
module ExpenseHistoryScreen {
  import opened Common
  import opened Dates
  import opened Expenses
  import opened Summaries
  import opened Store
  import opened StorageUtils

  /** The budget a day without a stored budget is shown with: the literal
      `'1000'` of the scan, not the configured default budget. */
  const HistoryBudget: real := 1000.0

  /** Every `expenses_` key among `ks` holds a text that `JSON.parse` reads. */
  predicate AllListsParse(ks: seq<string>, items: map<string, Value>) {
    forall k :: k in ks && StartsWith(k, ExpensesPrefix) ==> ReadList(Lookup(items, k)).Some?
  }

  // -------------------------------------------------------------- expansion

  /** The expanded set after `toggleDayExpansion(date)`. */
  function Toggled(s: set<Date>, d: Date): set<Date> {
    if d in s then s - {d} else s + {d}
  }

  /** A toggle flips the membership of its own date and of no other, so
      toggling the same date twice gives the set back. */
  lemma ToggleSpec(s: set<Date>, d: Date, e: Date)
    ensures d in Toggled(s, d) <==> d !in s
    ensures e != d ==> (e in Toggled(s, d) <==> e in s)
    ensures Toggled(Toggled(s, d), d) == s
  {
  }

  // ----------------------------------------------------------- day lookups

  lemma {:induction false} DayWithDateConcat(a: seq<DaySummary>, b: seq<DaySummary>, date: Date)
    ensures DayWithDate(a + b, date) == if DayWithDate(a, date).Some? then DayWithDate(a, date) else DayWithDate(b, date)
  {
    if a == [] {
      assert a + b == b;
    } else {
      assert (a + b)[0] == a[0];
      assert (a + b)[1..] == a[1..] + b;
      DayWithDateConcat(a[1..], b, date);
    }
  }

  /** In a list of distinct dates, the day found in the first `i + 1` days is
      day `i` when it has the date, else the one found in the first `i`. */
  lemma DayWithDateSnoc(days: seq<DaySummary>, i: nat, date: Date)
    requires DistinctDates(days) && i < |days|
    ensures DayWithDate(days[..i + 1], date) ==
      if days[i].date == date then Some(days[i]) else DayWithDate(days[..i], date)
    ensures days[i].date == date ==> DayWithDate(days[..i], date) == None
  {
    assert days[..i + 1] == days[..i] + [days[i]];
    DayWithDateConcat(days[..i], [days[i]], date);
    assert DayWithDate([days[i]], date) == if days[i].date == date then Some(days[i]) else None;
    if days[i].date == date {
      forall j | 0 <= j < i ensures days[..i][j].date != date {
        assert days[..i][j] == days[j];
      }
      DayWithDateNone(days[..i], date);
    }
  }

  lemma {:induction false} DayWithDateIn(days: seq<DaySummary>, date: Date)
    requires DayWithDate(days, date).Some?
    ensures DayWithDate(days, date).value in days
    ensures DayWithDate(days, date).value.date == date
  {
    if days[0].date != date {
      DayWithDateIn(days[1..], date);
    }
  }

  // ------------------------------------------------------------ edit writes

  /** The store after an edit handler ran over `days`: the day with the date,
      if one is shown, has its edited list written under its key. */
  function EditWrites(items: map<string, Value>, days: seq<DaySummary>, date: Date, edit: ListEdit): map<string, Value> {
    match DayWithDate(days, date)
    case None => items
    case Some(day) => items[ExpensesKey(date) := Records(ApplyEdit(edit, day.expenses))]
  }

  function EditKeys(keys: seq<string>, days: seq<DaySummary>, date: Date): seq<string> {
    if DayWithDate(days, date).Some? then WithKey(keys, ExpensesKey(date)) else keys
  }

  /** How the writes of the first `i + 1` days follow from those of the
      first `i`, in a list of distinct dates: only the day with the date
      writes, and nothing was written before it. */
  lemma EditWritesStep(items: map<string, Value>, keys: seq<string>, days: seq<DaySummary>, i: nat, date: Date, edit: ListEdit)
    requires DistinctDates(days) && i < |days|
    ensures days[i].date == date ==>
      && EditWrites(items, days[..i], date, edit) == items
      && EditKeys(keys, days[..i], date) == keys
      && EditWrites(items, days[..i + 1], date, edit) == items[ExpensesKey(date) := Records(ApplyEdit(edit, days[i].expenses))]
      && EditKeys(keys, days[..i + 1], date) == WithKey(keys, ExpensesKey(date))
    ensures days[i].date != date ==>
      && EditWrites(items, days[..i + 1], date, edit) == EditWrites(items, days[..i], date, edit)
      && EditKeys(keys, days[..i + 1], date) == EditKeys(keys, days[..i], date)
  {
    DayWithDateSnoc(days, i, date);
  }

  /** A write to the expenses key of `d` changes what is stored for `d` and
      for no other date. */
  lemma StoredDayAfterWrite(items: map<string, Value>, d: Date, es: seq<Entry>, e: Date, fallback: real)
    ensures StoredDay(items[ExpensesKey(d) := Records(es)], e, fallback) ==
      if e == d then (if |es| > 0 then Some(Summarize(d, es, ReadNumber(Lookup(items, BudgetKey(d)), fallback))) else None)
      else StoredDay(items, e, fallback)
  {
    KeysInjective(d, e);
    KeysInjective(d, d);
  }

  /** What the edit and delete handlers show agrees with a reload: in a
      history just rebuilt from the store, editing a shown day (and dropping
      the days left empty) gives exactly the history rebuilt from the store
      after the handler's write. The write adds no key. */
  lemma EditAgreesWithReload(keys: seq<string>, items: map<string, Value>, date: Date, edit: ListEdit)
    requires NoDuplicates(keys) && WellKeyed(items)
    requires DayWithDate(History(keys, items, HistoryBudget), date).Some?
    ensures var h := History(keys, items, HistoryBudget);
      && EditKeys(keys, h, date) == keys
      && DropEmpty(MapDay(h, date, edit)) == History(keys, EditWrites(items, h, date, edit), HistoryBudget)
  {
    var h := History(keys, items, HistoryBudget);
    var day := DayWithDate(h, date).value;
    var edited := ApplyEdit(edit, day.expenses);
    var after := items[ExpensesKey(date) := Records(edited)];
    HistoryMembers(keys, items, HistoryBudget);
    DayWithDateIn(h, date);
    WellKeyedWrite(items, ExpensesKey(date), Records(edited));
    HistoryMembers(keys, after, HistoryBudget);
    var m := MapDay(h, date, edit);
    var lhs := DropEmpty(m);
    var rhs := History(keys, after, HistoryBudget);
    MapDayPreserves(h, date, edit);
    DropEmptySpec(m);
    forall x ensures x in lhs ==> x in rhs {
      if x in lhs {
        ShownDayReloads(keys, items, date, edit, x);
      }
    }
    forall x ensures x in rhs ==> x in lhs {
      if x in rhs {
        ReloadedDayShown(keys, items, date, edit, x);
      }
    }
    NewestFirstUnique(lhs, rhs);
  }

  /** Membership in a rebuilt history, for one summary. */
  lemma InHistory(keys: seq<string>, items: map<string, Value>, x: DaySummary)
    requires NoDuplicates(keys) && WellKeyed(items)
    ensures x in History(keys, items, HistoryBudget) <==>
      ExpensesKey(x.date) in keys && StoredDay(items, x.date, HistoryBudget) == Some(x)
  {
    HistoryMembers(keys, items, HistoryBudget);
  }

  /** One direction of `EditAgreesWithReload`: a day the handler shows is
      rebuilt by a reload. */
  lemma ShownDayReloads(keys: seq<string>, items: map<string, Value>, date: Date, edit: ListEdit, x: DaySummary)
    requires NoDuplicates(keys) && WellKeyed(items)
    requires DayWithDate(History(keys, items, HistoryBudget), date).Some?
    requires x in DropEmpty(MapDay(History(keys, items, HistoryBudget), date, edit))
    ensures var h := History(keys, items, HistoryBudget);
      x in History(keys, EditWrites(items, h, date, edit), HistoryBudget)
  {
    var h := History(keys, items, HistoryBudget);
    var day := DayWithDate(h, date).value;
    var edited := ApplyEdit(edit, day.expenses);
    var after := items[ExpensesKey(date) := Records(edited)];
    assert EditWrites(items, h, date, edit) == after;
    DayWithDateIn(h, date);
    var m := MapDay(h, date, edit);
    DropEmptySpec(m);
    assert x in m && |x.expenses| > 0;
    var i :| 0 <= i < |m| && m[i] == x;
    assert h[i] in h;
    InHistory(keys, items, h[i]);
    WellKeyedWrite(items, ExpensesKey(date), Records(edited));
    InHistory(keys, after, x);
    StoredDayAfterWrite(items, date, edited, h[i].date, HistoryBudget);
    if h[i].date == date {
      InHistory(keys, items, day);
      assert h[i] == day;
      assert x == EditDay(day, date, edit);
    } else {
      assert x == h[i];
    }
  }

  /** The other direction: a day a reload rebuilds is one the handler shows. */
  lemma ReloadedDayShown(keys: seq<string>, items: map<string, Value>, date: Date, edit: ListEdit, x: DaySummary)
    requires NoDuplicates(keys) && WellKeyed(items)
    requires DayWithDate(History(keys, items, HistoryBudget), date).Some?
    requires x in History(keys, EditWrites(items, History(keys, items, HistoryBudget), date, edit), HistoryBudget)
    ensures x in DropEmpty(MapDay(History(keys, items, HistoryBudget), date, edit))
  {
    var h := History(keys, items, HistoryBudget);
    var day := DayWithDate(h, date).value;
    var edited := ApplyEdit(edit, day.expenses);
    var after := items[ExpensesKey(date) := Records(edited)];
    assert EditWrites(items, h, date, edit) == after;
    DayWithDateIn(h, date);
    WellKeyedWrite(items, ExpensesKey(date), Records(edited));
    InHistory(keys, after, x);
    var m := MapDay(h, date, edit);
    DropEmptySpec(m);
    StoredDayAfterWrite(items, date, edited, x.date, HistoryBudget);
    if x.date == date {
      InHistory(keys, items, day);
      var i :| 0 <= i < |h| && h[i] == day;
      assert m[i] == EditDay(day, date, edit);
      assert m[i] == x;
    } else {
      InHistory(keys, items, x);
      var i :| 0 <= i < |h| && h[i] == x;
      assert m[i] == x;
    }
  }

  /** An edit of amount and description keeps every list at its length, so
      the filter that the delete handler applies would drop no day. */
  lemma UpdateDropsNoDay(days: seq<DaySummary>, date: Date, id: int, patch: Entry)
    requires forall i :: 0 <= i < |days| ==> |days[i].expenses| > 0
    ensures DropEmpty(MapDay(days, date, UpdateEntry(id, patch))) == MapDay(days, date, UpdateEntry(id, patch))
  {
    var m := MapDay(days, date, UpdateEntry(id, patch));
    forall i | 0 <= i < |m| ensures |m[i].expenses| > 0 {
      assert m[i] == EditDay(days[i], date, UpdateEntry(id, patch));
    }
    DropEmptyKeepsAll(m);
  }

  /** After `startNewDay` removed today's two keys, today reads as an empty
      list with the default budget and has no summary; every other date
      reads as before. */
  lemma NewDayEffect(items: map<string, Value>, today: Date, other: Date, fallback: real)
    ensures var after := items - {ExpensesKey(today), BudgetKey(today)};
      && LoadExpensesFromDate(after, today) == []
      && LoadBudgetFromDate(after, today) == GetDefaultBudget(items)
      && StoredDay(after, today, fallback) == None
      && (other != today ==>
            && LoadExpensesFromDate(after, other) == LoadExpensesFromDate(items, other)
            && LoadBudgetFromDate(after, other) == LoadBudgetFromDate(items, other)
            && StoredDay(after, other, fallback) == StoredDay(items, other, fallback))
  {
    KeysInjective(today, other);
    KeysInjective(other, today);
    PreferenceKeysUnscoped(today);
    assert DefaultBudgetKey in PreferenceKeys;
  }

  // -------------------------------------------------------------- the screen

  /** The expense being edited and the day it belongs to. */
  datatype EditTarget = EditTarget(id: Option<int>, date: Date)

  class ExpenseHistory {
    const store: LocalStorage
    var historyData: seq<DaySummary>
    var expandedDays: set<Date>
    var editingExpense: Option<EditTarget>
    var editAmount: AmountField
    var editDescription: string

    /** The store is well formed and well keyed, and the shown history is
        strictly newest first with every summary's totals up to date. */
    ghost predicate Valid()
      reads this, store
    {
      && store.Valid() && WellKeyed(store.items)
      && NewestFirst(historyData)
      && forall i :: 0 <= i < |historyData| ==> Consistent(historyData[i])
    }

    constructor (store: LocalStorage)
      requires store.Valid() && WellKeyed(store.items)
      ensures Valid() && this.store == store
      ensures historyData == [] && expandedDays == {}
      ensures editingExpense == None && editAmount == Blank && editDescription == ""
    {
      this.store := store;
      historyData := [];
      expandedDays := {};
      editingExpense := None;
      editAmount := Blank;
      editDescription := "";
    }

    /** The body of `loadHistoryData`'s loop for one key. `parsed` is false
        when the key's list cannot be parsed (`JSON.parse` throws). The budget
        is read from `budget_` followed by the key's own date text. */
    method VisitHistoryKey(key: string) returns (parsed: bool, pushed: seq<DaySummary>)
      requires store.Valid() && WellKeyed(store.items)
      ensures parsed <==> !StartsWith(key, ExpensesPrefix) || ReadList(store.GetItem(key)).Some?
      ensures parsed ==> pushed == Found(DayOf(store.items, key, HistoryBudget))
    {
      parsed, pushed := true, [];
      if StartsWith(key, ExpensesPrefix) {
        var date := key[|ExpensesPrefix|..];
        var list := ReadList(store.GetItem(key));
        if list.None? {
          return false, [];
        }
        var expenses := list.value;
        var budget := ReadNumber(store.GetItem(BudgetPrefix + date), HistoryBudget);
        if |expenses| > 0 {
          assert key in store.items;
          var d := ParseDate(date).value;
          assert BudgetPrefix + date == BudgetKey(d);
          var totalSpent := Total(expenses);
          pushed := [DaySummary(d, expenses, budget, totalSpent, budget - totalSpent)];
        }
      }
    }

    /** `loadHistoryData()`: one summary per `expenses_` key with a non-empty
        list, newest first. When some such list cannot be parsed the scan
        throws and the shown history stays as it was. */
    method LoadHistoryData() returns (ok: bool)
      requires Valid()
      modifies this
      ensures Valid()
      ensures ok <==> AllListsParse(store.keys, store.items)
      ensures ok ==> historyData == History(store.keys, store.items, HistoryBudget)
      ensures !ok ==> historyData == old(historyData)
      ensures expandedDays == old(expandedDays) && editingExpense == old(editingExpense)
      ensures editAmount == old(editAmount) && editDescription == old(editDescription)
    {
      var keys := store.keys;
      var history: seq<DaySummary> := [];
      var i := 0;
      while i < |keys|
        invariant 0 <= i <= |keys|
        invariant unchanged(this)
        invariant history == Collect(keys[..i], store.items, HistoryBudget)
        invariant forall j :: 0 <= j < i && StartsWith(keys[j], ExpensesPrefix) ==>
          ReadList(Lookup(store.items, keys[j])).Some?
      {
        var parsed, pushed := VisitHistoryKey(keys[i]);
        if !parsed {
          assert keys[i] in keys;
          return false;
        }
        history := history + pushed;
        CollectStep(keys, i, store.items, HistoryBudget);
        i := i + 1;
      }
      assert keys[..|keys|] == keys;
      assert AllListsParse(keys, store.items) by {
        forall k | k in keys && StartsWith(k, ExpensesPrefix) ensures ReadList(Lookup(store.items, k)).Some? {
          var j :| 0 <= j < |keys| && keys[j] == k;
        }
      }
      HistoryMembers(keys, store.items, HistoryBudget);
      HistoryEntries(keys, store.items, HistoryBudget);
      historyData := SortNewestFirst(history);
      ok := true;
    }

    /** `toggleDayExpansion(date)`. */
    method ToggleDayExpansion(date: Date)
      modifies this
      ensures expandedDays == Toggled(old(expandedDays), date)
      ensures historyData == old(historyData) && editingExpense == old(editingExpense)
      ensures editAmount == old(editAmount) && editDescription == old(editDescription)
    {
      if date in expandedDays {
        expandedDays := expandedDays - {date};
      } else {
        expandedDays := expandedDays + {date};
      }
    }

    /** `startEditExpense(expense, date)`. An expense on screen has a numeric
        amount (the day list renders it with `toLocaleString`, which throws on a
        missing amount). */
    method StartEditExpense(e: Entry, date: Date)
      requires e.amount.Some?
      modifies this
      ensures editingExpense == Some(EditTarget(e.id, date)) && editAmount == Entered(e.amount.value)
      ensures editDescription == (if e.description.Some? then e.description.value else "")
      ensures historyData == old(historyData) && expandedDays == old(expandedDays)
    {
      editingExpense := Some(EditTarget(e.id, date));
      editAmount := Entered(e.amount.value);
      editDescription := if e.description.Some? then e.description.value else "";
    }

    /** `cancelEditExpense()`. */
    method CancelEditExpense()
      modifies this
      ensures editingExpense == None && editAmount == Blank && editDescription == ""
      ensures historyData == old(historyData) && expandedDays == old(expandedDays)
    {
      editingExpense := None;
      editAmount := Blank;
      editDescription := "";
    }

    /** The map callback for one day: the day with the date gets the edit
        applied to its list, which is written under its key, and its totals
        recomputed against its own budget; any other day is returned as it
        is. */
    method EditOne(day: DaySummary, date: Date, edit: ListEdit) returns (shown: DaySummary, ok: bool)
      requires store.Valid() && WellKeyed(store.items)
      modifies store
      ensures store.Valid() && WellKeyed(store.items)
      ensures shown == EditDay(day, date, edit)
      ensures day.date == date && ok ==>
        && store.items == old(store.items)[ExpensesKey(date) := Records(ApplyEdit(edit, day.expenses))]
        && store.keys == WithKey(old(store.keys), ExpensesKey(date))
      ensures day.date != date ==> ok
      ensures day.date != date || !ok ==> store.items == old(store.items) && store.keys == old(store.keys)
    {
      shown, ok := day, true;
      if day.date == date {
        var edited := ApplyEdit(edit, day.expenses);
        WellKeyedWrite(store.items, ExpensesKey(date), Records(edited));
        ok := store.SetItem(ExpensesKey(date), Records(edited));
        var totalSpent := Total(edited);
        shown := DaySummary(day.date, edited, day.budget, totalSpent, day.budget - totalSpent);
      }
    }

    /** The `historyData.map` both edit handlers run: every day keeps its
        place and goes through the callback. A failed write throws out of the
        map: then nothing was written, since at most one day has the date. */
    method EditDays(date: Date, edit: ListEdit) returns (updated: seq<DaySummary>, ok: bool)
      requires Valid()
      modifies store
      ensures store.Valid() && WellKeyed(store.items)
      ensures ok ==> updated == MapDay(historyData, date, edit)
      ensures ok ==> store.items == EditWrites(old(store.items), historyData, date, edit)
      ensures ok ==> store.keys == EditKeys(old(store.keys), historyData, date)
      ensures !ok ==> store.items == old(store.items) && store.keys == old(store.keys)
    {
      var days := historyData;
      NewestFirstDistinct(days);
      ghost var before, beforeKeys := store.items, store.keys;
      assert days[..0] == [];
      updated := [];
      var i := 0;
      while i < |days|
        invariant 0 <= i <= |days|
        invariant store.Valid() && WellKeyed(store.items)
        invariant |updated| == i
        invariant forall j :: 0 <= j < i ==> updated[j] == EditDay(days[j], date, edit)
        invariant store.items == EditWrites(before, days[..i], date, edit)
        invariant store.keys == EditKeys(beforeKeys, days[..i], date)
      {
        EditWritesStep(before, beforeKeys, days, i, date, edit);
        var shown;
        shown, ok := EditOne(days[i], date, edit);
        if !ok {
          return;
        }
        updated := updated + [shown];
        i := i + 1;
      }
      assert days[..|days|] == days;
      ok := true;
    }

    /** `saveEditExpense(expenseId, date)`: with an empty amount or
        description nothing happens. Otherwise the expenses with the id in the
        day with the date get the new amount and the trimmed description, that
        day's totals are recomputed and its key rewritten, every other day is
        kept, and the edit form is closed. */
    method SaveEditExpense(expenseId: int, date: Date) returns (ok: bool)
      requires Valid()
      modifies this, store
      ensures Valid()
      ensures old(editAmount).Blank? || old(editDescription) == "" ==>
        && ok && historyData == old(historyData)
        && editingExpense == old(editingExpense) && editAmount == old(editAmount)
        && editDescription == old(editDescription)
        && store.items == old(store.items) && store.keys == old(store.keys)
      ensures old(editAmount).Entered? && old(editDescription) != "" ==>
        var edit := UpdateEntry(expenseId, EditPatch(old(editAmount).value, old(editDescription)));
        && (ok ==> historyData == MapDay(old(historyData), date, edit))
        && (ok ==> store.items == EditWrites(old(store.items), old(historyData), date, edit))
        && (ok ==> store.keys == EditKeys(old(store.keys), old(historyData), date))
        && (ok ==> editingExpense == None && editAmount == Blank && editDescription == "")
        && (!ok ==> historyData == old(historyData) && editingExpense == old(editingExpense)
                    && editAmount == old(editAmount) && editDescription == old(editDescription)
                    && store.items == old(store.items) && store.keys == old(store.keys))
      ensures expandedDays == old(expandedDays)
    {
      if editAmount.Blank? || editDescription == "" {
        return true;
      }
      var edit := UpdateEntry(expenseId, EditPatch(editAmount.value, editDescription));
      var updated;
      updated, ok := EditDays(date, edit);
      if !ok {
        return;
      }
      MapDayPreserves(historyData, date, edit);
      historyData := updated;
      editingExpense := None;
      editAmount := Blank;
      editDescription := "";
    }

    /** `deleteExpenseFromHistory(expenseId, date)`: the expenses with the id
        leave the day with the date, its totals are recomputed and its key is
        rewritten (with the empty list when none is left), and the days left
        with no expenses are no longer shown. */
    method DeleteExpenseFromHistory(expenseId: int, date: Date) returns (ok: bool)
      requires Valid()
      modifies this, store
      ensures Valid()
      ensures ok ==> historyData == DropEmpty(MapDay(old(historyData), date, DeleteEntry(expenseId)))
      ensures ok ==> store.items == EditWrites(old(store.items), old(historyData), date, DeleteEntry(expenseId))
      ensures ok ==> store.keys == EditKeys(old(store.keys), old(historyData), date)
      ensures !ok ==> (historyData == old(historyData)
        && store.items == old(store.items) && store.keys == old(store.keys))
      ensures expandedDays == old(expandedDays) && editingExpense == old(editingExpense)
      ensures editAmount == old(editAmount) && editDescription == old(editDescription)
    {
      var updated;
      updated, ok := EditDays(date, DeleteEntry(expenseId));
      if !ok {
        return;
      }
      MapDayPreserves(historyData, date, DeleteEntry(expenseId));
      DropEmptySpec(updated);
      var shown := DropEmpty(updated);
      forall i | 0 <= i < |shown| ensures Consistent(shown[i]) {
        assert shown[i] in shown;
      }
      historyData := shown;
    }

    /** `startNewDay()`: once confirmed, today's expenses key and budget key
        are removed and nothing else. */
    method StartNewDay(today: Date, confirmed: bool)
      requires Valid()
      modifies store
      ensures Valid()
      ensures confirmed ==> store.items == old(store.items) - {ExpensesKey(today), BudgetKey(today)}
      ensures confirmed ==> store.keys == Except(Except(old(store.keys), ExpensesKey(today)), BudgetKey(today))
      ensures !confirmed ==> store.items == old(store.items) && store.keys == old(store.keys)
    {
      if confirmed {
        store.RemoveItem(ExpensesKey(today));
        store.RemoveItem(BudgetKey(today));
        assert store.items == old(store.items) - {ExpensesKey(today), BudgetKey(today)};
      }
    }

    /** `clearAllHistory()`: once confirmed, every `expenses_` and `budget_`
        key is removed, the other keys keep their values and order, and the
        shown history is emptied. */
    method ClearAllHistory(confirmed: bool)
      requires Valid()
      modifies this, store
      ensures Valid()
      ensures confirmed ==> store.keys == Unscoped(old(store.keys))
      ensures confirmed ==> store.items == old(store.items) - ScopedIn(old(store.keys))
      ensures confirmed ==> historyData == []
      ensures !confirmed ==> (historyData == old(historyData)
        && store.items == old(store.items) && store.keys == old(store.keys))
      ensures expandedDays == old(expandedDays) && editingExpense == old(editingExpense)
      ensures editAmount == old(editAmount) && editDescription == old(editDescription)
    {
      if confirmed {
        RemoveDateData(store);
        historyData := [];
      }
    }
  }
}
