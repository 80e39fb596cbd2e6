/** `src/components/BudgetTracker.jsx`: the today screen. It keeps today's
    budget and expense list as component state, reads them from and writes
    them to today's two keys directly (not through the store helpers), and
    derives the total, the remaining amount, the progress bar and the list of
    recent expenses. */
module BudgetTrackerScreen {
  import opened Common
  import opened Dates
  import opened Expenses
  import opened Store
  import opened StorageUtils

  /** `useState(1000)`. */
  const InitialBudget: real := 1000.0

  /** How many expenses the recent list shows. */
  const RecentCount: nat := 10

  // ------------------------------------------------------------- derivations

  /** `dailyBudget - totalSpent`. */
  function Remaining(budget: real, expenses: seq<Entry>): real {
    budget - Total(expenses)
  }

  /** Adding an expense raises the total by its amount and lowers what
      remains by as much; the budget itself is not touched. */
  lemma AddLowersRemaining(budget: real, expenses: seq<Entry>, now: int, amount: real, description: string, nowIso: string)
    ensures var after := expenses + [NewExpense(now, amount, description, nowIso)];
      && Total(after) == Total(expenses) + amount
      && Remaining(budget, after) == Remaining(budget, expenses) - amount
  {
    TotalSnoc(expenses, NewExpense(now, amount, description, nowIso));
  }

  /** A JavaScript number as the progress computation can produce it: the
      division by a zero budget yields an infinity or NaN, and `Math.min` with
      100 turns +Infinity into 100 but keeps -Infinity and NaN. */
  datatype Percent = Finite(value: real) | MinusInfinity | NotANumber

  /** `Math.min((totalSpent / dailyBudget) * 100, 100)`. */
  function Progress(total: real, budget: real): (p: Percent)
    ensures p.Finite? ==> p.value <= 100.0
    ensures budget != 0.0 ==> p.Finite?
    ensures budget == 0.0 ==> (p.Finite? <==> total > 0.0)
  {
    if budget == 0.0 then
      if total > 0.0 then Finite(100.0) else if total < 0.0 then MinusInfinity else NotANumber
    else
      var ratio := total / budget * 100.0;
      Finite(if ratio < 100.0 then ratio else 100.0)
  }

  /** With a positive budget and no negative total the bar is a percentage
      between 0 and 100; it is full exactly when the total reaches the budget
      and otherwise shows the share of the budget spent. */
  lemma ProgressBounds(total: real, budget: real)
    requires budget > 0.0 && total >= 0.0
    ensures Progress(total, budget).Finite?
    ensures 0.0 <= Progress(total, budget).value <= 100.0
    ensures Progress(total, budget).value == 100.0 <==> total >= budget
    ensures total < budget ==> Progress(total, budget).value * budget == total * 100.0
  {
    var ratio := total / budget * 100.0;
    assert total / budget >= 0.0;
    assert ratio < 100.0 <==> total < budget by {
      assert ratio * budget == total * 100.0;
    }
  }

  /** Spending more never shrinks the bar when the budget is positive. */
  lemma ProgressMonotone(t1: real, t2: real, budget: real)
    requires budget > 0.0 && t1 <= t2
    ensures Progress(t1, budget).value <= Progress(t2, budget).value
  {
    assert t1 / budget <= t2 / budget by {
      assert (t2 - t1) / budget >= 0.0;
      assert t2 / budget - t1 / budget == (t2 - t1) / budget;
    }
  }

  /** The reverse of a list. */
  function Reversed(s: seq<Entry>): (r: seq<Entry>)
    ensures |r| == |s|
    ensures forall i :: 0 <= i < |s| ==> r[i] == s[|s| - 1 - i]
  {
    if s == [] then [] else [s[|s| - 1]] + Reversed(s[..|s| - 1])
  }

  /** `expenses.slice(-10).reverse()`. */
  function Recent(expenses: seq<Entry>): seq<Entry> {
    var n := if |expenses| < RecentCount then |expenses| else RecentCount;
    Reversed(expenses[|expenses| - n..])
  }

  /** The recent list holds the last ten expenses (all of them when there are
      fewer), the most recently added first. */
  lemma RecentSpec(expenses: seq<Entry>)
    ensures |Recent(expenses)| == (if |expenses| < RecentCount then |expenses| else RecentCount)
    ensures forall i :: 0 <= i < |Recent(expenses)| ==> Recent(expenses)[i] == expenses[|expenses| - 1 - i]
  {
    var n := if |expenses| < RecentCount then |expenses| else RecentCount;
    var tail := expenses[|expenses| - n..];
    forall i | 0 <= i < n ensures Recent(expenses)[i] == expenses[|expenses| - 1 - i] {
      assert tail[n - 1 - i] == expenses[|expenses| - 1 - i];
    }
  }

  // ------------------------------------------------------------ persistence

  /** The store after `saveTodaysData(expenses, budget)` wrote both keys. */
  function SavedToday(items: map<string, Value>, expenses: seq<Entry>, budget: real, today: Date): map<string, Value> {
    items[BudgetKey(today) := Number(budget)][ExpensesKey(today) := Records(expenses)]
  }

  /** The store `saveTodaysData(expenses, budget)` leaves behind, from
      `items0`/`keys0` to `items1`/`keys1`: on success both of today's keys are
      written; on failure either nothing is written or only the budget, which
      is written first. No other key changes either way. */
  predicate TodaySaved(items0: map<string, Value>, keys0: seq<string>, items1: map<string, Value>, keys1: seq<string>,
                       expenses: seq<Entry>, budget: real, today: Date, ok: bool)
  {
    && (ok ==> items1 == SavedToday(items0, expenses, budget, today)
               && keys1 == WithKey(WithKey(keys0, BudgetKey(today)), ExpensesKey(today)))
    && (!ok ==>
          || (items1 == items0 && keys1 == keys0)
          || (items1 == items0[BudgetKey(today) := Number(budget)] && keys1 == WithKey(keys0, BudgetKey(today))))
  }

  /** Loading right after saving gives back the saved list and budget, and
      every other date reads as before. */
  lemma SaveThenLoad(items: map<string, Value>, expenses: seq<Entry>, budget: real, today: Date, fallback: real, other: Date)
    ensures var after := SavedToday(items, expenses, budget, today);
      && Truthy(Lookup(after, ExpensesKey(today)))
      && ReadList(Lookup(after, ExpensesKey(today))) == Some(expenses)
      && ReadNumber(Lookup(after, BudgetKey(today)), fallback) == budget
      && (other != today ==>
            && LoadExpensesFromDate(after, other) == LoadExpensesFromDate(items, other)
            && LoadBudgetFromDate(after, other) == LoadBudgetFromDate(items, other))
  {
    KeysInjective(today, today);
    BudgetWriteFrame(items, today, budget, other);
    ExpensesWriteFrame(items[BudgetKey(today) := Number(budget)], today, expenses, other);
  }

  /** The today screen falls back on its own initial 1000 when no budget is
      stored for today (what `LoadTodaysData` reads into `dailyBudget` on a
      fresh screen), not on the configured default budget that the store
      helpers use: with any other default configured, the two disagree. */
  lemma TodayIgnoresDefault(items: map<string, Value>, today: Date, x: real)
    requires BudgetKey(today) !in items
    requires DefaultBudgetKey in items && items[DefaultBudgetKey] == Number(x) && x != InitialBudget
    ensures ReadNumber(Lookup(items, BudgetKey(today)), InitialBudget) == InitialBudget
    ensures LoadBudgetFromDate(items, today) == x
    ensures ReadNumber(Lookup(items, BudgetKey(today)), InitialBudget) != LoadBudgetFromDate(items, today)
  {
  }

  // ---------------------------------------------------------- form records

  /** The description a new or edited expense gets is the form text trimmed:
      a text of whitespace only passes the form's emptiness check and is
      stored as the empty description; any other text stays non-empty. */
  lemma TrimmedDescription(now: int, amount: real, description: string, nowIso: string)
    ensures NewExpense(now, amount, description, nowIso).description == Some(Trim(description))
    ensures EditPatch(amount, description).description == Some(Trim(description))
    ensures (forall i :: 0 <= i < |description| ==> IsWhitespace(description[i])) ==> Trim(description) == ""
    ensures (exists i :: 0 <= i < |description| && !IsWhitespace(description[i])) ==> Trim(description) != ""
  {
    if forall i :: 0 <= i < |description| ==> IsWhitespace(description[i]) {
      TrimBlank(description);
    }
    if exists i :: 0 <= i < |description| && !IsWhitespace(description[i]) {
      var i :| 0 <= i < |description| && !IsWhitespace(description[i]);
      TrimKeepsContent(description, i);
    }
  }

  /** An edit changes only the amount and the description of the entries with
      the id: their id, timestamp and date survive; the other entries and the
      length and order of the list are kept. */
  lemma EditKeepsIdentity(es: seq<Entry>, id: int, amount: real, description: string, i: nat)
    requires i < |es|
    ensures var u := UpdateById(es, id, EditPatch(amount, description));
      && |u| == |es|
      && (!HasId(es[i], id) ==> u[i] == es[i])
      && (HasId(es[i], id) ==>
            && u[i].id == es[i].id && u[i].timestamp == es[i].timestamp && u[i].date == es[i].date
            && u[i].amount == Some(amount) && u[i].description == Some(Trim(description)))
  {
    UpdateByIdEffect(es, id, EditPatch(amount, description), i);
  }

  // -------------------------------------------------------------- the screen

  /** `amount && description`: both form fields hold something. */
  predicate Filled(amount: AmountField, description: string) {
    amount.Entered? && description != ""
  }

  class BudgetTracker {
    const store: LocalStorage
    var dailyBudget: real
    var expenses: seq<Entry>
    var amount: AmountField
    var description: string
    var newBudget: AmountField
    /** The id of the expense being edited; `None` when none is (or when the
        edited expense has no id, which reads as falsy too). */
    var editingExpense: Option<int>
    var editAmount: AmountField
    var editDescription: string

    ghost predicate Valid()
      reads this, store
    {
      store.Valid()
    }

    constructor (store: LocalStorage)
      ensures this.store == store
      ensures dailyBudget == InitialBudget && expenses == []
      ensures amount == Blank && description == "" && newBudget == Blank
      ensures editingExpense == None && editAmount == Blank && editDescription == ""
    {
      this.store := store;
      dailyBudget := InitialBudget;
      expenses := [];
      amount := Blank;
      description := "";
      newBudget := Blank;
      editingExpense := None;
      editAmount := Blank;
      editDescription := "";
    }

    /** `loadTodaysData()`: a truthy stored budget replaces the budget, and a
        truthy stored list replaces the list. `ok` is false when that list's
        text cannot be parsed (`JSON.parse` throws); the list then stays. */
    method LoadTodaysData(today: Date) returns (ok: bool)
      modifies this
      ensures dailyBudget == ReadNumber(store.GetItem(BudgetKey(today)), old(dailyBudget))
      ensures !Truthy(store.GetItem(BudgetKey(today))) ==> dailyBudget == old(dailyBudget)
      ensures var saved := store.GetItem(ExpensesKey(today));
        && (ok <==> !Truthy(saved) || ReadList(saved).Some?)
        && (ok && Truthy(saved) ==> expenses == ReadList(saved).value)
        && (!ok || !Truthy(saved) ==> expenses == old(expenses))
      ensures amount == old(amount) && description == old(description) && newBudget == old(newBudget)
      ensures editingExpense == old(editingExpense) && editAmount == old(editAmount)
      ensures editDescription == old(editDescription)
    {
      var savedBudget := store.GetItem(BudgetKey(today));
      var savedExpenses := store.GetItem(ExpensesKey(today));
      ok := true;
      if Truthy(savedBudget) {
        dailyBudget := ReadNumber(savedBudget, dailyBudget);
      }
      if Truthy(savedExpenses) {
        var parsed := ReadList(savedExpenses);
        if parsed.None? {
          ok := false;
          return;
        }
        expenses := parsed.value;
      }
    }

    /** `saveTodaysData(newExpenses, budget)`: the budget is written first,
        then the list. Either write may fail; when the second one does, the
        budget has already been written. */
    method SaveTodaysData(newExpenses: seq<Entry>, budget: real, today: Date) returns (ok: bool)
      requires Valid()
      modifies store
      ensures Valid()
      ensures TodaySaved(old(store.items), old(store.keys), store.items, store.keys, newExpenses, budget, today, ok)
    {
      ok := store.SetItem(BudgetKey(today), Number(budget));
      if ok {
        ok := store.SetItem(ExpensesKey(today), Records(newExpenses));
      }
    }

    /** `addExpense`: with an empty amount or description nothing happens.
        Otherwise the new record goes to the end of the list and both of
        today's keys are written; the form is cleared once the save is done. */
    method AddExpense(now: int, nowIso: string, today: Date) returns (ok: bool)
      requires Valid()
      modifies this, store
      ensures Valid()
      ensures !Filled(old(amount), old(description)) ==> ok && expenses == old(expenses)
      ensures !Filled(old(amount), old(description)) ==> amount == old(amount) && description == old(description)
      ensures !Filled(old(amount), old(description)) ==> store.items == old(store.items) && store.keys == old(store.keys)
      ensures Filled(old(amount), old(description)) ==>
        expenses == old(expenses) + [NewExpense(now, old(amount).value, old(description), nowIso)]
      ensures Filled(old(amount), old(description)) ==>
        TodaySaved(old(store.items), old(store.keys), store.items, store.keys, expenses, dailyBudget, today, ok)
      ensures Filled(old(amount), old(description)) && ok ==> amount == Blank && description == ""
      ensures Filled(old(amount), old(description)) && !ok ==> amount == old(amount) && description == old(description)
      ensures dailyBudget == old(dailyBudget) && newBudget == old(newBudget) && editingExpense == old(editingExpense)
      ensures editAmount == old(editAmount) && editDescription == old(editDescription)
    {
      if !Filled(amount, description) {
        return true;
      }
      var updated := expenses + [NewExpense(now, amount.value, description, nowIso)];
      ok := SaveTodaysData(updated, dailyBudget, today);
      expenses := updated;
      if ok {
        amount := Blank;
        description := "";
      }
    }

    /** `deleteExpense(id)`: every entry with the id goes, the rest keep their
        order, and both keys are written. */
    method DeleteExpense(id: int, today: Date) returns (ok: bool)
      requires Valid()
      modifies this, store
      ensures Valid()
      ensures expenses == WithoutId(old(expenses), id) && dailyBudget == old(dailyBudget)
      ensures TodaySaved(old(store.items), old(store.keys), store.items, store.keys, expenses, dailyBudget, today, ok)
      ensures amount == old(amount) && description == old(description) && newBudget == old(newBudget)
      ensures editingExpense == old(editingExpense) && editAmount == old(editAmount)
      ensures editDescription == old(editDescription)
    {
      expenses := WithoutId(expenses, id);
      ok := SaveTodaysData(expenses, dailyBudget, today);
    }

    /** `startEditExpense(expense)`: load the expense into the edit form. An
        expense on screen has a numeric amount (the list renders it with
        `toLocaleString`, which throws on a missing amount), and a missing
        description fills the form with nothing. */
    method StartEditExpense(e: Entry)
      requires e.amount.Some?
      modifies this
      ensures editingExpense == e.id && editAmount == Entered(e.amount.value)
      ensures editDescription == (if e.description.Some? then e.description.value else "")
      ensures expenses == old(expenses) && dailyBudget == old(dailyBudget)
      ensures amount == old(amount) && description == old(description) && newBudget == old(newBudget)
    {
      editingExpense := e.id;
      editAmount := Entered(e.amount.value);
      editDescription := if e.description.Some? then e.description.value else "";
    }

    /** `saveEditExpense(id)`: with an empty amount or description nothing
        happens; otherwise the entries with the id get the new amount and the
        trimmed description, both keys are written, and the edit form is
        closed once the save is done. */
    method SaveEditExpense(id: int, today: Date) returns (ok: bool)
      requires Valid()
      modifies this, store
      ensures Valid()
      ensures !Filled(old(editAmount), old(editDescription)) ==>
        && ok && expenses == old(expenses)
        && editingExpense == old(editingExpense) && editAmount == old(editAmount)
        && editDescription == old(editDescription)
        && store.items == old(store.items) && store.keys == old(store.keys)
      ensures Filled(old(editAmount), old(editDescription)) ==>
        && expenses == UpdateById(old(expenses), id, EditPatch(old(editAmount).value, old(editDescription)))
        && TodaySaved(old(store.items), old(store.keys), store.items, store.keys, expenses, dailyBudget, today, ok)
        && (ok ==> editingExpense == None && editAmount == Blank && editDescription == "")
        && (!ok ==> editingExpense == old(editingExpense) && editAmount == old(editAmount)
                    && editDescription == old(editDescription))
      ensures dailyBudget == old(dailyBudget)
      ensures amount == old(amount) && description == old(description) && newBudget == old(newBudget)
    {
      if !Filled(editAmount, editDescription) {
        return true;
      }
      var updated := UpdateById(expenses, id, EditPatch(editAmount.value, editDescription));
      ok := SaveTodaysData(updated, dailyBudget, today);
      expenses := updated;
      if ok {
        CancelEditExpense();
      }
    }

    /** `cancelEditExpense()`. */
    method CancelEditExpense()
      modifies this
      ensures editingExpense == None && editAmount == Blank && editDescription == ""
      ensures expenses == old(expenses) && dailyBudget == old(dailyBudget)
      ensures amount == old(amount) && description == old(description) && newBudget == old(newBudget)
    {
      editingExpense := None;
      editAmount := Blank;
      editDescription := "";
    }

    /** `updateBudget()`: only an entered value above 0 is taken; it becomes
        the budget, both keys are written with it, and the input is cleared
        once the save is done. Any other input changes nothing. */
    method UpdateBudget(today: Date) returns (ok: bool)
      requires Valid()
      modifies this, store
      ensures Valid()
      ensures !(old(newBudget).Entered? && old(newBudget).value > 0.0) ==>
        && ok && dailyBudget == old(dailyBudget) && newBudget == old(newBudget)
        && store.items == old(store.items) && store.keys == old(store.keys)
      ensures old(newBudget).Entered? && old(newBudget).value > 0.0 ==>
        && dailyBudget == old(newBudget).value
        && TodaySaved(old(store.items), old(store.keys), store.items, store.keys, expenses, dailyBudget, today, ok)
        && (ok ==> newBudget == Blank)
        && (!ok ==> newBudget == old(newBudget))
      ensures expenses == old(expenses)
      ensures amount == old(amount) && description == old(description)
      ensures editingExpense == old(editingExpense) && editAmount == old(editAmount)
      ensures editDescription == old(editDescription)
    {
      if !(newBudget.Entered? && newBudget.value > 0.0) {
        return true;
      }
      dailyBudget := newBudget.value;
      ok := SaveTodaysData(expenses, dailyBudget, today);
      if ok {
        newBudget := Blank;
      }
    }
  }
}
