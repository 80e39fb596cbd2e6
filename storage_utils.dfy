/** `src/utils/storageUtils.js`: the date-keyed expense and budget store. A
    day's expense list lives under `expenses_<date>`, its budget under
    `budget_<date>`, and a few singleton keys hold preferences. */
module StorageUtils {
  import opened Common
  import opened Dates
  import opened Expenses
  import opened Summaries
  import opened Store

  const ExpensesPrefix: string := "expenses_"
  const BudgetPrefix: string := "budget_"
  const SettingsKey: string := "app_settings"
  const DarkModeKey: string := "darkMode"
  const HomeCurrencyKey: string := "homeCurrency"
  const ExchangeRateKey: string := "exchangeRate"
  const DefaultBudgetKey: string := "defaultBudget"

  /** The singleton preference keys. */
  const PreferenceKeys: seq<string> :=
    [SettingsKey, DarkModeKey, HomeCurrencyKey, ExchangeRateKey, DefaultBudgetKey]

  /** The budget `getDefaultBudget` falls back on. */
  const FallbackBudget: real := 1000.0

  function ExpensesKey(d: Date): string {
    ExpensesPrefix + DateKey(d)
  }

  function BudgetKey(d: Date): string {
    BudgetPrefix + DateKey(d)
  }

  /** The keys `clearAllData` removes. */
  predicate DateScoped(k: string) {
    StartsWith(k, ExpensesPrefix) || StartsWith(k, BudgetPrefix)
  }

  /** Every `expenses_` key in the store carries the key text of a date after
      its prefix. The code only ever writes such keys; the history scans read a
      key's date back from that text. */
  ghost predicate WellKeyed(items: map<string, Value>) {
    forall k :: k in items && StartsWith(k, ExpensesPrefix) ==> IsDateKey(k[|ExpensesPrefix|..])
  }

  // ---------------------------------------------------------------- key scheme

  lemma KeyShape(d: Date)
    ensures StartsWith(ExpensesKey(d), ExpensesPrefix) && ExpensesKey(d)[|ExpensesPrefix|..] == DateKey(d)
    ensures StartsWith(BudgetKey(d), BudgetPrefix) && BudgetKey(d)[|BudgetPrefix|..] == DateKey(d)
    ensures !StartsWith(ExpensesKey(d), BudgetPrefix) && !StartsWith(BudgetKey(d), ExpensesPrefix)
    ensures ExpensesKey(d)[0] == 'e' && BudgetKey(d)[0] == 'b'
  {
    PrefixOfConcat(ExpensesPrefix, DateKey(d));
    PrefixOfConcat(BudgetPrefix, DateKey(d));
    NotPrefixAt(ExpensesKey(d), BudgetPrefix, 0);
    NotPrefixAt(BudgetKey(d), ExpensesPrefix, 0);
  }

  /** Each date has its own expenses key and its own budget key, and the two
      families never meet. */
  lemma KeysInjective(d: Date, e: Date)
    ensures ExpensesKey(d) == ExpensesKey(e) <==> d == e
    ensures BudgetKey(d) == BudgetKey(e) <==> d == e
    ensures ExpensesKey(d) != BudgetKey(e)
  {
    KeyShape(d);
    KeyShape(e);
    DateKeyInjective(d, e);
  }

  /** No preference key is one `clearAllData` removes, and none of them is the
      key of a date. */
  lemma PreferenceKeysUnscoped(d: Date)
    ensures forall k :: k in PreferenceKeys ==> !DateScoped(k) && k != ExpensesKey(d) && k != BudgetKey(d)
  {
    KeyShape(d);
    NotPrefixAt(SettingsKey, ExpensesPrefix, 0);
    NotPrefixAt(SettingsKey, BudgetPrefix, 0);
    NotPrefixAt(DarkModeKey, ExpensesPrefix, 0);
    NotPrefixAt(DarkModeKey, BudgetPrefix, 0);
    NotPrefixAt(HomeCurrencyKey, ExpensesPrefix, 0);
    NotPrefixAt(HomeCurrencyKey, BudgetPrefix, 0);
    NotPrefixAt(ExchangeRateKey, ExpensesPrefix, 2);
    NotPrefixAt(ExchangeRateKey, BudgetPrefix, 0);
    NotPrefixAt(DefaultBudgetKey, ExpensesPrefix, 0);
    NotPrefixAt(DefaultBudgetKey, BudgetPrefix, 0);
  }

  /** A key that starts with `expenses_` is the expenses key of the date its
      suffix names, when that suffix is a date's key text. */
  lemma ExpensesKeyOfSuffix(k: string)
    requires StartsWith(k, ExpensesPrefix) && IsDateKey(k[|ExpensesPrefix|..])
    ensures k == ExpensesKey(ParseDate(k[|ExpensesPrefix|..]).value)
  {
    assert k == k[..|ExpensesPrefix|] + k[|ExpensesPrefix|..];
  }

  /** Writing a date's expenses key, or any key outside the `expenses_` family,
      keeps the store well keyed; so does removing a key. */
  lemma WellKeyedWrite(items: map<string, Value>, k: string, v: Value)
    requires WellKeyed(items)
    requires (exists d :: k == ExpensesKey(d)) || !StartsWith(k, ExpensesPrefix)
    ensures WellKeyed(items[k := v]) && WellKeyed(items - {k})
  {
    if exists d :: k == ExpensesKey(d) {
      var d :| k == ExpensesKey(d);
      KeyShape(d);
      DateKeyIsDateKey(d);
    }
  }

  // ------------------------------------------------------------------- reading

  /** `JSON.parse(getItem(key) || '[]')` where a list is expected; `None` when
      the parse throws. A missing key and the empty text read as []; a stored
      number or settings object carries no list and reads as [] too. */
  function ReadList(v: Option<Value>): Option<seq<Entry>> {
    match v
    case None => Some([])
    case Some(Records(es)) => Some(es)
    case Some(Text(t)) => if t == "" then Some([]) else None
    case Some(Unparseable) => None
    case Some(_) => Some([])
  }

  /** `saved ? parseFloat(saved) : fallback`. */
  function ReadNumber(v: Option<Value>, fallback: real): real {
    if Truthy(v) && v.value.Number? then v.value.x else fallback
  }

  /** `loadExpensesFromDate(date)`: the list stored for the date; [] when none
      is stored, when the stored text is empty or when it cannot be parsed. */
  function LoadExpensesFromDate(items: map<string, Value>, date: Date): (r: seq<Entry>)
    ensures ExpensesKey(date) !in items ==> r == []
    ensures ExpensesKey(date) in items && items[ExpensesKey(date)].Records? ==> r == items[ExpensesKey(date)].entries
    ensures ExpensesKey(date) in items && items[ExpensesKey(date)] in {Unparseable, Text("")} ==> r == []
  {
    match ReadList(Lookup(items, ExpensesKey(date)))
    case Some(es) => es
    case None => []
  }

  /** `getDefaultBudget()`: the stored default budget, else 1000. */
  function GetDefaultBudget(items: map<string, Value>): (r: real)
    ensures DefaultBudgetKey !in items ==> r == FallbackBudget
    ensures DefaultBudgetKey in items && items[DefaultBudgetKey].Number? ==> r == items[DefaultBudgetKey].x
  {
    ReadNumber(Lookup(items, DefaultBudgetKey), FallbackBudget)
  }

  /** `loadBudgetFromDate(date)`: the budget stored for the date, else the
      default budget. */
  function LoadBudgetFromDate(items: map<string, Value>, date: Date): (r: real)
    ensures BudgetKey(date) !in items ==> r == GetDefaultBudget(items)
    ensures BudgetKey(date) in items && items[BudgetKey(date)].Number? ==> r == items[BudgetKey(date)].x
  {
    ReadNumber(Lookup(items, BudgetKey(date)), GetDefaultBudget(items))
  }

  function GetDefaultSettings(): AppSettings {
    AppSettings(false, "USD", 0.029, 1000.0)
  }

  /** `loadAppSettings()`: the stored settings object, else the defaults (also
      when the stored text cannot be parsed). */
  function LoadAppSettings(v: Option<Value>): (r: AppSettings)
    ensures !Truthy(v) ==> r == GetDefaultSettings()
    ensures v.Some? && v.value.Settings? ==> r == v.value.settings
  {
    if Truthy(v) && v.value.Settings? then v.value.settings else GetDefaultSettings()
  }

  /** A write to a date's expenses key is what a later load of that date
      returns; it changes no load of another date, no budget load and not the
      default budget. */
  lemma ExpensesWriteFrame(items: map<string, Value>, d: Date, es: seq<Entry>, e: Date)
    ensures var after := items[ExpensesKey(d) := Records(es)];
      && LoadExpensesFromDate(after, d) == es
      && (e != d ==> LoadExpensesFromDate(after, e) == LoadExpensesFromDate(items, e))
      && LoadBudgetFromDate(after, e) == LoadBudgetFromDate(items, e)
      && GetDefaultBudget(after) == GetDefaultBudget(items)
  {
    KeysInjective(d, e);
    PreferenceKeysUnscoped(d);
    assert DefaultBudgetKey in PreferenceKeys;
  }

  /** A write to a date's budget key is what a later budget load of that date
      returns; it changes no other budget load and no expense load. */
  lemma BudgetWriteFrame(items: map<string, Value>, d: Date, b: real, e: Date)
    ensures var after := items[BudgetKey(d) := Number(b)];
      && LoadBudgetFromDate(after, d) == b
      && (e != d ==> LoadBudgetFromDate(after, e) == LoadBudgetFromDate(items, e))
      && LoadExpensesFromDate(after, e) == LoadExpensesFromDate(items, e)
      && GetDefaultBudget(after) == GetDefaultBudget(items)
  {
    KeysInjective(e, d);
    KeysInjective(d, e);
    PreferenceKeysUnscoped(d);
    assert DefaultBudgetKey in PreferenceKeys;
  }

  // ------------------------------------------------------------ history scans

  /** One step of the history scans: the summary built for key `k`, if `k` is
      an `expenses_` key whose list parses, names a date and is not empty. The
      budget comes from the date's budget key, else `fallback`. */
  function DayOf(items: map<string, Value>, k: string, fallback: real): Option<DaySummary> {
    if !StartsWith(k, ExpensesPrefix) then None
    else
      var date := k[|ExpensesPrefix|..];
      match ReadList(Lookup(items, k))
      case None => None
      case Some(es) =>
        match ParseDate(date)
        case None => None
        case Some(d) =>
          if |es| > 0 then Some(Summarize(d, es, ReadNumber(Lookup(items, BudgetKey(d)), fallback))) else None
  }

  function Found(o: Option<DaySummary>): seq<DaySummary> {
    if o.Some? then [o.value] else []
  }

  /** The summaries the scan pushes, in key order. */
  function Collect(ks: seq<string>, items: map<string, Value>, fallback: real): seq<DaySummary> {
    if ks == [] then []
    else Collect(ks[..|ks| - 1], items, fallback) + Found(DayOf(items, ks[|ks| - 1], fallback))
  }

  /** The history both scans return: the pushed summaries, newest first. */
  function History(ks: seq<string>, items: map<string, Value>, fallback: real): seq<DaySummary> {
    SortNewestFirst(Collect(ks, items, fallback))
  }

  /** The summary of the list stored for date `d`, if it parses and is not
      empty, against the stored budget of `d` or else `fallback`. */
  function StoredDay(items: map<string, Value>, d: Date, fallback: real): Option<DaySummary> {
    match ReadList(Lookup(items, ExpensesKey(d)))
    case None => None
    case Some(es) =>
      if |es| > 0 then Some(Summarize(d, es, ReadNumber(Lookup(items, BudgetKey(d)), fallback))) else None
  }

  lemma DayOfKey(items: map<string, Value>, d: Date, fallback: real)
    ensures DayOf(items, ExpensesKey(d), fallback) == StoredDay(items, d, fallback)
  {
    KeyShape(d);
    ParseDateKey(d);
  }

  /** In a well-keyed store, a key the scan builds a summary for is the
      expenses key of that summary's date. */
  lemma DayOfIsStoredDay(items: map<string, Value>, k: string, fallback: real)
    requires WellKeyed(items)
    requires DayOf(items, k, fallback).Some?
    ensures k in items
    ensures k == ExpensesKey(DayOf(items, k, fallback).value.date)
    ensures StoredDay(items, DayOf(items, k, fallback).value.date, fallback) == DayOf(items, k, fallback)
  {
    ExpensesKeyOfSuffix(k);
    DayOfKey(items, DayOf(items, k, fallback).value.date, fallback);
  }

  lemma {:induction false} CollectSpec(ks: seq<string>, items: map<string, Value>, fallback: real)
    requires NoDuplicates(ks) && WellKeyed(items)
    ensures forall x :: x in Collect(ks, items, fallback) <==>
      ExpensesKey(x.date) in ks && StoredDay(items, x.date, fallback) == Some(x)
    ensures DistinctDates(Collect(ks, items, fallback))
  {
    if ks != [] {
      var init, k := ks[..|ks| - 1], ks[|ks| - 1];
      assert ks == init + [k];
      assert NoDuplicates(init) by {
        forall p, q | 0 <= p < q < |init| ensures init[p] != init[q] {
          assert init[p] == ks[p] && init[q] == ks[q];
        }
      }
      assert k !in init by {
        forall p | 0 <= p < |init| ensures init[p] != k {
          assert init[p] == ks[p];
        }
      }
      CollectSpec(init, items, fallback);
      var before := Collect(init, items, fallback);
      var day := DayOf(items, k, fallback);
      if day.Some? {
        DayOfIsStoredDay(items, k, fallback);
      }
      forall x ensures x in Collect(ks, items, fallback) <==>
        ExpensesKey(x.date) in ks && StoredDay(items, x.date, fallback) == Some(x)
      {
        if ExpensesKey(x.date) == k {
          DayOfKey(items, x.date, fallback);
        }
      }
      if day.Some? {
        forall p | 0 <= p < |before| ensures before[p].date != day.value.date {
          assert before[p] in before;
        }
      }
    }
  }

  /** The history scan returns, strictly newest first, exactly one summary for
      every date whose expenses key is listed and holds a parsable, non-empty
      list, and nothing else. Each summary carries that list, the date's stored
      budget (else `fallback`), their total and budget − total. */
  lemma HistoryCharacterized(ks: seq<string>, items: map<string, Value>, fallback: real)
    requires NoDuplicates(ks) && WellKeyed(items)
    ensures var h := History(ks, items, fallback);
      && NewestFirst(h)
      && (forall x :: x in h <==> ExpensesKey(x.date) in ks && StoredDay(items, x.date, fallback) == Some(x))
      && (forall i :: 0 <= i < |h| ==>
            && |h[i].expenses| > 0
            && h[i].expenses == LoadExpensesFromDate(items, h[i].date)
            && h[i].budget == ReadNumber(Lookup(items, BudgetKey(h[i].date)), fallback)
            && Consistent(h[i]))
      && (forall d :: ExpensesKey(d) in ks && StoredDay(items, d, fallback).Some? <==>
            exists i :: 0 <= i < |h| && h[i].date == d)
  {
    HistoryMembers(ks, items, fallback);
    HistoryEntries(ks, items, fallback);
    HistoryDates(ks, items, fallback);
  }

  lemma HistoryMembers(ks: seq<string>, items: map<string, Value>, fallback: real)
    requires NoDuplicates(ks) && WellKeyed(items)
    ensures var h := History(ks, items, fallback);
      && NewestFirst(h)
      && (forall x :: x in h <==> ExpensesKey(x.date) in ks && StoredDay(items, x.date, fallback) == Some(x))
  {
    CollectSpec(ks, items, fallback);
    SortSpec(Collect(ks, items, fallback));
  }

  lemma HistoryEntries(ks: seq<string>, items: map<string, Value>, fallback: real)
    requires NoDuplicates(ks) && WellKeyed(items)
    ensures var h := History(ks, items, fallback);
      forall i :: 0 <= i < |h| ==>
        && |h[i].expenses| > 0
        && h[i].expenses == LoadExpensesFromDate(items, h[i].date)
        && h[i].budget == ReadNumber(Lookup(items, BudgetKey(h[i].date)), fallback)
        && Consistent(h[i])
  {
    var h := History(ks, items, fallback);
    HistoryMembers(ks, items, fallback);
    forall i | 0 <= i < |h|
      ensures && |h[i].expenses| > 0
              && h[i].expenses == LoadExpensesFromDate(items, h[i].date)
              && h[i].budget == ReadNumber(Lookup(items, BudgetKey(h[i].date)), fallback)
              && Consistent(h[i])
    {
      assert h[i] in h;
    }
  }

  lemma HistoryDates(ks: seq<string>, items: map<string, Value>, fallback: real)
    requires NoDuplicates(ks) && WellKeyed(items)
    ensures var h := History(ks, items, fallback);
      forall d :: ExpensesKey(d) in ks && StoredDay(items, d, fallback).Some? <==>
        exists i :: 0 <= i < |h| && h[i].date == d
  {
    var h := History(ks, items, fallback);
    HistoryMembers(ks, items, fallback);
    forall d ensures ExpensesKey(d) in ks && StoredDay(items, d, fallback).Some? <==>
      exists i :: 0 <= i < |h| && h[i].date == d
    {
      if ExpensesKey(d) in ks && StoredDay(items, d, fallback).Some? {
        var x := StoredDay(items, d, fallback).value;
        assert x.date == d;
        assert x in h;
        var i :| 0 <= i < |h| && h[i] == x;
      }
      if exists i :: 0 <= i < |h| && h[i].date == d {
        var i :| 0 <= i < |h| && h[i].date == d;
        assert h[i] in h;
      }
    }
  }

  /** In a well-keyed store where no key is date-scoped, the history is empty. */
  lemma {:induction false} NoDateDataNoHistory(ks: seq<string>, items: map<string, Value>, fallback: real)
    requires forall k :: k in items ==> !DateScoped(k)
    ensures Collect(ks, items, fallback) == []
    ensures History(ks, items, fallback) == []
  {
    if ks != [] {
      NoDateDataNoHistory(ks[..|ks| - 1], items, fallback);
      assert DayOf(items, ks[|ks| - 1], fallback) == None;
    }
  }

  // --------------------------------------------------------------- statistics

  /** The keys of a list that start with `prefix`, in order (`keys.filter`). */
  function WithPrefix(ks: seq<string>, prefix: string): seq<string> {
    if ks == [] then []
    else WithPrefix(ks[..|ks| - 1], prefix) + (if StartsWith(ks[|ks| - 1], prefix) then [ks[|ks| - 1]] else [])
  }

  /** The three counters `getStorageInfo` accumulates. */
  datatype Stats = Stats(expenses: nat, days: nat, amount: real)

  /** One visit of `getStorageInfo`: a parsable list adds its length to the
      expense count; a non-empty one also adds a day and its total. */
  function Tally(s: Stats, parsed: Option<seq<Entry>>): Stats {
    match parsed
    case None => s
    case Some(es) =>
      if |es| > 0 then Stats(s.expenses + |es|, s.days + 1, s.amount + Total(es)) else s
  }

  /** The counters after visiting the keys `ks`. */
  function KeyStats(ks: seq<string>, items: map<string, Value>): Stats {
    if ks == [] then Stats(0, 0, 0.0)
    else Tally(KeyStats(ks[..|ks| - 1], items), ReadList(Lookup(items, ks[|ks| - 1])))
  }

  /** Visiting an `expenses_` key adds to the counters what the summary the
      history scan builds for it adds to the history's totals. */
  lemma TallyMatchesDay(items: map<string, Value>, k: string, fallback: real, s: Stats)
    requires WellKeyed(items) && StartsWith(k, ExpensesPrefix)
    ensures var f := Found(DayOf(items, k, fallback));
      Tally(s, ReadList(Lookup(items, k))) == Stats(s.expenses + TransactionCount(f), s.days + |f|, s.amount + SumSpent(f))
  {
    var f := Found(DayOf(items, k, fallback));
    var parsed := ReadList(Lookup(items, k));
    if parsed.Some? && |parsed.value| > 0 {
      assert k in items;
      assert |f| == 1;
      assert f[1..] == [];
    } else {
      assert f == [];
    }
  }

  datatype StorageInfo = StorageInfo(
    totalExpenses: nat,
    totalDays: nat,
    totalAmount: real,
    averagePerDay: real,
    expenseKeys: nat,
    budgetKeys: nat)

  /** The counters over the `expenses_` keys agree with the history: the
      number of expenses is its transaction count, the number of days is its
      length and the amount is the sum of its days' totals. */
  lemma {:induction false} StatsMatchCollect(ks: seq<string>, items: map<string, Value>, fallback: real)
    requires WellKeyed(items)
    ensures var c := Collect(ks, items, fallback);
      KeyStats(WithPrefix(ks, ExpensesPrefix), items) == Stats(TransactionCount(c), |c|, SumSpent(c))
  {
    if ks != [] {
      var init, k := ks[..|ks| - 1], ks[|ks| - 1];
      StatsMatchCollect(init, items, fallback);
      var w := WithPrefix(init, ExpensesPrefix);
      var c := Collect(init, items, fallback);
      var found := Found(DayOf(items, k, fallback));
      SumsConcat(c, found);
      assert Collect(ks, items, fallback) == c + found;
      if StartsWith(k, ExpensesPrefix) {
        assert WithPrefix(ks, ExpensesPrefix) == w + [k];
        assert (w + [k])[..|w + [k]| - 1] == w;
        TallyMatchesDay(items, k, fallback, KeyStats(w, items));
      } else {
        assert WithPrefix(ks, ExpensesPrefix) == w;
        assert found == [] && c + found == c;
      }
    }
  }

  lemma StorageInfoMatchesHistory(ks: seq<string>, items: map<string, Value>, fallback: real)
    requires WellKeyed(items)
    ensures var h := History(ks, items, fallback);
      KeyStats(WithPrefix(ks, ExpensesPrefix), items) == Stats(TransactionCount(h), |h|, SumSpent(h))
  {
    var c := Collect(ks, items, fallback);
    StatsMatchCollect(ks, items, fallback);
    SortSums(c);
    SortSpec(c);
  }

  // ------------------------------------------------------------ writes by date

  method SaveExpensesToDate(store: LocalStorage, expenses: seq<Entry>, date: Date) returns (ok: bool)
    requires store.Valid()
    modifies store
    ensures store.Valid()
    ensures ok ==> store.items == old(store.items)[ExpensesKey(date) := Records(expenses)]
    ensures ok ==> store.keys == WithKey(old(store.keys), ExpensesKey(date))
    ensures ok ==> LoadExpensesFromDate(store.items, date) == expenses
    ensures !ok ==> store.items == old(store.items) && store.keys == old(store.keys)
  {
    ok := store.SetItem(ExpensesKey(date), Records(expenses));
  }

  method AddExpenseToDate(store: LocalStorage, expense: Entry, date: Date) returns (ok: bool)
    requires store.Valid()
    modifies store
    ensures store.Valid()
    ensures ok ==> store.items == old(store.items)[ExpensesKey(date) := Records(LoadExpensesFromDate(old(store.items), date) + [expense])]
    ensures ok ==> store.keys == WithKey(old(store.keys), ExpensesKey(date))
    ensures !ok ==> store.items == old(store.items) && store.keys == old(store.keys)
  {
    var existing := LoadExpensesFromDate(store.items, date);
    ok := SaveExpensesToDate(store, existing + [expense], date);
  }

  method UpdateExpenseInDate(store: LocalStorage, expenseId: int, patch: Entry, date: Date) returns (ok: bool)
    requires store.Valid()
    modifies store
    ensures store.Valid()
    ensures ok ==> store.items == old(store.items)[ExpensesKey(date) := Records(UpdateById(LoadExpensesFromDate(old(store.items), date), expenseId, patch))]
    ensures ok ==> store.keys == WithKey(old(store.keys), ExpensesKey(date))
    ensures !ok ==> store.items == old(store.items) && store.keys == old(store.keys)
  {
    var existing := LoadExpensesFromDate(store.items, date);
    ok := SaveExpensesToDate(store, UpdateById(existing, expenseId, patch), date);
  }

  method DeleteExpenseFromDate(store: LocalStorage, expenseId: int, date: Date) returns (ok: bool)
    requires store.Valid()
    modifies store
    ensures store.Valid()
    ensures ok ==> store.items == old(store.items)[ExpensesKey(date) := Records(WithoutId(LoadExpensesFromDate(old(store.items), date), expenseId))]
    ensures ok ==> store.keys == WithKey(old(store.keys), ExpensesKey(date))
    ensures !ok ==> store.items == old(store.items) && store.keys == old(store.keys)
  {
    var existing := LoadExpensesFromDate(store.items, date);
    ok := SaveExpensesToDate(store, WithoutId(existing, expenseId), date);
  }

  method SaveBudgetToDate(store: LocalStorage, budget: real, date: Date) returns (ok: bool)
    requires store.Valid()
    modifies store
    ensures store.Valid()
    ensures ok ==> store.items == old(store.items)[BudgetKey(date) := Number(budget)]
    ensures ok ==> store.keys == WithKey(old(store.keys), BudgetKey(date))
    ensures ok ==> LoadBudgetFromDate(store.items, date) == budget
    ensures !ok ==> store.items == old(store.items) && store.keys == old(store.keys)
  {
    ok := store.SetItem(BudgetKey(date), Number(budget));
  }

  method SaveAppSettings(store: LocalStorage, settings: AppSettings) returns (ok: bool)
    requires store.Valid()
    modifies store
    ensures store.Valid()
    ensures ok ==> store.items == old(store.items)[SettingsKey := Settings(settings)]
    ensures ok ==> store.keys == WithKey(old(store.keys), SettingsKey)
    ensures !ok ==> store.items == old(store.items) && store.keys == old(store.keys)
  {
    ok := store.SetItem(SettingsKey, Settings(settings));
  }

  // ------------------------------------------------------------------ reading

  lemma CollectStep(ks: seq<string>, i: nat, items: map<string, Value>, fallback: real)
    requires i < |ks|
    ensures Collect(ks[..i + 1], items, fallback) == Collect(ks[..i], items, fallback) + Found(DayOf(items, ks[i], fallback))
  {
    assert ks[..i + 1][..i] == ks[..i];
  }

  /** The body of `getAllExpenseData`'s loop for one key: what it pushes. */
  method VisitKey(store: LocalStorage, key: string) returns (pushed: seq<DaySummary>)
    ensures pushed == Found(DayOf(store.items, key, GetDefaultBudget(store.items)))
  {
    pushed := [];
    if StartsWith(key, ExpensesPrefix) {
      var date := key[|ExpensesPrefix|..];
      var parsed := ReadList(store.GetItem(key));
      if parsed.Some? {
        var expenses := parsed.value;
        match ParseDate(date) {
          case Some(d) =>
            var budget := LoadBudgetFromDate(store.items, d);
            if |expenses| > 0 {
              var totalSpent := Total(expenses);
              pushed := [DaySummary(d, expenses, budget, totalSpent, budget - totalSpent)];
            }
          case None =>
        }
      }
    }
  }

  /** `getAllExpenseData()`. */
  method GetAllExpenseData(store: LocalStorage) returns (history: seq<DaySummary>)
    requires store.Valid()
    ensures history == History(store.keys, store.items, GetDefaultBudget(store.items))
  {
    var keys := store.keys;
    var fallback := GetDefaultBudget(store.items);
    var found: seq<DaySummary> := [];
    var i := 0;
    while i < |keys|
      invariant 0 <= i <= |keys|
      invariant found == Collect(keys[..i], store.items, fallback)
    {
      var pushed := VisitKey(store, keys[i]);
      found := found + pushed;
      CollectStep(keys, i, store.items, fallback);
      i := i + 1;
    }
    assert keys[..|keys|] == keys;
    history := SortNewestFirst(found);
  }

  lemma KeyStatsStep(ks: seq<string>, i: nat, items: map<string, Value>)
    requires i < |ks|
    ensures KeyStats(ks[..i + 1], items) == Tally(KeyStats(ks[..i], items), ReadList(Lookup(items, ks[i])))
  {
    assert ks[..i + 1][..i] == ks[..i];
  }

  /** `getStorageInfo()`. */
  method GetStorageInfo(store: LocalStorage) returns (info: StorageInfo)
    ensures var s := KeyStats(WithPrefix(store.keys, ExpensesPrefix), store.items);
      && info.totalExpenses == s.expenses && info.totalDays == s.days && info.totalAmount == s.amount
      && info.averagePerDay == (if s.days > 0 then s.amount / s.days as real else 0.0)
      && info.expenseKeys == |WithPrefix(store.keys, ExpensesPrefix)|
      && info.budgetKeys == |WithPrefix(store.keys, BudgetPrefix)|
  {
    var expenseKeys := WithPrefix(store.keys, ExpensesPrefix);
    var budgetKeys := WithPrefix(store.keys, BudgetPrefix);
    var totalExpenses: nat, totalDays: nat, totalAmount := 0, 0, 0.0;
    var i := 0;
    while i < |expenseKeys|
      invariant 0 <= i <= |expenseKeys|
      invariant Stats(totalExpenses, totalDays, totalAmount) == KeyStats(expenseKeys[..i], store.items)
    {
      var parsed := ReadList(store.GetItem(expenseKeys[i]));
      if parsed.Some? {
        var expenses := parsed.value;
        totalExpenses := totalExpenses + |expenses|;
        if |expenses| > 0 {
          totalDays := totalDays + 1;
          totalAmount := totalAmount + Total(expenses);
        }
      }
      KeyStatsStep(expenseKeys, i, store.items);
      i := i + 1;
    }
    assert expenseKeys[..|expenseKeys|] == expenseKeys;
    info := StorageInfo(totalExpenses, totalDays, totalAmount,
      if totalDays > 0 then totalAmount / totalDays as real else 0.0,
      |expenseKeys|, |budgetKeys|);
  }

  // ----------------------------------------------------------------- clearing

  /** The keys of a list that `clearAllData` keeps, in order. */
  function Unscoped(ks: seq<string>): seq<string> {
    if ks == [] then []
    else Unscoped(ks[..|ks| - 1]) + (if DateScoped(ks[|ks| - 1]) then [] else [ks[|ks| - 1]])
  }

  /** What stays is exactly the keys that are not date-scoped. */
  lemma {:induction false} UnscopedMembers(ks: seq<string>)
    ensures forall k :: k in Unscoped(ks) <==> k in ks && !DateScoped(k)
  {
    if ks != [] {
      UnscopedMembers(ks[..|ks| - 1]);
      assert ks == ks[..|ks| - 1] + [ks[|ks| - 1]];
    }
  }

  lemma KeepStep(keys: seq<string>, i: nat)
    requires i < |keys| && !DateScoped(keys[i])
    ensures Unscoped(keys[..i]) + keys[i..] == Unscoped(keys[..i + 1]) + keys[i + 1..]
  {
    assert keys[..i + 1][..i] == keys[..i];
    assert keys[i..] == [keys[i]] + keys[i + 1..];
  }

  /** A key of a duplicate-free list occurs neither before nor after its
      position. */
  lemma OnlyOnce(keys: seq<string>, i: nat)
    requires NoDuplicates(keys) && i < |keys|
    ensures keys[i] !in keys[..i] && keys[i] !in keys[i + 1..]
  {
    var x := keys[i];
    forall p | 0 <= p < i ensures keys[..i][p] != x {
      assert keys[..i][p] == keys[p];
    }
    var tail := keys[i + 1..];
    forall p | 0 <= p < |tail| ensures tail[p] != x {
      assert tail[p] == keys[i + 1 + p];
    }
  }

  lemma RemoveStep(keys: seq<string>, i: nat)
    requires NoDuplicates(keys) && i < |keys| && DateScoped(keys[i])
    ensures Except(Unscoped(keys[..i]) + keys[i..], keys[i]) == Unscoped(keys[..i + 1]) + keys[i + 1..]
  {
    var x, tail := keys[i], keys[i + 1..];
    OnlyOnce(keys, i);
    UnscopedAbsent(keys[..i], x);
    assert keys[i..] == [x] + tail;
    RemoveFrom(Unscoped(keys[..i]), x, tail);
    assert keys[..i + 1][..i] == keys[..i];
    assert keys[..i + 1][i] == x;
  }

  /** A key that is not in a list is not among its kept keys. */
  lemma UnscopedAbsent(ks: seq<string>, x: string)
    requires x !in ks
    ensures x !in Unscoped(ks)
  {
    UnscopedMembers(ks);
  }

  /** Removing a key that occurs once, between two parts that lack it,
      leaves the two parts. */
  lemma RemoveFrom(u: seq<string>, x: string, tail: seq<string>)
    requires x !in u && x !in tail
    ensures Except(u + ([x] + tail), x) == u + tail
  {
    ExceptConcat(u, [x] + tail, x);
    ExceptAbsent(u, x);
    ExceptConcat([x], tail, x);
    ExceptAbsent(tail, x);
  }

  /** The date-scoped keys among `ks`. */
  function ScopedIn(ks: seq<string>): set<string> {
    set k | k in ks && DateScoped(k)
  }

  /** One turn of the clearing loop: the key at position `i` goes if it is
      date-scoped and stays otherwise. */
  method ClearStep(store: LocalStorage, keys: seq<string>, ghost before: map<string, Value>, i: nat)
    requires NoDuplicates(keys) && i < |keys|
    requires store.Valid()
    requires store.keys == Unscoped(keys[..i]) + keys[i..]
    requires store.items == before - ScopedIn(keys[..i])
    modifies store
    ensures store.Valid()
    ensures store.keys == Unscoped(keys[..i + 1]) + keys[i + 1..]
    ensures store.items == before - ScopedIn(keys[..i + 1])
  {
    var key := keys[i];
    assert keys[..i + 1] == keys[..i] + [key];
    if DateScoped(key) {
      RemoveStep(keys, i);
      assert ScopedIn(keys[..i + 1]) == ScopedIn(keys[..i]) + {key};
      store.RemoveItem(key);
    } else {
      assert ScopedIn(keys[..i + 1]) == ScopedIn(keys[..i]);
      KeepStep(keys, i);
    }
  }

  /** The loop `clearAllData` and the history screen's clear share: remove
      every key that starts with `expenses_` or `budget_`. */
  method RemoveDateData(store: LocalStorage)
    requires store.Valid()
    modifies store
    ensures store.Valid()
    ensures store.keys == Unscoped(old(store.keys))
    ensures store.items == old(store.items) - ScopedIn(old(store.keys))
  {
    var keys := store.keys;
    ghost var before := store.items;
    assert keys[..0] == [] && keys[0..] == keys;
    assert ScopedIn(keys[..0]) == {};
    assert before - {} == before;
    var i := 0;
    while i < |keys|
      invariant 0 <= i <= |keys|
      invariant store.Valid()
      invariant store.keys == Unscoped(keys[..i]) + keys[i..]
      invariant store.items == before - ScopedIn(keys[..i])
    {
      ClearStep(store, keys, before, i);
      i := i + 1;
    }
    assert keys[..|keys|] == keys && keys[|keys|..] == [];
  }

  /** `clearAllData()`. */
  method ClearAllData(store: LocalStorage) returns (ok: bool)
    requires store.Valid()
    modifies store
    ensures store.Valid() && ok
    ensures store.keys == Unscoped(old(store.keys))
    ensures forall k :: k in store.items <==> k in old(store.items) && !DateScoped(k)
    ensures forall k :: k in store.items ==> store.items[k] == old(store.items)[k]
  {
    RemoveDateData(store);
    ok := true;
  }

  /** After the date-scoped keys are removed, the history is empty, no date has
      a list or a budget of its own, and every preference keeps its value: in
      particular each date's budget is the unchanged default budget. */
  lemma AfterClear(before: map<string, Value>, after: map<string, Value>, ks: seq<string>, fallback: real, d: Date)
    requires forall k :: k in after <==> k in before && !DateScoped(k)
    requires forall k :: k in after ==> after[k] == before[k]
    ensures History(ks, after, fallback) == []
    ensures LoadExpensesFromDate(after, d) == []
    ensures LoadBudgetFromDate(after, d) == GetDefaultBudget(after) == GetDefaultBudget(before)
    ensures forall k :: k in PreferenceKeys ==> Lookup(after, k) == Lookup(before, k)
  {
    NoDateDataNoHistory(ks, after, fallback);
    KeyShape(d);
    PreferenceKeysUnscoped(d);
  }

  // --------------------------------------------------------------- validation

  /** What the validation pass writes back for key `k` holding `v`, when it
      writes: for an `expenses_` key whose list parses and loses an entry to
      the filter, the kept entries with their dates filled in. */
  function Validated(k: string, v: Value, nowIso: string): Value {
    if !StartsWith(k, ExpensesPrefix) then v
    else
      match ReadList(Some(v))
      case None => v
      case Some(es) =>
        var updated := Migrate(es, nowIso);
        if |updated| != |es| then Records(updated) else v
  }

  /** Every key of `before` is still there and holds either its old value or
      the value the validation pass writes for it. */
  ghost predicate MigratedFrom(before: map<string, Value>, after: map<string, Value>, nowIso: string) {
    && (forall k :: k in after <==> k in before)
    && (forall k :: k in before ==> after[k] == before[k] || after[k] == Validated(k, before[k], nowIso))
  }

  /** The pass rewrites only an `expenses_` key holding a list with a malformed
      entry, and then writes exactly the well-formed entries, in their order,
      keeping their id, amount, description and timestamp. A list whose entries
      are all well-formed is never rewritten, whatever their dates. */
  lemma ValidatedSpec(k: string, v: Value, nowIso: string)
    ensures Validated(k, v, nowIso) != v ==>
      && StartsWith(k, ExpensesPrefix) && v.Records?
      && (exists i :: 0 <= i < |v.entries| && !WellFormed(v.entries[i]))
      && Validated(k, v, nowIso) == Records(Migrate(v.entries, nowIso))
    ensures v.Records? && (forall i :: 0 <= i < |v.entries| ==> WellFormed(v.entries[i])) ==>
      Validated(k, v, nowIso) == v
  {
    if v.Records? {
      KeepWellFormedSpec(v.entries);
    }
  }

  /** Running the pass over its own output writes nothing more. */
  lemma ValidatedIdempotent(k: string, v: Value, nowIso: string)
    ensures Validated(k, Validated(k, v, nowIso), nowIso) == Validated(k, v, nowIso)
  {
    var w := Validated(k, v, nowIso);
    if w != v {
      ValidatedSpec(k, v, nowIso);
      var m := Migrate(v.entries, nowIso);
      forall i | 0 <= i < |m| ensures WellFormed(m[i]) {
        MigrateEffect(v.entries, nowIso, i);
      }
      ValidatedSpec(k, w, nowIso);
    }
  }

  /** `validateAndMigrateData()`. A write that throws is caught and the key
      keeps its old value. */
  method ValidateAndMigrateData(store: LocalStorage, nowIso: string) returns (ok: bool)
    requires store.Valid()
    modifies store
    ensures store.Valid() && ok
    ensures store.keys == old(store.keys)
    ensures MigratedFrom(old(store.items), store.items, nowIso)
  {
    var keys := store.keys;
    ghost var before := store.items;
    var i := 0;
    while i < |keys|
      invariant 0 <= i <= |keys|
      invariant store.Valid() && store.keys == keys && before == old(store.items)
      invariant forall k :: k in store.items <==> k in before
      invariant forall k :: k in before ==> store.items[k] == before[k] || store.items[k] == Validated(k, before[k], nowIso)
      invariant forall j :: i <= j < |keys| ==> store.items[keys[j]] == before[keys[j]]
    {
      var key := keys[i];
      if StartsWith(key, ExpensesPrefix) {
        var parsed := ReadList(store.GetItem(key));
        if parsed.Some? {
          var expenses := parsed.value;
          var updated := Migrate(expenses, nowIso);
          if |updated| != |expenses| {
            var written := store.SetItem(key, Records(updated));
          }
        }
      }
      i := i + 1;
    }
    ok := true;
  }

  /** `initializeStorage()`: validate, store the default settings and today's
      budget when they are missing, then report the statistics. */
  method InitializeStorage(store: LocalStorage, today: Date, nowIso: string) returns (info: StorageInfo)
    requires store.Valid()
    modifies store
    ensures store.Valid()
    ensures var s := KeyStats(WithPrefix(store.keys, ExpensesPrefix), store.items);
      && info.totalExpenses == s.expenses && info.totalDays == s.days && info.totalAmount == s.amount
      && info.averagePerDay == (if s.days > 0 then s.amount / s.days as real else 0.0)
      && info.expenseKeys == |WithPrefix(store.keys, ExpensesPrefix)|
      && info.budgetKeys == |WithPrefix(store.keys, BudgetPrefix)|
    ensures forall k :: k in old(store.items) ==> k in store.items
    ensures forall k :: k in store.items && k !in old(store.items) ==> k == SettingsKey || k == BudgetKey(today)
    ensures forall k :: k in old(store.items) && k != SettingsKey && k != BudgetKey(today) ==>
      store.items[k] == old(store.items)[k] || store.items[k] == Validated(k, old(store.items)[k], nowIso)
    ensures Truthy(old(Lookup(store.items, SettingsKey))) ==> Lookup(store.items, SettingsKey) == old(Lookup(store.items, SettingsKey))
    ensures Lookup(store.items, SettingsKey) == old(Lookup(store.items, SettingsKey))
      || Lookup(store.items, SettingsKey) == Some(Settings(GetDefaultSettings()))
    ensures Truthy(old(Lookup(store.items, BudgetKey(today)))) ==>
      Lookup(store.items, BudgetKey(today)) == old(Lookup(store.items, BudgetKey(today)))
    ensures Lookup(store.items, BudgetKey(today)) == old(Lookup(store.items, BudgetKey(today)))
      || Lookup(store.items, BudgetKey(today)) == Some(Number(GetDefaultBudget(old(store.items))))
  {
    ghost var before := store.items;
    var validated := ValidateAndMigrateData(store, nowIso);
    KeyShape(today);
    PreferenceKeysUnscoped(today);
    assert SettingsKey in PreferenceKeys && DefaultBudgetKey in PreferenceKeys;
    assert Lookup(store.items, SettingsKey) == Lookup(before, SettingsKey);
    assert Lookup(store.items, BudgetKey(today)) == Lookup(before, BudgetKey(today));
    assert Lookup(store.items, DefaultBudgetKey) == Lookup(before, DefaultBudgetKey);
    ghost var validatedItems := store.items;

    var settings := LoadAppSettings(store.GetItem(SettingsKey));
    if !Truthy(store.GetItem(SettingsKey)) {
      var saved := SaveAppSettings(store, settings);
    }
    assert GetDefaultBudget(store.items) == GetDefaultBudget(before);
    assert Lookup(store.items, BudgetKey(today)) == Lookup(before, BudgetKey(today));

    var todaysBudget := LoadBudgetFromDate(store.items, today);
    if !Truthy(store.GetItem(BudgetKey(today))) {
      var saved := SaveBudgetToDate(store, todaysBudget, today);
    }
    info := GetStorageInfo(store);
  }
}
