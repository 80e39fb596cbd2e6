# Daily budget tracker: the date-keyed expense store

This project is a Dafny model of the data core of a browser expense tracker,
together with proofs about it. The tracker keeps all of its data in
`localStorage`, a flat map from text keys to text values:

- `expenses_<date>` holds that day's list of expense records;
- `budget_<date>` holds the day's budget;
- a few singleton keys hold preferences (`app_settings`, `darkMode`,
  `homeCurrency`, `exchangeRate`, `defaultBudget`).

The model covers four parts:

- the store helpers (per-date load, save, add, update and delete; budget
  lookup with its default; the history scan; clearing; statistics; the
  startup validation pass);
- the CSV, date-range and report-total logic of the exports;
- the today screen, which reads and writes today's two keys directly;
- the history screen, which rebuilds the per-day summaries from the store and
  edits, deletes and clears them.

Modules, one per concern:

| module | file | what it holds |
|---|---|---|
| `Common` | common.dfy | option type, `startsWith`, `trim`, `join` |
| `Dates` | dates.dfy | dates as day numbers; `toDateString` as an injective key text that reads back |
| `Expenses` | expenses.dfy | the expense record, sums, the `map`/`filter` list transforms, the validation filter |
| `Summaries` | summaries.dfy | day summaries, the newest-first sort, the report sums, the history screen's per-day map |
| `Store` | store.dfy | `localStorage` as a class: a map of parsed values plus a key order that the model fixes (a new key goes last) |
| `StorageUtils` | storage_utils.dfy | `src/utils/storageUtils.js` |
| `Csv` | csv.dfy | a reference reader for comma-separated records and a correctly escaping writer |
| `ExportUtils` | export_utils.dfy | `src/utils/exportUtils.js` |
| `BudgetTrackerScreen` | budget_tracker.dfy | `src/components/BudgetTracker.jsx` |
| `ExpenseHistoryScreen` | expense_history.dfy | `src/components/ExpenseHistory.jsx` |

Parameters and representation choices:

- Stored values are kept as the values their texts parse to:
  - a record list;
  - a number;
  - a settings object;
  - plain text;
  - `Unparseable`, for text on which `JSON.parse` throws.
- A write can fail, as it does when the quota is exceeded. That failure is
  modelled as a nondeterministic `ok`.
- "Now" is a parameter wherever the source reads it: `Date.now()` ids, ISO
  timestamps and today's date.
- The locale formatters are parameters (`ExportUtils.Formats`).
- `confirm(...)` is a boolean parameter.
- Amounts are `real`, so every sum is exact.

## Model

| member | source | states |
|---|---|---|
| Dates.ParseDateKey | src/utils/storageUtils.js:14-20 | reading back the key text of a date gives that date |
| Dates.DateKeyInjective | src/utils/storageUtils.js:14-16 | different dates have different key texts |
| Dates.DateKeyIsDateKey | src/utils/storageUtils.js:14-20 | every date's key text is a canonical date text and names that date |
| Common.TrimStartSpec | src/components/BudgetTracker.jsx:50 | the start trim drops exactly a whitespace prefix and stops at the first character that is not whitespace |
| Common.TrimEndSpec | src/components/BudgetTracker.jsx:50 | the end trim drops exactly a whitespace suffix and stops at the last character that is not whitespace |
| Common.TrimSpec | src/components/BudgetTracker.jsx:50 | `trim()` gives an infix of the text that is empty or starts and ends with non-whitespace |
| Common.TrimBlank | src/components/BudgetTracker.jsx:50 | a text made only of whitespace trims to the empty text |
| Common.TrimKeepsContent | src/components/BudgetTracker.jsx:50 | a text with a non-whitespace character trims to a non-empty text |
| Common.JoinSeparators | src/utils/exportUtils.js:274 | joining n parts that lack the separator character leaves exactly n - 1 occurrences of it |
| Common.JoinAvoids | src/utils/exportUtils.js:271 | a character in no part and not in the separator is not in the joined text |
| Common.OccurrencesConcat | src/utils/exportUtils.js:274 | occurrence counts add up over concatenation |
| Store.Lookup | src/utils/storageUtils.js:42 | `getItem` gives a value exactly when the key is present, and then the stored one |
| Store.WithKey | src/utils/storageUtils.js:216 | after `setItem`, `Object.keys` lists exactly the old keys and the written key, still without duplicates |
| Store.Except | src/utils/storageUtils.js:249 | after `removeItem`, `Object.keys` lists exactly the other keys, without duplicates |
| Store.ExceptConcat | src/utils/storageUtils.js:247-251 | removing a key from joined key lists removes it from each part |
| Store.ExceptAbsent | src/utils/storageUtils.js:249 | removing an absent key leaves the key list unchanged |
| Store.LocalStorage.SetItem | src/utils/storageUtils.js:27-34 | a successful write maps the key to the value and lists the key; a failed write changes nothing |
| Store.LocalStorage.RemoveItem | src/utils/storageUtils.js:249 | the key leaves the map and the key list; every other key stays |
| Expenses.TotalAppend | src/utils/storageUtils.js:226 | the reduce-sum of two joined lists is the sum of their sums |
| Expenses.TotalSnoc | src/components/BudgetTracker.jsx:107 | appending an expense raises the sum by its amount |
| Expenses.UpdateById | src/utils/storageUtils.js:58-64 | the update keeps the list's length (its effect on each entry: `UpdateByIdEffect`) |
| Expenses.UpdateByIdEffect | src/utils/storageUtils.js:60-62 | entries with the id get every field present in the patch and keep the rest; other entries are unchanged; length and order are kept |
| Expenses.WithoutIdMembers | src/utils/storageUtils.js:66-70 | the filter keeps exactly the entries with another id, and never lengthens the list |
| Expenses.WithoutIdConcat | src/utils/storageUtils.js:68 | the filter works part by part, so the kept entries keep their order |
| Expenses.WithoutAbsentId | src/utils/storageUtils.js:66-70 | deleting an id no entry carries leaves the list as it was |
| Expenses.CountIdConcat | src/utils/storageUtils.js:68 | the count of entries with an id adds up over concatenation |
| Expenses.CountWithoutId | src/utils/storageUtils.js:66-70 | after deleting an id, no entry carries it |
| Expenses.KeepWellFormedSpec | src/utils/storageUtils.js:318-324 | the validation filter keeps exactly the entries with id, numeric amount, string description and truthy timestamp; it drops one exactly when one is malformed |
| Expenses.KeepWellFormedConcat | src/utils/storageUtils.js:318-324 | the validation filter works part by part, preserving order |
| Expenses.Migrate | src/utils/storageUtils.js:327-331 | the migrated list is as long as the filtered list |
| Expenses.MigrateEffect | src/utils/storageUtils.js:318-331 | migrated entry i keeps id, amount, description and timestamp of the i-th well-formed entry; only a missing or empty date is filled in, with the date part of now |
| Summaries.Recompute | src/components/ExpenseHistory.jsx:87-93 | a recomputed day has the new list, the same date and budget, and totals consistent with the list |
| Summaries.InsertMembers | src/utils/storageUtils.js:241 | inserting into the sorted list adds exactly the inserted day |
| Summaries.InsertPermutes | src/utils/storageUtils.js:241 | insertion adds the day to the multiset of days |
| Summaries.SortPermutes | src/utils/storageUtils.js:241 | the sort is a permutation |
| Summaries.InsertSorted | src/utils/storageUtils.js:241 | insertion keeps a list ordered newest first |
| Summaries.SortSorted | src/utils/storageUtils.js:241 | the sort returns a list ordered newest first |
| Summaries.SortSpec | src/utils/storageUtils.js:241 | the sort is a permutation with the same members, strictly newest first when the dates are distinct |
| Summaries.PermutationKeepsDistinct | src/utils/storageUtils.js:241 | a permutation of a list with distinct dates has distinct dates |
| Summaries.OnceInDistinct | src/utils/storageUtils.js:241 | each day of a list with distinct dates occurs once |
| Summaries.SumsConcat | src/utils/exportUtils.js:96-100 | the grand total and the transaction count add up over concatenation |
| Summaries.InsertSums | src/utils/exportUtils.js:96-100 | insertion adds the day's total and its list length to the sums |
| Summaries.SortSums | src/utils/exportUtils.js:94-100 | sorting changes neither the grand total nor the transaction count |
| Summaries.DayWithDateAt | src/components/ExpenseHistory.jsx:77 | the first day carrying a date is found |
| Summaries.DayWithDateNone | src/components/ExpenseHistory.jsx:77 | no day is found when none carries the date |
| Summaries.MapDay | src/components/ExpenseHistory.jsx:76-96 | the per-day map keeps the number of days |
| Summaries.MapDayPreserves | src/components/ExpenseHistory.jsx:76-96 | the map keeps every date and budget in place and every other day unchanged; it keeps the order and each day's consistency |
| Summaries.DropEmptySpec | src/components/ExpenseHistory.jsx:127 | dropping empty days keeps exactly the non-empty ones, still newest first |
| Summaries.DropEmptyKeepsAll | src/components/ExpenseHistory.jsx:127 | a list without empty days is left as it is |
| Summaries.NewestFirstUnique | src/utils/storageUtils.js:241 | two strictly newest-first lists with the same members are equal |
| Summaries.SortKeepsSorted | src/utils/exportUtils.js:94 | sorting a strictly newest-first list leaves it unchanged |
| StorageUtils.KeyShape | src/utils/storageUtils.js:3-11 | a date's expenses key and budget key carry their prefix and the date's key text, and neither carries the other prefix |
| StorageUtils.KeysInjective | src/utils/storageUtils.js:25 | each date has its own expenses key and budget key, and the two families never meet |
| StorageUtils.PreferenceKeysUnscoped | src/utils/storageUtils.js:3-11 | no preference key is date-scoped or the key of a date |
| StorageUtils.ExpensesKeyOfSuffix | src/utils/storageUtils.js:221 | an `expenses_` key whose suffix is a date text is that date's expenses key |
| StorageUtils.WellKeyedWrite | src/utils/storageUtils.js:23-35 | writing a date's expenses key or any other family's key, or removing a key, keeps every `expenses_` key's suffix a date text |
| StorageUtils.LoadExpensesFromDate | src/utils/storageUtils.js:37-50 | the stored list, or [] when the key is missing, empty or unparsable |
| StorageUtils.GetDefaultBudget | src/utils/storageUtils.js:203-211 | the stored default budget, else 1000 |
| StorageUtils.LoadBudgetFromDate | src/utils/storageUtils.js:87-100 | the date's stored budget, else the default budget |
| StorageUtils.LoadAppSettings | src/utils/storageUtils.js:114-131 | the stored settings, else the default settings |
| StorageUtils.ExpensesWriteFrame | src/utils/storageUtils.js:23-50 | loading a date just saved gives the saved list; other dates' lists, all budgets and the default budget stay |
| StorageUtils.BudgetWriteFrame | src/utils/storageUtils.js:73-100 | loading a budget just saved gives it; other dates' budgets and all lists stay |
| StorageUtils.DayOfKey | src/utils/storageUtils.js:218-234 | the scan's step for a date's key builds that date's stored summary |
| StorageUtils.DayOfIsStoredDay | src/utils/storageUtils.js:218-234 | in a well-keyed store, a key the scan summarises is present and is the expenses key of the summary's date |
| StorageUtils.CollectSpec | src/utils/storageUtils.js:214-239 | the scan pushes exactly the stored non-empty, parsable days of the listed keys, each date once |
| StorageUtils.HistoryCharacterized | src/utils/storageUtils.js:214-242 | the history is strictly newest first and holds exactly one summary per listed date with a parsable non-empty list, with that list, its stored budget or the fallback, and consistent totals |
| StorageUtils.HistoryMembers | src/utils/storageUtils.js:214-242 | the history is strictly newest first and its members are exactly the stored days of the listed keys |
| StorageUtils.HistoryEntries | src/utils/storageUtils.js:225-233 | each summary has a non-empty list equal to the stored one, the stored budget or the fallback, and consistent totals |
| StorageUtils.HistoryDates | src/utils/storageUtils.js:214-242 | a date appears in the history exactly when its key is listed and holds a parsable non-empty list |
| StorageUtils.NoDateDataNoHistory | src/utils/storageUtils.js:214-242 | without date-scoped keys the history is empty |
| StorageUtils.TallyMatchesDay | src/utils/storageUtils.js:270-281 | the statistics step for a key adds what the history step for it adds to the report sums |
| StorageUtils.StatsMatchCollect | src/utils/storageUtils.js:260-281 | the statistics over the `expenses_` keys equal the transaction count, day count and grand total of the scan's days |
| StorageUtils.StorageInfoMatchesHistory | src/utils/storageUtils.js:260-281 | `totalExpenses`, `totalDays` and `totalAmount` agree with `getAllExpenseData` |
| StorageUtils.SaveExpensesToDate | src/utils/storageUtils.js:23-35 | on success only the date's key changes and loading it gives the list; on failure nothing changes |
| StorageUtils.AddExpenseToDate | src/utils/storageUtils.js:52-56 | on success the date's list is the old list with the expense at the end and no other key changes |
| StorageUtils.UpdateExpenseInDate | src/utils/storageUtils.js:58-64 | on success the date's list is the old one with the patch overlaid on the entries with the id |
| StorageUtils.DeleteExpenseFromDate | src/utils/storageUtils.js:66-70 | on success the date's list is the old one without the entries with the id |
| StorageUtils.SaveBudgetToDate | src/utils/storageUtils.js:73-85 | on success only the date's budget key changes and loading it gives the budget |
| StorageUtils.SaveAppSettings | src/utils/storageUtils.js:103-112 | on success only the settings key changes |
| StorageUtils.VisitKey | src/utils/storageUtils.js:219-234 | one loop step pushes exactly the key's summary, if it has one |
| StorageUtils.GetAllExpenseData | src/utils/storageUtils.js:214-242 | the result is the history of the store's keys against the default budget (see `HistoryCharacterized`) |
| StorageUtils.GetStorageInfo | src/utils/storageUtils.js:260-303 | the counters are the statistics of the `expenses_` keys; the average is 0 without days; the key counts are those of each prefix |
| StorageUtils.UnscopedMembers | src/utils/storageUtils.js:247-251 | the kept keys are exactly those starting with neither `expenses_` nor `budget_` |
| StorageUtils.ClearStep | src/utils/storageUtils.js:247-251 | one loop step removes the key if it is date-scoped and keeps it otherwise |
| StorageUtils.RemoveDateData | src/utils/storageUtils.js:246-251 | exactly the date-scoped keys leave the map; the other keys keep their values and order |
| StorageUtils.ClearAllData | src/utils/storageUtils.js:244-258 | exactly the date-scoped keys are removed, every other key keeps its value, and the result is true |
| StorageUtils.AfterClear | src/utils/storageUtils.js:244-258 | after clearing, the history is empty, every date reads as [] with the unchanged default budget, and preferences keep their values |
| StorageUtils.ValidatedSpec | src/utils/storageUtils.js:318-335 | a key is rewritten only when it is an `expenses_` list with a malformed entry, and then with the migrated list; an all-valid list is never rewritten |
| StorageUtils.ValidatedIdempotent | src/utils/storageUtils.js:311-341 | validating a validated value changes nothing |
| StorageUtils.ValidateAndMigrateData | src/utils/storageUtils.js:306-349 | the keys stay the same; each value is either unchanged or its validated form; the result is true |
| StorageUtils.InitializeStorage | src/utils/storageUtils.js:352-375 | no key is lost; the only new keys are the settings and today's budget; every other value is unchanged or validated; a truthy settings value or budget is kept, and otherwise either kept or set to its default; the result is the statistics of the store afterwards |
| Csv.ReadQuotedBack | src/utils/exportUtils.js:267 | a body with its quotes doubled, then a closing quote, reads back as the value |
| Csv.ReadPlainBack | src/utils/exportUtils.js:271 | a field without a comma reads back as itself |
| Csv.ReadFieldBack | src/utils/exportUtils.js:271 | a correctly spelled field reads back as its value |
| Csv.RecordRoundTrip | src/utils/exportUtils.js:271 | correctly spelled fields joined by commas read back as the values |
| Csv.WriteRecordRoundTrip | src/utils/exportUtils.js:271 | a record written by the escaping writer reads back as its values |
| Csv.DoubleQuotesWithoutQuote | src/utils/exportUtils.js:267 | a text without quotes needs no doubling |
| Csv.QuotedAvoids | src/utils/exportUtils.js:267 | escaping adds no character other than quotes |
| Csv.SplitOnPrefix | src/utils/exportUtils.js:274 | splitting a text behind a part without the separator extends the first piece |
| Csv.SplitJoin | src/utils/exportUtils.js:274 | splitting lines joined by a separator none contains gives the lines back |
| Csv.DocumentOfLines | src/utils/exportUtils.js:274 | a document of lines reads as their records, in order |
| ExportUtils.FormatDate | src/utils/exportUtils.js:322-330 | a missing or empty date formats as the empty text |
| ExportUtils.FormatDateTime | src/utils/exportUtils.js:332-339 | a missing or empty timestamp formats as the empty text |
| ExportUtils.WrittenCells | src/utils/exportUtils.js:265-270 | a row has as many fields as values |
| ExportUtils.WrittenRowReadsBack | src/utils/exportUtils.js:265-271 | a row as written whose values hold no comma, quote or line break (no quote in the description) reads back as exactly its values |
| ExportUtils.WrittenRowIsOneLine | src/utils/exportUtils.js:271 | a row of values without line breaks is one line |
| ExportUtils.RowCells | src/utils/exportUtils.js:265-270 | every field of an escaped row spells its value correctly |
| ExportUtils.RowReadsBack | src/utils/exportUtils.js:265-271 | every escaped row reads back as exactly its values |
| ExportUtils.RowIsOneLine | src/utils/exportUtils.js:271 | an escaped row of values without line breaks is one line |
| ExportUtils.HeadersReadBack | src/utils/exportUtils.js:261-262 | both header lines read back as their 4 and 7 headers and are single lines |
| ExportUtils.HeadersBare | src/utils/exportUtils.js:278 | no header needs quoting |
| ExportUtils.WrittenRows | src/utils/exportUtils.js:264-272 | one row per record |
| ExportUtils.WrittenDocument | src/utils/exportUtils.js:274 | split at line breaks, an export gives back its header line and then each record's row, in order |
| ExportUtils.WrittenLineAt | src/utils/exportUtils.js:274 | line k + 1 of an export is the row of record k |
| ExportUtils.EscapedRows | src/utils/exportUtils.js:264-272 | one escaped row per record |
| ExportUtils.EscapedDocument | src/utils/exportUtils.js:274 | an escaped export reads back line by line as the header record and then each record, in order |
| ExportUtils.ExpenseRecords | src/utils/exportUtils.js:264-272 | one record per expense |
| ExportUtils.ConvertToCSV | src/utils/exportUtils.js:260-275 | the loop's text is the header line followed by the rows of the expenses, in list order |
| ExportUtils.ExpenseCsvLines | src/utils/exportUtils.js:260-275 | the export has exactly 1 + (number of expenses) lines, line i + 1 being expense i's four values with the description in quotes |
| ExportUtils.CsvHeaderLines | src/utils/exportUtils.js:260-279 | the first line of each export is its header row |
| ExportUtils.ExpenseCsvRecord | src/utils/exportUtils.js:264-272 | a line whose values are plain reads back as the expense's date, description, amount and time |
| ExportUtils.ExpenseCsvReadsBack | src/utils/exportUtils.js:260-275 | the escaped export reads back, line by line, as the header and then each expense's values, whatever they hold besides line breaks |
| ExportUtils.DayRecords | src/utils/exportUtils.js:282-293 | one record per expense of the day |
| ExportUtils.AllRecordsConcat | src/utils/exportUtils.js:281-294 | the records of joined day lists are the joined records |
| ExportUtils.AllRecordsLength | src/utils/exportUtils.js:281-294 | there is one record per transaction |
| ExportUtils.AllRecordsSplit | src/utils/exportUtils.js:281-294 | the records of day i come after those of the days before it and before those after it |
| ExportUtils.AllRecordsAt | src/utils/exportUtils.js:283-291 | the record of expense j of day i holds that expense's values and its own day's budget, total and remaining amount |
| ExportUtils.AllRecordsSingleLine | src/utils/exportUtils.js:283-291 | every record has 7 values and, when the values have no line breaks, none of them does |
| ExportUtils.ConvertAllDataToCSV | src/utils/exportUtils.js:277-297 | the nested loops' text is the 7-column header line and then one row per expense, day by day in input order and in list order within a day |
| ExportUtils.DayCsvLine | src/utils/exportUtils.js:277-297 | the export has 1 + (number of transactions) lines, line k + 1 being record k |
| ExportUtils.DayCsvRecord | src/utils/exportUtils.js:283-292 | a line whose values are plain reads back as its record |
| ExportUtils.DayCsvReadsBack | src/utils/exportUtils.js:277-297 | the escaped multi-day export reads back as the header and then each record |
| ExportUtils.FilterDaysSpec | src/utils/exportUtils.js:304-307 | the filter keeps exactly the days whose date passes, never lengthens the list, and keeps it newest first |
| ExportUtils.FilterDaysAgree | src/utils/exportUtils.js:304-307 | tests that agree on the days' dates select the same days |
| ExportUtils.FilterDaysSums | src/utils/exportUtils.js:186-189 | the totals of the kept days and of the others add up to the totals of all days |
| ExportUtils.GetDateRangeData | src/utils/exportUtils.js:299-308 | the result is the history's days dated from start to end, both included |
| ExportUtils.DateRangeOfHistory | src/utils/exportUtils.js:299-308 | the range holds, newest first, exactly the stored days whose date is within both bounds |
| ExportUtils.AsWrittenEastOfUtc | src/utils/exportUtils.js:301-306 | east of UTC the comparison as written selects the days after start up to end |
| ExportUtils.AsWrittenWestOfUtc | src/utils/exportUtils.js:301-306 | west of UTC the comparison as written selects the days from start up to, but excluding, end |
| ExportUtils.AsWrittenDropsSingleDay | src/utils/exportUtils.js:301-306 | in Bangkok (UTC+7) a one-day range of a day with data selects nothing |
| ExportUtils.AsWrittenOnUtc | src/utils/exportUtils.js:301-306 | at UTC (offset 0) the comparison as written selects the intended range |
| ExportUtils.ExpenseTotals | src/utils/exportUtils.js:59-64 | the total of today's report is the sum of the amounts and the count is the number of expenses |
| ExportUtils.ReportTotals | src/utils/exportUtils.js:182-253 | grand total = sum of the days' totals, days = number of days, transactions = sum of the list lengths, and an average only when there is a day |
| ExportUtils.Group | src/utils/exportUtils.js:87-91 | the dates listed by `Object.keys(groupedData)` are exactly the dates that hold a day |
| ExportUtils.GroupByDate | src/utils/exportUtils.js:87-91 | the `forEach` leaves the key order and the map that `Group` specifies |
| ExportUtils.GroupDates | src/utils/exportUtils.js:87-91 | a date is listed if and only if some day carries it |
| ExportUtils.GroupOrderUnique | src/utils/exportUtils.js:87-91 | no date is listed twice |
| ExportUtils.GroupLast | src/utils/exportUtils.js:87-91 | each date holds the last day with that date: a later day replaces an earlier one |
| ExportUtils.GroupDistinct | src/utils/exportUtils.js:87-91 | without repeated dates, the dates are listed in the days' order and each day is kept under its own date |
| ExportUtils.RegroupedDistinct | src/utils/exportUtils.js:87-96 | without repeated dates, the regrouped days are the days themselves |
| ExportUtils.RegroupedKeepsLast | src/utils/exportUtils.js:87-96 | each regrouped day is the last day of its date, no date is regrouped twice, and there are at most as many days as before |
| ExportUtils.RegroupedKeepsDates | src/utils/exportUtils.js:87-96 | every date among the days has a regrouped day |
| ExportUtils.ReportDays | src/utils/exportUtils.js:86-96 | the report's days are strictly newest first, each is the last day given for its date, and every date given is reported |
| ExportUtils.ReportOfHistory | src/utils/exportUtils.js:86-100 | on the history (which has distinct dates), regrouping and sorting give the history back, and the report totals equal the storage statistics |
| ExportUtils.PeriodTotalsSplit | src/utils/exportUtils.js:186-189 | a period's totals and the totals outside it add up to the complete report |
| ExportUtils.WrittenRowShape | src/utils/exportUtils.js:265-271 | a row as written is the first value, a comma, the quoted description and the rest |
| ExportUtils.AsWrittenDateSplits | src/utils/exportUtils.js:266 | a formatted date with a comma does not read back as the first value |
| ExportUtils.AsWrittenDateShifts | src/utils/exportUtils.js:284 | a date `a, b` reads back as the two fields `a` and `b`: the record has one field more and every later value moves one column right |
| ExportUtils.AsWrittenQuoteBreaksRow | src/utils/exportUtils.js:267 | a description with a quote followed by neither a quote nor a comma makes the row unreadable |
| ExportUtils.ReadQuotedStops | src/utils/exportUtils.js:267 | a quoted field ends at its first lone quote |
| ExportUtils.SandwichBreaksRow | src/utils/exportUtils.js:267 | the description `6" sub` makes the row unreadable |
| BudgetTrackerScreen.AddLowersRemaining | src/components/BudgetTracker.jsx:107-108 | a new expense raises the total by its amount and lowers the remaining amount by as much |
| BudgetTrackerScreen.Progress | src/components/BudgetTracker.jsx:109 | the progress value is never above 100; it is finite for a non-zero budget; with a zero budget it is finite exactly when something was spent |
| BudgetTrackerScreen.ProgressBounds | src/components/BudgetTracker.jsx:109 | with a positive budget and no negative total the bar is within 0..100, full exactly when the total reaches the budget, and otherwise the share spent |
| BudgetTrackerScreen.ProgressMonotone | src/components/BudgetTracker.jsx:109 | spending more never shrinks the bar |
| BudgetTrackerScreen.Reversed | src/components/BudgetTracker.jsx:315 | position i of the reverse holds the element i from the end |
| BudgetTrackerScreen.RecentSpec | src/components/BudgetTracker.jsx:315 | the recent list has the last min(10, n) expenses, the most recent first |
| BudgetTrackerScreen.SaveThenLoad | src/components/BudgetTracker.jsx:23-41 | loading right after saving gives back the list and budget; other dates read as before |
| BudgetTrackerScreen.TodayIgnoresDefault | src/components/BudgetTracker.jsx:9-30 | with no budget stored for today and a configured default x other than 1000, the screen's budget (1000) differs from `loadBudgetFromDate`'s (x) |
| BudgetTrackerScreen.TrimmedDescription | src/components/BudgetTracker.jsx:43-56 | the record gets the trimmed description: a text of whitespace only becomes empty, and any other text stays non-empty |
| BudgetTrackerScreen.EditKeepsIdentity | src/components/BudgetTracker.jsx:77-81 | an edit changes only amount and description of the entries with the id; id, timestamp, date, the other entries, length and order are kept |
| BudgetTrackerScreen.BudgetTracker.constructor | src/components/BudgetTracker.jsx:9-17 | the screen starts with budget 1000, no expenses and empty forms |
| BudgetTrackerScreen.BudgetTracker.LoadTodaysData | src/components/BudgetTracker.jsx:23-35 | a truthy stored budget and list replace the state; otherwise the state stays; an unparsable list reports failure and keeps the list |
| BudgetTrackerScreen.BudgetTracker.SaveTodaysData | src/components/BudgetTracker.jsx:37-41 | on success today's budget and list are written; on failure at most the budget has been written |
| BudgetTrackerScreen.BudgetTracker.AddExpense | src/components/BudgetTracker.jsx:43-60 | with an empty field nothing changes; otherwise exactly one new record goes to the end, both keys are written, and the form clears once the save succeeds |
| BudgetTrackerScreen.BudgetTracker.DeleteExpense | src/components/BudgetTracker.jsx:62-66 | the entries with the id go, the others keep their order, and both keys are written |
| BudgetTrackerScreen.BudgetTracker.StartEditExpense | src/components/BudgetTracker.jsx:68-72 | the edit form holds the expense's id, amount and description |
| BudgetTrackerScreen.BudgetTracker.SaveEditExpense | src/components/BudgetTracker.jsx:74-89 | with an empty field nothing changes; otherwise the entries with the id get the new amount and trimmed description, both keys are written, and the form closes once the save succeeds |
| BudgetTrackerScreen.BudgetTracker.CancelEditExpense | src/components/BudgetTracker.jsx:91-95 | the edit form is closed and emptied; nothing else changes |
| BudgetTrackerScreen.BudgetTracker.UpdateBudget | src/components/BudgetTracker.jsx:97-105 | only an entered value above 0 is taken: it becomes the budget, both keys are written, and the field clears once the save succeeds; any other input changes nothing |
| ExpenseHistoryScreen.ToggleSpec | src/components/ExpenseHistory.jsx:57-65 | a toggle flips membership of exactly its own date, and two toggles restore the set |
| ExpenseHistoryScreen.DayWithDateConcat | src/components/ExpenseHistory.jsx:77 | the day found in joined lists is the one found in the first part, else in the second |
| ExpenseHistoryScreen.DayWithDateSnoc | src/components/ExpenseHistory.jsx:77 | with distinct dates, the day found among the first i + 1 days is day i exactly when it has the date |
| ExpenseHistoryScreen.DayWithDateIn | src/components/ExpenseHistory.jsx:77 | a found day is in the list and has the date |
| Summaries.NewestFirstDistinct | src/components/ExpenseHistory.jsx:45 | a strictly newest-first list has distinct dates |
| ExpenseHistoryScreen.EditWritesStep | src/components/ExpenseHistory.jsx:76-96 | over the map, only the day with the date writes, and nothing was written before it |
| ExpenseHistoryScreen.StoredDayAfterWrite | src/components/ExpenseHistory.jsx:85 | writing a date's list changes that date's stored summary and no other's |
| ExpenseHistoryScreen.EditAgreesWithReload | src/components/ExpenseHistory.jsx:73-130 | on a freshly loaded history, editing or deleting on a shown day (dropping empty days) gives exactly the history a reload would build from the written store; no key is added |
| ExpenseHistoryScreen.InHistory | src/components/ExpenseHistory.jsx:22-47 | a summary is in the rebuilt history exactly when its date's key is listed and stores that summary |
| ExpenseHistoryScreen.ShownDayReloads | src/components/ExpenseHistory.jsx:110-130 | every day shown after the handler is rebuilt by a reload |
| ExpenseHistoryScreen.ReloadedDayShown | src/components/ExpenseHistory.jsx:110-130 | every day a reload rebuilds is shown after the handler |
| ExpenseHistoryScreen.UpdateDropsNoDay | src/components/ExpenseHistory.jsx:76-96 | an edit keeps every list's length, so no day would be dropped |
| ExpenseHistoryScreen.NewDayEffect | src/components/ExpenseHistory.jsx:132-139 | after removing today's keys, today has no summary and reads as [] with the default budget; every other date reads as before |
| ExpenseHistoryScreen.ExpenseHistory.constructor | src/components/ExpenseHistory.jsx:9-15 | the screen starts with no history, nothing expanded and an empty edit form |
| ExpenseHistoryScreen.ExpenseHistory.VisitHistoryKey | src/components/ExpenseHistory.jsx:26-42 | the step fails exactly on an unparsable `expenses_` list and otherwise pushes the key's summary against the budget fallback 1000 |
| ExpenseHistoryScreen.ExpenseHistory.LoadHistoryData | src/components/ExpenseHistory.jsx:22-47 | succeeds exactly when every `expenses_` list parses, and then shows the history with fallback 1000; otherwise nothing changes |
| ExpenseHistoryScreen.ExpenseHistory.ToggleDayExpansion | src/components/ExpenseHistory.jsx:57-65 | the expanded set is toggled at the date; nothing else changes |
| ExpenseHistoryScreen.ExpenseHistory.StartEditExpense | src/components/ExpenseHistory.jsx:67-71 | the edit form holds the expense's id and date, its amount and its description |
| ExpenseHistoryScreen.ExpenseHistory.CancelEditExpense | src/components/ExpenseHistory.jsx:104-108 | the edit form is closed and emptied; the history stays |
| ExpenseHistoryScreen.ExpenseHistory.EditOne | src/components/ExpenseHistory.jsx:77-95 | the day with the date gets the edited list, written under its key, and recomputed totals; other days are returned unchanged and write nothing |
| ExpenseHistoryScreen.ExpenseHistory.EditDays | src/components/ExpenseHistory.jsx:76-96 | the map edits only the day with the date and writes only its key; a failed write leaves the store unchanged |
| ExpenseHistoryScreen.ExpenseHistory.SaveEditExpense | src/components/ExpenseHistory.jsx:73-102 | with an empty field nothing changes; otherwise only the day with the date changes, its key is rewritten and the form closes |
| ExpenseHistoryScreen.ExpenseHistory.DeleteExpenseFromHistory | src/components/ExpenseHistory.jsx:110-130 | the expense leaves the day, whose key is rewritten (possibly with []), and days left empty are no longer shown |
| ExpenseHistoryScreen.ExpenseHistory.StartNewDay | src/components/ExpenseHistory.jsx:132-139 | once confirmed, exactly today's two keys are removed |
| ExpenseHistoryScreen.ExpenseHistory.ClearAllHistory | src/components/ExpenseHistory.jsx:141-151 | once confirmed, exactly the date-scoped keys are removed, other keys keep their values and order, and the history is emptied |

## Left out

- Rendering, animation, icons and CSS are not modelled; nor are `Navigation.jsx`, `App.jsx`, `Settings.jsx` and `ExportModal.jsx`.
- PDF page layout, fonts and pagination (jsPDF and autoTable) are not modelled; only the accumulated totals are.
- `downloadFile` and the `exportTo…` wrappers that only pass text to it are not modelled: they are browser I/O.
- The locale formatters (`toLocaleDateString`, `toLocaleString`, `toFixed`) and number-to-text conversion are uninterpreted parameters (`ExportUtils.Formats`).
- `convertToHomeCurrency`, the exchange-rate arithmetic and `loadCurrencySettings` are not modelled: they are floating-point display only.
- The single preference accessors (`saveDarkMode`, `loadDarkMode`, `saveHomeCurrency`, `loadHomeCurrency`, `saveExchangeRate`, `loadExchangeRate`, `saveDefaultBudget`) are not modelled. Their keys are part of the key scheme, and `PreferenceKeysUnscoped` and `AfterClear` show that the date operations leave them alone.
- `formatDateForStorage` is not modelled separately. It round-trips through the date parser, which `ParseDateKey` covers.
- Floating point is not modelled:
  - amounts are exact reals;
  - an amount that is not a number counts as 0 in sums, where JavaScript would give NaN;
  - a stored budget that is not a number reads as the fallback, where `parseFloat` would give NaN;
  - the progress bar's NaN and -Infinity are modelled explicitly by `Percent`.
- JSON is modelled structurally. A stored value that is not a list, under a key read as a list, reads as []; JavaScript would take its `length` as undefined.
- `StorageUtils.LoadAppSettings`: stored settings text that parses but is not a settings object (a number, a list) reads as the defaults, where JavaScript returns the parsed value as it is (storageUtils.js lines 116-119).
- `Expenses.Entry`: an id is an optional integer. The validation filter `typeof expense.id !== 'undefined'` (storageUtils.js line 320) also keeps entries whose id is null or a string, which the model's id type cannot hold.
- Key order: the Web Storage standard leaves the order of `Object.keys(localStorage)` to the browser; the model fixes one (a key joins the end when first set). The "other keys keep their order" clauses of `StorageUtils.RemoveDateData`, `StorageUtils.ClearAllData` and `ExpenseHistoryScreen.ExpenseHistory.ClearAllHistory` are about that model order, not a promise of the browser.
- Dates are day numbers whose key text reads back. Invalid date texts (`new Date` giving NaN) are not modelled. The history lemmas assume a store where every `expenses_` key names a date (`WellKeyed`), which every write in the code keeps.
- Timezones are modelled only where they change a result: the range comparison in `getDateRangeData` (see Findings).
- `console` output is not modelled; nor are `alert`, `window.location.reload()` after `startNewDay`, `setTimeout` and the `isExporting` flow.
- Storage exceptions are modelled as follows:
  - a quota failure on `setItem` is a nondeterministic `ok = false` with nothing written;
  - a handler that throws is modelled as returning `ok = false` with the state it had reached;
  - the outer `try` blocks of `getStorageInfo`, `clearAllData` and `validateAndMigrateData` can never be reached in the model.
- React state updates are applied in program order. `BudgetTracker.AddExpense` and `BudgetTracker.SaveEditExpense` show the new list even when the save throws, because `setExpenses` runs before `saveTodaysData`.
- `BudgetTracker.StartEditExpense` and `ExpenseHistory.StartEditExpense` require a numeric amount: the screens only offer editing for rendered entries, whose amount is printed with `expense.amount.toLocaleString()` (BudgetTracker.jsx line 389 and ExpenseHistory.jsx line 424), which throws while rendering when the amount is missing. A missing description fills the form with the empty text, as an undefined value would show.
- `ExpenseHistory`: its invariant includes `WellKeyed` of the store, assumed on construction.
- `ExportUtils.ConvertToCSV` and `ExportUtils.ConvertAllDataToCSV` model the rows as written: the description is wrapped in quotes and nothing is escaped. Read back as CSV, these rows equal their values only for plain values (`WrittenRowReadsBack`); the escaped rows (`Row`) are the corrected definition in Findings.
- `ExportUtils.GetDateRangeData` selects the intended inclusive range of dates. The comparison as written is modelled separately (`DateRangeAsWritten`) and differs from it off UTC (see Findings).

Where the code and the system's design description disagree, the model follows the code:

- The today screen falls back on its own initial budget of 1000 when today has no stored budget, not on the configured default budget (`TodayIgnoresDefault`).
- The history screen falls back on a literal 1000 (`HistoryBudget`), not on the configured default.
- The validation pass rewrites a key only when an entry was dropped, not whenever content changed. A backfilled `date` alone is therefore never persisted.
- The validation pass never backfills a timestamp: an entry without a truthy timestamp is dropped by the filter before the backfill runs (`MigrateEffect`).

## Findings

| source | as written | input that shows it | evidently intended | confidence | as-written member | corrected member |
|---|---|---|---|---|---|---|
| src/utils/exportUtils.js:301-306 | the range compares each day's local midnight with the UTC midnight of the bounds | in Bangkok (UTC+7), start = end = the only day with data gives an empty range | the days from start to end, both included, on the calendar | not executed | ExportUtils.AsWrittenDropsSingleDay | ExportUtils.DateRangeOfHistory |
| src/utils/exportUtils.js:266-284 | the formatted date `Oct 14, 2026` is written without quotes, in today's export (line 266) and in the complete export (line 284) | any row: read back, its first value is `Oct 14` and the columns shift (`AsWrittenDateShifts`) | one CSV field per value | not executed | ExportUtils.AsWrittenDateSplits | ExportUtils.RowReadsBack |
| src/utils/exportUtils.js:267 | the description is wrapped in quotes but its own quotes are not doubled | the description `6" sub` makes the row unreadable as CSV | quotes doubled inside a quoted field (section 2, rule 7 of RFC 4180) | not executed | ExportUtils.SandwichBreaksRow | ExportUtils.ExpenseCsvReadsBack |
