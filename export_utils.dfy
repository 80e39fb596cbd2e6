/** The exports: the CSV texts for today's list and for a list of day
    summaries, the date-range selection, and the totals the PDF reports print.
    Page layout, fonts and the file download are outside the model; the
    locale-dependent texts are given as `Formats`. */
module ExportUtils {
  import opened Common
  import opened Dates
  import opened Expenses
  import opened Summaries
  import opened Store
  import opened StorageUtils
  import opened Csv

  /** The texts the exports print for dates, times and numbers:
      `day(d)` is `formatDate` of a summary's date, `date(s)` is `formatDate`
      of a non-empty ISO text (en-US, "Oct 14, 2026"), `time(s)` is
      `formatDateTime` of a non-empty timestamp ("9:05 AM"), and `number(x)`
      is the text `join` writes for a number. */
  datatype Formats = Formats(
    day: Date -> string,
    date: string -> string,
    time: string -> string,
    number: real -> string)

  /** `formatDate(s)`: the empty text for a missing or empty date. */
  function FormatDate(fmt: Formats, s: Option<string>): (r: string)
    ensures s.None? || s.value == "" ==> r == ""
    ensures s.Some? && s.value != "" ==> r == fmt.date(s.value)
  {
    if s.Some? && s.value != "" then fmt.date(s.value) else ""
  }

  /** `formatDateTime(s)`: the empty text for a missing or empty timestamp. */
  function FormatDateTime(fmt: Formats, s: Option<string>): (r: string)
    ensures s.None? || s.value == "" ==> r == ""
    ensures s.Some? && s.value != "" ==> r == fmt.time(s.value)
  {
    if s.Some? && s.value != "" then fmt.time(s.value) else ""
  }

  /** `${expense.description}`: a missing description prints as "undefined". */
  function DescriptionText(d: Option<string>): string {
    if d.Some? then d.value else "undefined"
  }

  /** A number in a row; `join` writes a missing one as the empty text. */
  function AmountText(fmt: Formats, a: Option<real>): string {
    if a.Some? then fmt.number(a.value) else ""
  }

  // --------------------------------------------------------------- CSV rows

  const ExpenseHeader: seq<string> := ["Date", "Description", "Amount (THB)", "Time"]
  const DayHeader: seq<string> :=
    ["Date", "Description", "Amount (THB)", "Time", "Daily Budget", "Daily Total", "Remaining"]

  /** The header lines, `headers.join(',')`. */
  const ExpenseHeaderLine: string := Join(ExpenseHeader, [Comma])
  const DayHeaderLine: string := Join(DayHeader, [Comma])

  /** The values of a row of today's export. */
  function ExpenseValues(fmt: Formats, e: Entry): seq<string> {
    [FormatDate(fmt, e.date), DescriptionText(e.description), AmountText(fmt, e.amount), FormatDateTime(fmt, e.timestamp)]
  }

  /** The values of a row of a multi-day export: an expense of `day`, with the
      day's budget, total and remaining amount repeated on each of its rows. */
  function DayValues(fmt: Formats, day: DaySummary, e: Entry): seq<string> {
    [fmt.day(day.date), DescriptionText(e.description), AmountText(fmt, e.amount), FormatDateTime(fmt, e.timestamp),
     fmt.number(day.budget), fmt.number(day.totalSpent), fmt.number(day.remaining)]
  }

  /** The fields of a row as the exports write them: the description (the
      second value) between quotes, every other value as it is. */
  function WrittenCells(values: seq<string>): (r: seq<string>)
    ensures |r| == |values|
  {
    seq(|values|, i requires 0 <= i < |values| => if i == 1 then [Quote] + values[i] + [Quote] else values[i])
  }

  /** `row.join(',')` over the written fields. */
  function RowAsWritten(values: seq<string>): string {
    Join(WrittenCells(values), [Comma])
  }

  /** Values a row as written spells correctly: no value but the description
      holds a comma, a quote or a line break, and the description holds no
      quote. */
  predicate PlainValues(values: seq<string>) {
    forall i :: 0 <= i < |values| ==> if i == 1 then Quote !in values[i] else !NeedsQuotes(values[i])
  }

  /** No value of a row holds a line break (the form's inputs are single
      lines; the formatters print none). */
  predicate SingleLine(values: seq<string>) {
    forall j :: 0 <= j < |values| ==> '\n' !in values[j]
  }

  /** A row of plain values, as written, reads back as exactly its values. */
  lemma WrittenRowReadsBack(values: seq<string>)
    requires |values| > 0 && PlainValues(values)
    ensures ReadRecord(RowAsWritten(values)) == Some(values)
  {
    var cells := WrittenCells(values);
    forall i | 0 <= i < |cells| ensures Encodes(cells[i], values[i]) {
      if i == 1 {
        DoubleQuotesWithoutQuote(values[i]);
      }
    }
    RecordRoundTrip(cells, values);
  }

  /** A row of values without line breaks, as written, is one line. */
  lemma WrittenRowIsOneLine(values: seq<string>)
    requires SingleLine(values)
    ensures '\n' !in RowAsWritten(values)
  {
    var cells := WrittenCells(values);
    forall i | 0 <= i < |cells| ensures '\n' !in cells[i] {
      assert cells[i] == if i == 1 then [Quote] + values[i] + [Quote] else values[i];
    }
    JoinAvoids(cells, [Comma], '\n');
  }

  /** The fields of a row as an RFC 4180 writer spells them: the description
      always in quotes, now with its own quotes doubled, and every other value
      quoted where it needs to be. */
  function RowCells(values: seq<string>): (r: seq<string>)
    ensures |r| == |values|
    ensures forall i :: 0 <= i < |r| ==> Encodes(r[i], values[i])
  {
    seq(|values|, i requires 0 <= i < |values| => if i == 1 then Quoted(values[i]) else Field(values[i]))
  }

  function Row(values: seq<string>): string {
    Join(RowCells(values), [Comma])
  }

  /** Every escaped row reads back as exactly its values. */
  lemma RowReadsBack(values: seq<string>)
    requires |values| > 0
    ensures ReadRecord(Row(values)) == Some(values)
  {
    RecordRoundTrip(RowCells(values), values);
  }

  /** An escaped row of values without line breaks is one line. */
  lemma RowIsOneLine(values: seq<string>)
    requires SingleLine(values)
    ensures '\n' !in Row(values)
  {
    var cells := RowCells(values);
    forall i | 0 <= i < |cells| ensures '\n' !in cells[i] {
      QuotedAvoids(values[i], '\n');
    }
    JoinAvoids(cells, [Comma], '\n');
  }

  /** The header lines read back as the headers. */
  lemma HeadersReadBack()
    ensures ReadRecord(ExpenseHeaderLine) == Some(ExpenseHeader)
    ensures ReadRecord(DayHeaderLine) == Some(DayHeader)
    ensures '\n' !in ExpenseHeaderLine && '\n' !in DayHeaderLine
  {
    HeadersBare();
    BareRecordReadsBack(ExpenseHeader);
    BareRecordReadsBack(DayHeader);
  }

  lemma HeaderLinesSingle()
    ensures '\n' !in ExpenseHeaderLine && '\n' !in DayHeaderLine
  {
    HeadersReadBack();
  }

  lemma BareRecordReadsBack(values: seq<string>)
    requires |values| > 0
    requires forall i :: 0 <= i < |values| ==> !NeedsQuotes(values[i])
    ensures ReadRecord(Join(values, [Comma])) == Some(values)
    ensures '\n' !in Join(values, [Comma])
  {
    RecordRoundTrip(values, values);
    JoinAvoids(values, [Comma], '\n');
  }

  lemma HeadersBare()
    ensures forall i :: 0 <= i < |ExpenseHeader| ==> !NeedsQuotes(ExpenseHeader[i])
    ensures forall i :: 0 <= i < |DayHeader| ==> !NeedsQuotes(DayHeader[i])
  {
    ExpenseHeaderBare();
    DayColumnsBare();
    assert DayHeader == ExpenseHeader + ["Daily Budget", "Daily Total", "Remaining"];
  }

  lemma ExpenseHeaderBare()
    ensures forall i :: 0 <= i < |ExpenseHeader| ==> !NeedsQuotes(ExpenseHeader[i])
  {
    assert !NeedsQuotes("Date") && !NeedsQuotes("Description") && !NeedsQuotes("Amount (THB)") && !NeedsQuotes("Time");
  }

  lemma DayColumnsBare()
    ensures !NeedsQuotes("Daily Budget") && !NeedsQuotes("Daily Total") && !NeedsQuotes("Remaining")
  {
  }

  // -------------------------------------------------------------- documents

  /** The rows of records as written, in order. */
  function WrittenRows(records: seq<seq<string>>): (r: seq<string>)
    ensures |r| == |records|
  {
    seq(|records|, i requires 0 <= i < |records| => RowAsWritten(records[i]))
  }

  /** The lines of an export: the header line, then one row per record. */
  function WrittenLines(headerLine: string, records: seq<seq<string>>): seq<string> {
    [headerLine] + WrittenRows(records)
  }

  lemma WrittenRowsSnoc(records: seq<seq<string>>, values: seq<string>)
    ensures WrittenRows(records + [values]) == WrittenRows(records) + [RowAsWritten(values)]
  {
  }

  /** Split at its line breaks, an export gives back its header line and then
      the row of each record, in order, when no value holds a line break. */
  lemma WrittenDocument(headerLine: string, records: seq<seq<string>>)
    requires '\n' !in headerLine
    requires forall i :: 0 <= i < |records| ==> SingleLine(records[i])
    ensures SplitOn(Join(WrittenLines(headerLine, records), "\n"), '\n') == WrittenLines(headerLine, records)
    ensures |WrittenLines(headerLine, records)| == |records| + 1
  {
    var lines := WrittenLines(headerLine, records);
    forall k | 0 <= k < |lines| ensures '\n' !in lines[k] {
      if k > 0 {
        WrittenRowIsOneLine(records[k - 1]);
      }
    }
    SplitJoin(lines, '\n');
  }

  /** Line `k + 1` of an export is the row of record `k`. */
  lemma WrittenLineAt(headerLine: string, records: seq<seq<string>>, k: nat)
    requires '\n' !in headerLine
    requires forall i :: 0 <= i < |records| ==> SingleLine(records[i])
    requires k < |records|
    ensures var lines := SplitOn(Join(WrittenLines(headerLine, records), "\n"), '\n');
      |lines| == |records| + 1 && lines[k + 1] == RowAsWritten(records[k])
  {
    WrittenDocument(headerLine, records);
  }

  /** The escaped rows of records, in order. */
  function EscapedRows(records: seq<seq<string>>): (r: seq<string>)
    ensures |r| == |records|
  {
    seq(|records|, i requires 0 <= i < |records| => Row(records[i]))
  }

  function EscapedLines(headerLine: string, records: seq<seq<string>>): seq<string> {
    [headerLine] + EscapedRows(records)
  }

  /** Read back line by line, an escaped export of records without line breaks
      holds a record per line: the header's, then each record, in order. */
  lemma EscapedDocument(headerLine: string, records: seq<seq<string>>)
    requires '\n' !in headerLine
    requires forall i :: 0 <= i < |records| ==> |records[i]| > 0 && SingleLine(records[i])
    ensures var doc := ReadDocument(Join(EscapedLines(headerLine, records), "\n"));
      && |doc| == |records| + 1
      && doc[0] == ReadRecord(headerLine)
      && forall i :: 0 <= i < |records| ==> doc[i + 1] == Some(records[i])
  {
    var lines := EscapedLines(headerLine, records);
    forall k | 0 <= k < |lines| ensures '\n' !in lines[k] {
      if k > 0 {
        RowIsOneLine(records[k - 1]);
      }
    }
    DocumentOfLines(lines);
    forall i | 0 <= i < |records| ensures ReadRecord(lines[i + 1]) == Some(records[i]) {
      RowReadsBack(records[i]);
    }
  }

  // ------------------------------------------------------------ today's CSV

  /** The records of today's export, one per expense, in list order. */
  function ExpenseRecords(fmt: Formats, data: seq<Entry>): (r: seq<seq<string>>)
    ensures |r| == |data|
  {
    seq(|data|, i requires 0 <= i < |data| => ExpenseValues(fmt, data[i]))
  }

  /** The text `convertToCSV` returns. */
  function ExpenseCsv(fmt: Formats, data: seq<Entry>): string {
    Join(WrittenLines(ExpenseHeaderLine, ExpenseRecords(fmt, data)), "\n")
  }

  /** `convertToCSV(data)`. */
  method ConvertToCSV(fmt: Formats, data: seq<Entry>) returns (csv: string)
    ensures csv == ExpenseCsv(fmt, data)
  {
    var rows := [ExpenseHeaderLine];
    var i := 0;
    while i < |data|
      invariant 0 <= i <= |data|
      invariant rows == [ExpenseHeaderLine] + WrittenRows(ExpenseRecords(fmt, data[..i]))
    {
      assert ExpenseRecords(fmt, data[..i + 1]) == ExpenseRecords(fmt, data[..i]) + [ExpenseValues(fmt, data[i])];
      WrittenRowsSnoc(ExpenseRecords(fmt, data[..i]), ExpenseValues(fmt, data[i]));
      rows := rows + [RowAsWritten(ExpenseValues(fmt, data[i]))];
      i := i + 1;
    }
    assert data[..|data|] == data;
    csv := Join(rows, "\n");
  }

  /** Today's export is the header line followed by exactly one line per
      expense, in list order; each line is the expense's four values joined by
      commas with the description in quotes. */
  lemma ExpenseCsvLines(fmt: Formats, data: seq<Entry>)
    requires forall i :: 0 <= i < |data| ==> SingleLine(ExpenseValues(fmt, data[i]))
    ensures var lines := SplitOn(ExpenseCsv(fmt, data), '\n');
      && |lines| == |data| + 1
      && forall i :: 0 <= i < |data| ==> lines[i + 1] == RowAsWritten(ExpenseValues(fmt, data[i]))
  {
    HeaderLinesSingle();
    WrittenDocument(ExpenseHeaderLine, ExpenseRecords(fmt, data));
  }

  /** The first line of each export is the header row `headers.join(',')`. */
  lemma CsvHeaderLines(fmt: Formats, data: seq<Entry>, days: seq<DaySummary>)
    ensures SplitOn(ExpenseCsv(fmt, data), '\n')[0] == ExpenseHeaderLine
    ensures SplitOn(DayCsv(fmt, days), '\n')[0] == DayHeaderLine
  {
    HeaderLinesSingle();
    WrittenFirstLine(ExpenseHeaderLine, ExpenseRecords(fmt, data));
    WrittenFirstLine(DayHeaderLine, AllRecords(fmt, days));
  }

  lemma WrittenFirstLine(headerLine: string, records: seq<seq<string>>)
    requires '\n' !in headerLine
    ensures SplitOn(Join(WrittenLines(headerLine, records), "\n"), '\n')[0] == headerLine
  {
    var lines := WrittenLines(headerLine, records);
    var first := headerLine;
    var after := if |lines| == 1 then [] else "\n" + Join(lines[1..], "\n");
    assert Join(lines, "\n") == first + after;
    SplitOnPrefix(first, after, '\n');
    assert first + [] == first;
  }

  /** A line of today's export whose values are plain reads back, as a CSV
      record, as the expense's date, description, amount and time. */
  lemma ExpenseCsvRecord(fmt: Formats, data: seq<Entry>, i: nat)
    requires forall i :: 0 <= i < |data| ==> SingleLine(ExpenseValues(fmt, data[i]))
    requires i < |data| && PlainValues(ExpenseValues(fmt, data[i]))
    ensures var lines := SplitOn(ExpenseCsv(fmt, data), '\n');
      i + 1 < |lines| && ReadRecord(lines[i + 1]) == Some(ExpenseValues(fmt, data[i]))
  {
    ExpenseCsvLines(fmt, data);
    WrittenRowReadsBack(ExpenseValues(fmt, data[i]));
  }

  /** Today's export with every value escaped. */
  function EscapedExpenseCsv(fmt: Formats, data: seq<Entry>): string {
    Join(EscapedLines(ExpenseHeaderLine, ExpenseRecords(fmt, data)), "\n")
  }

  /** Read back line by line, the escaped export of today's list is the header
      followed by each expense's values, in list order, whatever the values
      hold besides line breaks. */
  lemma ExpenseCsvReadsBack(fmt: Formats, data: seq<Entry>)
    requires forall i :: 0 <= i < |data| ==> SingleLine(ExpenseValues(fmt, data[i]))
    ensures var doc := ReadDocument(EscapedExpenseCsv(fmt, data));
      && |doc| == |data| + 1
      && doc[0] == Some(ExpenseHeader)
      && forall i :: 0 <= i < |data| ==> doc[i + 1] == Some(ExpenseValues(fmt, data[i]))
  {
    HeadersReadBack();
    var records := ExpenseRecords(fmt, data);
    EscapedDocument(ExpenseHeaderLine, records);
    assert forall i :: 0 <= i < |data| ==> records[i] == ExpenseValues(fmt, data[i]);
  }

  // --------------------------------------------------------- multi-day CSV

  /** The records of one day, in list order. */
  function DayRecords(fmt: Formats, day: DaySummary): (r: seq<seq<string>>)
    ensures |r| == |day.expenses|
  {
    seq(|day.expenses|, j requires 0 <= j < |day.expenses| => DayValues(fmt, day, day.expenses[j]))
  }

  /** The records of the days, day after day. */
  function AllRecords(fmt: Formats, days: seq<DaySummary>): seq<seq<string>> {
    if days == [] then [] else AllRecords(fmt, days[..|days| - 1]) + DayRecords(fmt, days[|days| - 1])
  }

  /** The text `convertAllDataToCSV` returns. */
  function DayCsv(fmt: Formats, days: seq<DaySummary>): string {
    Join(WrittenLines(DayHeaderLine, AllRecords(fmt, days)), "\n")
  }

  lemma {:induction false} AllRecordsConcat(fmt: Formats, a: seq<DaySummary>, b: seq<DaySummary>)
    ensures AllRecords(fmt, a + b) == AllRecords(fmt, a) + AllRecords(fmt, b)
    decreases |b|
  {
    if b == [] {
      assert a + b == a;
    } else {
      var init := b[..|b| - 1];
      assert (a + b)[..|a + b| - 1] == a + init;
      assert (a + b)[|a + b| - 1] == b[|b| - 1];
      AllRecordsConcat(fmt, a, init);
    }
  }

  /** There is one record per transaction. */
  lemma {:induction false} AllRecordsLength(fmt: Formats, days: seq<DaySummary>)
    ensures |AllRecords(fmt, days)| == TransactionCount(days)
  {
    if days != [] {
      var init, last := days[..|days| - 1], days[|days| - 1];
      AllRecordsLength(fmt, init);
      assert days == init + [last];
      SumsConcat(init, [last]);
      assert [last][1..] == [];
    }
  }

  lemma AllRecordsSplit(fmt: Formats, days: seq<DaySummary>, i: nat)
    requires i < |days|
    ensures AllRecords(fmt, days) == AllRecords(fmt, days[..i]) + DayRecords(fmt, days[i]) + AllRecords(fmt, days[i + 1..])
  {
    var before, day, after := days[..i], days[i], days[i + 1..];
    assert days == (before + [day]) + after;
    AllRecordsConcat(fmt, before + [day], after);
    assert AllRecords(fmt, before + [day]) == AllRecords(fmt, before) + DayRecords(fmt, day) by {
      assert (before + [day])[..|before|] == before;
    }
  }

  /** The record of the `j`th expense of the `i`th day comes right after the
      records of the days before it, and holds that expense's values and its
      own day's budget, total and remaining amount. */
  lemma AllRecordsAt(fmt: Formats, days: seq<DaySummary>, i: nat, j: nat)
    requires i < |days| && j < |days[i].expenses|
    ensures TransactionCount(days[..i]) + j < |AllRecords(fmt, days)|
    ensures AllRecords(fmt, days)[TransactionCount(days[..i]) + j] == DayValues(fmt, days[i], days[i].expenses[j])
  {
    AllRecordsSplit(fmt, days, i);
    AllRecordsLength(fmt, days[..i]);
    var a, d, c := AllRecords(fmt, days[..i]), DayRecords(fmt, days[i]), AllRecords(fmt, days[i + 1..]);
    assert (a + d + c)[|a| + j] == d[j];
  }

  /** Every record of the days is the values of one of their expenses. */
  lemma {:induction false} AllRecordsSingleLine(fmt: Formats, days: seq<DaySummary>)
    requires forall i, j :: 0 <= i < |days| && 0 <= j < |days[i].expenses| ==>
      SingleLine(DayValues(fmt, days[i], days[i].expenses[j]))
    ensures forall k :: 0 <= k < |AllRecords(fmt, days)| ==>
      SingleLine(AllRecords(fmt, days)[k]) && |AllRecords(fmt, days)[k]| == 7
  {
    if days != [] {
      var init, last := days[..|days| - 1], days[|days| - 1];
      assert forall i :: 0 <= i < |init| ==> init[i] == days[i];
      AllRecordsSingleLine(fmt, init);
    }
  }

  /** `convertAllDataToCSV(allData)`. */
  method ConvertAllDataToCSV(fmt: Formats, days: seq<DaySummary>) returns (csv: string)
    ensures csv == DayCsv(fmt, days)
  {
    var header := [DayHeaderLine];
    var rows := header;
    var i := 0;
    while i < |days|
      invariant 0 <= i <= |days|
      invariant rows == header + WrittenRows(AllRecords(fmt, days[..i]))
    {
      var day := days[i];
      var done := AllRecords(fmt, days[..i]);
      var j := 0;
      while j < |day.expenses|
        invariant 0 <= j <= |day.expenses|
        invariant rows == header + WrittenRows(done + DayRecords(fmt, day)[..j])
      {
        var values := DayValues(fmt, day, day.expenses[j]);
        assert done + DayRecords(fmt, day)[..j + 1] == (done + DayRecords(fmt, day)[..j]) + [values];
        WrittenRowsSnoc(done + DayRecords(fmt, day)[..j], values);
        rows := rows + [RowAsWritten(values)];
        j := j + 1;
      }
      assert DayRecords(fmt, day)[..j] == DayRecords(fmt, day);
      assert days[..i + 1][..i] == days[..i];
      i := i + 1;
    }
    assert days[..|days|] == days;
    csv := Join(rows, "\n");
  }

  /** A multi-day export is the 7-column header line followed by one line per
      record, in the order of `AllRecords` (so one line per transaction, see
      `AllRecordsLength` and `AllRecordsAt`). */
  lemma DayCsvLine(fmt: Formats, days: seq<DaySummary>, k: nat)
    requires forall i, j :: 0 <= i < |days| && 0 <= j < |days[i].expenses| ==>
      SingleLine(DayValues(fmt, days[i], days[i].expenses[j]))
    requires k < |AllRecords(fmt, days)|
    ensures var lines := SplitOn(DayCsv(fmt, days), '\n');
      && |lines| == |AllRecords(fmt, days)| + 1
      && lines[k + 1] == RowAsWritten(AllRecords(fmt, days)[k])
  {
    HeaderLinesSingle();
    AllRecordsSingleLine(fmt, days);
    WrittenLineAt(DayHeaderLine, AllRecords(fmt, days), k);
  }

  /** A line of a multi-day export whose values are plain reads back as its
      record: the expense's values with its day's budget, total and remaining
      amount. */
  lemma DayCsvRecord(fmt: Formats, days: seq<DaySummary>, k: nat)
    requires forall i, j :: 0 <= i < |days| && 0 <= j < |days[i].expenses| ==>
      SingleLine(DayValues(fmt, days[i], days[i].expenses[j]))
    requires k < |AllRecords(fmt, days)| && PlainValues(AllRecords(fmt, days)[k])
    ensures var lines := SplitOn(DayCsv(fmt, days), '\n');
      k + 1 < |lines| && ReadRecord(lines[k + 1]) == Some(AllRecords(fmt, days)[k])
  {
    DayCsvLine(fmt, days, k);
    AllRecordsSingleLine(fmt, days);
    WrittenRowReadsBack(AllRecords(fmt, days)[k]);
  }

  /** The multi-day export with every value escaped. */
  function EscapedDayCsv(fmt: Formats, days: seq<DaySummary>): string {
    Join(EscapedLines(DayHeaderLine, AllRecords(fmt, days)), "\n")
  }

  /** Read back line by line, the escaped multi-day export is the header
      followed by each record, in order, whatever the values hold besides line
      breaks. */
  lemma DayCsvReadsBack(fmt: Formats, days: seq<DaySummary>)
    requires forall i, j :: 0 <= i < |days| && 0 <= j < |days[i].expenses| ==>
      SingleLine(DayValues(fmt, days[i], days[i].expenses[j]))
    ensures var doc := ReadDocument(EscapedDayCsv(fmt, days));
      && |doc| == |AllRecords(fmt, days)| + 1
      && doc[0] == Some(DayHeader)
      && forall k :: 0 <= k < |AllRecords(fmt, days)| ==> doc[k + 1] == Some(AllRecords(fmt, days)[k])
  {
    HeadersReadBack();
    AllRecordsSingleLine(fmt, days);
    EscapedDocument(DayHeaderLine, AllRecords(fmt, days));
  }

  // ------------------------------------------------------------- date range

  /** `days.filter(keep)` on the days' dates. */
  function FilterDays(days: seq<DaySummary>, keep: Date -> bool): seq<DaySummary> {
    if days == [] then []
    else (if keep(days[0].date) then [days[0]] else []) + FilterDays(days[1..], keep)
  }

  /** The filter keeps exactly the days whose date passes, in their order. */
  lemma {:induction false} FilterDaysSpec(days: seq<DaySummary>, keep: Date -> bool)
    ensures forall x :: x in FilterDays(days, keep) <==> x in days && keep(x.date)
    ensures NewestFirst(days) ==> NewestFirst(FilterDays(days, keep))
    ensures |FilterDays(days, keep)| <= |days|
  {
    if days != [] {
      FilterDaysSpec(days[1..], keep);
      ConsMembers(days);
      var rest := FilterDays(days[1..], keep);
      assert FilterDays(days, keep) == (if keep(days[0].date) then [days[0]] else []) + rest;
      if NewestFirst(days) {
        StrictTail(days);
        if keep(days[0].date) {
          StrictCons(days[0], rest);
        } else {
          assert FilterDays(days, keep) == rest;
        }
      }
    }
  }

  /** Two tests that agree on the days' dates select the same days. */
  lemma {:induction false} FilterDaysAgree(days: seq<DaySummary>, keep: Date -> bool, keep': Date -> bool)
    requires forall i :: 0 <= i < |days| ==> keep(days[i].date) == keep'(days[i].date)
    ensures FilterDays(days, keep) == FilterDays(days, keep')
  {
    if days != [] {
      FilterDaysAgree(days[1..], keep, keep');
    }
  }

  /** The filter and its complement split the totals of the days. */
  lemma {:induction false} FilterDaysSums(days: seq<DaySummary>, keep: Date -> bool)
    ensures SumSpent(FilterDays(days, keep)) + SumSpent(FilterDays(days, d => !keep(d))) == SumSpent(days)
    ensures TransactionCount(FilterDays(days, keep)) + TransactionCount(FilterDays(days, d => !keep(d))) == TransactionCount(days)
  {
    if days != [] {
      var head := if keep(days[0].date) then [days[0]] else [];
      var other := if keep(days[0].date) then [] else [days[0]];
      FilterDaysSums(days[1..], keep);
      SumsConcat(head, FilterDays(days[1..], keep));
      SumsConcat(other, FilterDays(days[1..], d => !keep(d)));
      assert days == [days[0]] + days[1..];
      SumsConcat([days[0]], days[1..]);
      assert [days[0]][1..] == [];
    }
  }

  predicate InRange(d: Date, start: Date, end: Date) {
    start.ordinal <= d.ordinal <= end.ordinal
  }

  /** The days dated from `start` to `end`, both included. */
  function DateRange(days: seq<DaySummary>, start: Date, end: Date): seq<DaySummary> {
    FilterDays(days, d => InRange(d, start, end))
  }

  /** `getDateRangeData(startDate, endDate)`, as the period it is meant to
      select (see the timezone comparison below). */
  method GetDateRangeData(store: LocalStorage, start: Date, end: Date) returns (range: seq<DaySummary>)
    requires store.Valid()
    ensures range == DateRange(History(store.keys, store.items, GetDefaultBudget(store.items)), start, end)
  {
    var all := GetAllExpenseData(store);
    range := DateRange(all, start, end);
  }

  /** In a well-keyed store the selected period holds, newest first, exactly
      the stored days whose date lies from `start` to `end`. */
  lemma DateRangeOfHistory(ks: seq<string>, items: map<string, Value>, fallback: real, start: Date, end: Date)
    requires NoDuplicates(ks) && WellKeyed(items)
    ensures var r := DateRange(History(ks, items, fallback), start, end);
      && NewestFirst(r)
      && (forall x :: x in r <==>
            ExpensesKey(x.date) in ks && StoredDay(items, x.date, fallback) == Some(x) && InRange(x.date, start, end))
  {
    HistoryCharacterized(ks, items, fallback);
    FilterDaysSpec(History(ks, items, fallback), d => InRange(d, start, end));
  }

  // -------------------------------------------- the timezone in the range

  /** Milliseconds in a day. */
  const DayMs: int := 86400000

  /** `new Date("YYYY-MM-DD")` for the period's bounds, as the date inputs give
      them: UTC midnight of the day, in milliseconds since the epoch. */
  function UtcMidnight(d: Date): int {
    d.ordinal * DayMs
  }

  /** `new Date(dayData.date)` for a summary's `toDateString()` text: local
      midnight of the day, where local time is `offsetMs` ahead of UTC. */
  function LocalMidnight(d: Date, offsetMs: int): int {
    d.ordinal * DayMs - offsetMs
  }

  /** `date >= start && date <= end` as written, comparing the two instants. */
  predicate InRangeAsWritten(d: Date, start: Date, end: Date, offsetMs: int) {
    UtcMidnight(start) <= LocalMidnight(d, offsetMs) <= UtcMidnight(end)
  }

  function DateRangeAsWritten(days: seq<DaySummary>, start: Date, end: Date, offsetMs: int): seq<DaySummary> {
    FilterDays(days, d => InRangeAsWritten(d, start, end, offsetMs))
  }

  /** East of UTC (Bangkok is 7 hours ahead), the comparison as written drops
      the first day of the period and keeps the rest: a date is selected
      exactly when it is after `start` and not after `end`. */
  lemma AsWrittenEastOfUtc(d: Date, start: Date, end: Date, offsetMs: int)
    requires 0 < offsetMs < DayMs
    ensures InRangeAsWritten(d, start, end, offsetMs) <==> start.ordinal < d.ordinal <= end.ordinal
  {
    var n, s, e := d.ordinal, start.ordinal, end.ordinal;
    if n <= s {
      assert n * DayMs <= s * DayMs;
    } else {
      assert (n - 1) * DayMs >= s * DayMs;
    }
    if n <= e {
      assert n * DayMs <= e * DayMs;
    } else {
      assert (n - 1) * DayMs >= e * DayMs;
    }
  }

  /** West of UTC, the comparison as written drops the last day instead. */
  lemma AsWrittenWestOfUtc(d: Date, start: Date, end: Date, offsetMs: int)
    requires -DayMs < offsetMs < 0
    ensures InRangeAsWritten(d, start, end, offsetMs) <==> start.ordinal <= d.ordinal < end.ordinal
  {
    var n, s, e := d.ordinal, start.ordinal, end.ordinal;
    if n < s {
      assert (n + 1) * DayMs <= s * DayMs;
    } else {
      assert n * DayMs >= s * DayMs;
    }
    if n < e {
      assert (n + 1) * DayMs <= e * DayMs;
    } else {
      assert n * DayMs >= e * DayMs;
    }
  }

  /** In Bangkok, exporting the single day a user has data for gives an empty
      report. */
  lemma AsWrittenDropsSingleDay(day: DaySummary)
    ensures DateRangeAsWritten([day], day.date, day.date, 25200000) == []
  {
    var keep := d => InRangeAsWritten(d, day.date, day.date, 25200000);
    AsWrittenEastOfUtc(day.date, day.date, day.date, 25200000);
    assert !keep(day.date);
    assert [day][1..] == [];
    assert FilterDays([day], keep) == [] + FilterDays([], keep);
  }

  /** On UTC the comparison as written selects the intended period; less than
      a day east or west of it, the two lemmas above show that it does not. */
  lemma AsWrittenOnUtc(days: seq<DaySummary>, start: Date, end: Date)
    ensures DateRangeAsWritten(days, start, end, 0) == DateRange(days, start, end)
  {
    FilterDaysAgree(days, d => InRangeAsWritten(d, start, end, 0), d => InRange(d, start, end));
  }

  // ---------------------------------------------------------- PDF reports

  /** `data.reduce((sum, e) => sum + e.amount, 0)` and `data.length`, the
      summary under today's PDF table. */
  method ExpenseTotals(data: seq<Entry>) returns (total: real, count: nat)
    ensures total == Total(data) && count == |data|
  {
    total, count := 0.0, 0;
    var i := 0;
    while i < |data|
      invariant 0 <= i <= |data|
      invariant total == Total(data[..i]) && count == i
    {
      assert data[..i + 1][..i] == data[..i];
      total := total + AmountOf(data[i]);
      count := count + 1;
      i := i + 1;
    }
    assert data[..|data|] == data;
  }

  /** What a multi-day report's summary prints: the grand total, the number of
      days and of transactions, and the average per day when there is a day. */
  datatype Report = Report(grandTotal: real, dayCount: nat, transactions: nat, average: Option<real>)

  /** The accumulation of the multi-day and period reports over their days. */
  method ReportTotals(days: seq<DaySummary>) returns (report: Report)
    ensures report.grandTotal == SumSpent(days)
    ensures report.dayCount == |days| && report.transactions == TransactionCount(days)
    ensures |days| > 0 ==> report.average == Some(SumSpent(days) / (|days| as real))
    ensures |days| == 0 ==> report.average == None
  {
    var grandTotal, totalExpenses := 0.0, 0;
    var i := 0;
    while i < |days|
      invariant 0 <= i <= |days|
      invariant grandTotal == SumSpent(days[..i]) && totalExpenses == TransactionCount(days[..i])
    {
      SumsConcat(days[..i], [days[i]]);
      assert days[..i + 1] == days[..i] + [days[i]];
      assert [days[i]][1..] == [];
      grandTotal := grandTotal + days[i].totalSpent;
      totalExpenses := totalExpenses + |days[i].expenses|;
      i := i + 1;
    }
    assert days[..|days|] == days;
    var average := if |days| > 0 then Some(grandTotal / (|days| as real)) else None;
    report := Report(grandTotal, |days|, totalExpenses, average);
  }

  /** `groupedData` after `allData.forEach(d => groupedData[d.date] = d)`: the
      dates in the order `Object.keys` lists them (for a plain object with
      non-numeric keys, ECMAScript fixes that as the order in which each key
      was first assigned) and, for each date, the day assigned last. */
  datatype Grouping = Grouping(order: seq<Date>, byDate: map<Date, DaySummary>)

  /** The grouping of `days`, one assignment after the other. */
  function Group(days: seq<DaySummary>): (g: Grouping)
    ensures forall d :: d in g.byDate <==> d in g.order
    ensures |g.order| <= |days|
    decreases |days|
  {
    if days == [] then Grouping([], map[])
    else
      var g := Group(days[..|days| - 1]);
      var x := days[|days| - 1];
      Grouping(if x.date in g.byDate then g.order else g.order + [x.date], g.byDate[x.date := x])
  }

  /** `Object.keys(groupedData)` mapped back to their days. */
  function Regrouped(days: seq<DaySummary>): seq<DaySummary> {
    var g := Group(days);
    seq(|g.order|, i requires 0 <= i < |g.order| => g.byDate[g.order[i]])
  }


  /** The `forEach` that fills `groupedData`. */
  method GroupByDate(days: seq<DaySummary>) returns (order: seq<Date>, groupedData: map<Date, DaySummary>)
    ensures Grouping(order, groupedData) == Group(days)
  {
    order, groupedData := [], map[];
    var i := 0;
    while i < |days|
      invariant 0 <= i <= |days|
      invariant Grouping(order, groupedData) == Group(days[..i])
    {
      assert days[..i + 1][..i] == days[..i];
      var x := days[i];
      if x.date !in groupedData {
        order := order + [x.date];
      }
      groupedData := groupedData[x.date := x];
      i := i + 1;
    }
    assert days[..|days|] == days;
  }

  /** The grouping lists exactly the dates the days carry. */
  lemma {:induction false} GroupDates(days: seq<DaySummary>)
    ensures forall d :: d in Group(days).order <==> exists i :: 0 <= i < |days| && days[i].date == d
    decreases |days|
  {
    if days != [] {
      var init := days[..|days| - 1];
      var x := days[|days| - 1];
      GroupDates(init);
      var g0 := Group(init);
      var g := Group(days);
      assert x.date in g0.byDate ==> g.order == g0.order;
      assert x.date !in g0.byDate ==> g.order == g0.order + [x.date];
      forall d ensures d in g.order <==> exists i :: 0 <= i < |days| && days[i].date == d {
        if d == x.date {
          assert d in g.order;
          assert days[|days| - 1].date == d;
        } else {
          assert d in g.order <==> d in g0.order;
          if d in g0.order {
            var i :| 0 <= i < |init| && init[i].date == d;
            assert days[i].date == d;
          }
          if exists i :: 0 <= i < |days| && days[i].date == d {
            var i :| 0 <= i < |days| && days[i].date == d;
            assert i < |init| && init[i].date == d;
          }
        }
      }
    }
  }

  /** The grouping lists each date once. */
  lemma {:induction false} GroupOrderUnique(days: seq<DaySummary>)
    ensures forall p, q :: 0 <= p < q < |Group(days).order| ==> Group(days).order[p] != Group(days).order[q]
    decreases |days|
  {
    if days != [] {
      var init := days[..|days| - 1];
      var x := days[|days| - 1];
      GroupOrderUnique(init);
      var g0 := Group(init);
      var g := Group(days);
      if x.date !in g0.byDate {
        assert g.order == g0.order + [x.date];
        assert x.date !in g0.order;
      }
    }
  }

  /** Under each date the grouping holds the last day with that date. */
  lemma {:induction false} GroupLast(days: seq<DaySummary>)
    ensures forall d :: d in Group(days).byDate ==>
      exists i :: 0 <= i < |days| && days[i] == Group(days).byDate[d] && days[i].date == d
        && forall j :: i < j < |days| ==> days[j].date != d
    decreases |days|
  {
    if days != [] {
      var init := days[..|days| - 1];
      var x := days[|days| - 1];
      GroupLast(init);
      var g0 := Group(init);
      var g := Group(days);
      assert g.byDate == g0.byDate[x.date := x];
      forall d | d in g.byDate
        ensures exists i :: 0 <= i < |days| && days[i] == g.byDate[d] && days[i].date == d
                  && forall j :: i < j < |days| ==> days[j].date != d
      {
        if d == x.date {
          assert days[|days| - 1] == g.byDate[d];
        } else {
          assert d in g0.byDate && g.byDate[d] == g0.byDate[d];
          var i :| 0 <= i < |init| && init[i] == g0.byDate[d] && init[i].date == d
                   && forall j :: i < j < |init| ==> init[j].date != d;
          assert days[i] == g.byDate[d];
          forall j | i < j < |days| ensures days[j].date != d {
            if j < |init| {
              assert init[j] == days[j];
            }
          }
        }
      }
    }
  }

  /** Without a repeated date, the grouping lists the days' dates in order and
      keeps every day under its own date. */
  lemma {:induction false} GroupDistinct(days: seq<DaySummary>)
    requires DistinctDates(days)
    ensures var g := Group(days);
      && |g.order| == |days|
      && forall i :: 0 <= i < |days| ==> g.order[i] == days[i].date && g.byDate[days[i].date] == days[i]
    decreases |days|
  {
    if days != [] {
      var init := days[..|days| - 1];
      var x := days[|days| - 1];
      assert DistinctDates(init) by {
        forall i, j | 0 <= i < j < |init| ensures init[i].date != init[j].date {
          assert init[i] == days[i] && init[j] == days[j];
        }
      }
      GroupDistinct(init);
      var g0 := Group(init);
      assert x.date !in g0.order by {
        forall k | 0 <= k < |g0.order| ensures g0.order[k] != x.date {
          assert g0.order[k] == init[k].date == days[k].date;
        }
      }
      var g := Group(days);
      assert x.date !in g0.byDate;
      assert g == Grouping(g0.order + [x.date], g0.byDate[x.date := x]);
      forall i | 0 <= i < |days|
        ensures g.order[i] == days[i].date && g.byDate[days[i].date] == days[i]
      {
        if i < |init| {
          assert init[i] == days[i];
          assert days[i].date != x.date;
          assert g.order[i] == g0.order[i];
        }
      }
    }
  }

  /** Without a repeated date, regrouping gives the days back. */
  lemma RegroupedDistinct(days: seq<DaySummary>)
    requires DistinctDates(days)
    ensures Regrouped(days) == days
  {
    GroupDistinct(days);
  }

  /** With a repeated date, regrouping keeps only the day assigned last: each
      regrouped day is one of the days, no later day has its date, and no
      date is kept twice. */
  lemma RegroupedKeepsLast(days: seq<DaySummary>)
    ensures DistinctDates(Regrouped(days))
    ensures |Regrouped(days)| <= |days|
    ensures forall k :: 0 <= k < |Regrouped(days)| ==>
      exists i :: 0 <= i < |days| && days[i] == Regrouped(days)[k]
        && forall j :: i < j < |days| ==> days[j].date != days[i].date
  {
    GroupOrderUnique(days);
    GroupLast(days);
    var g := Group(days);
    var r := Regrouped(days);
    forall k | 0 <= k < |r|
      ensures r[k].date == g.order[k]
      ensures exists i :: 0 <= i < |days| && days[i] == r[k]
                && forall j :: i < j < |days| ==> days[j].date != days[i].date
    {
      var d := g.order[k];
      assert d in g.byDate && r[k] == g.byDate[d];
      var i :| 0 <= i < |days| && days[i] == g.byDate[d] && days[i].date == d
               && forall j :: i < j < |days| ==> days[j].date != d;
    }
  }

  /** Regrouping keeps every date of the days. */
  lemma RegroupedKeepsDates(days: seq<DaySummary>)
    ensures forall i :: 0 <= i < |days| ==>
      exists k :: 0 <= k < |Regrouped(days)| && Regrouped(days)[k].date == days[i].date
  {
    GroupDates(days);
    var g := Group(days);
    var r := Regrouped(days);
    forall i | 0 <= i < |days|
      ensures exists k :: 0 <= k < |r| && r[k].date == days[i].date
    {
      assert days[i].date in g.order;
      var k :| 0 <= k < |g.order| && g.order[k] == days[i].date;
      GroupLast(days);
      var d := g.order[k];
      var n :| 0 <= n < |days| && days[n] == g.byDate[d] && days[n].date == d
               && forall j :: n < j < |days| ==> days[j].date != d;
      assert r[k].date == d;
    }
  }

  /** The days the complete-history report prints: the regrouped days, sorted
      newest first. The source sorts the date keys and then looks up each
      key's day; as every regrouped day carries its own key, that is sorting
      the regrouped days by date. Each date of the days is printed once, with
      the day assigned to it last. */
  function ReportDays(days: seq<DaySummary>): (r: seq<DaySummary>)
    ensures NewestFirst(r)
    ensures forall x :: x in r ==>
      exists i :: 0 <= i < |days| && days[i] == x && forall j :: i < j < |days| ==> days[j].date != x.date
    ensures forall i :: 0 <= i < |days| ==> exists k :: 0 <= k < |r| && r[k].date == days[i].date
  {
    ReportDaysSorted(days);
    ReportDaysLast(days);
    ReportDaysComplete(days);
    SortNewestFirst(Regrouped(days))
  }

  /** The report's days are strictly newest first. */
  lemma ReportDaysSorted(days: seq<DaySummary>)
    ensures NewestFirst(SortNewestFirst(Regrouped(days)))
  {
    RegroupedKeepsLast(days);
    SortSpec(Regrouped(days));
  }

  /** Each reported day is the last day given for its date. */
  lemma ReportDaysLast(days: seq<DaySummary>)
    ensures forall x :: x in SortNewestFirst(Regrouped(days)) ==>
      exists i :: 0 <= i < |days| && days[i] == x && forall j :: i < j < |days| ==> days[j].date != x.date
  {
    var g := Regrouped(days);
    RegroupedKeepsLast(days);
    SortSpec(g);
    forall x | x in SortNewestFirst(g)
      ensures exists i :: 0 <= i < |days| && days[i] == x && forall j :: i < j < |days| ==> days[j].date != x.date
    {
      var k :| 0 <= k < |g| && g[k] == x;
    }
  }

  /** Every date given is reported. */
  lemma ReportDaysComplete(days: seq<DaySummary>)
    ensures var r := SortNewestFirst(Regrouped(days));
      forall i :: 0 <= i < |days| ==> exists k :: 0 <= k < |r| && r[k].date == days[i].date
  {
    var g := Regrouped(days);
    var r := SortNewestFirst(g);
    RegroupedKeepsDates(days);
    SortSpec(g);
    forall i | 0 <= i < |days| ensures exists k :: 0 <= k < |r| && r[k].date == days[i].date {
      var n :| 0 <= n < |g| && g[n].date == days[i].date;
      assert g[n] in r;
      var k :| 0 <= k < |r| && r[k] == g[n];
    }
  }

  /** On the history, the regrouping and the sort keep it as it is, and the
      report's totals are the storage statistics' totals. */
  lemma ReportOfHistory(ks: seq<string>, items: map<string, Value>, fallback: real)
    requires NoDuplicates(ks) && WellKeyed(items)
    ensures var h := History(ks, items, fallback);
      && ReportDays(h) == h
      && KeyStats(WithPrefix(ks, ExpensesPrefix), items) == Stats(TransactionCount(h), |h|, SumSpent(h))
  {
    var h := History(ks, items, fallback);
    HistoryCharacterized(ks, items, fallback);
    NewestFirstDistinct(h);
    RegroupedDistinct(h);
    SortKeepsSorted(h);
    StorageInfoMatchesHistory(ks, items, fallback);
  }

  /** A period's report and the report of the days outside it add up to the
      complete report. */
  lemma PeriodTotalsSplit(days: seq<DaySummary>, start: Date, end: Date)
    ensures var outside := FilterDays(days, d => !InRange(d, start, end));
      && SumSpent(DateRange(days, start, end)) + SumSpent(outside) == SumSpent(days)
      && TransactionCount(DateRange(days, start, end)) + TransactionCount(outside) == TransactionCount(days)
  {
    var keep := d => InRange(d, start, end);
    FilterDaysSums(days, keep);
    FilterDaysAgree(days, d => !keep(d), d => !InRange(d, start, end));
  }

  // ------------------------------------------------- CSV fields as written

  /** What follows the description's closing quote in a row as written. */
  function WrittenTail(values: seq<string>): string
    requires |values| >= 2
  {
    if |values| == 2 then [] else [Comma] + Join(WrittenCells(values)[2..], [Comma])
  }

  /** A row as written is the first value, a comma, the quoted description and
      the rest. */
  lemma WrittenRowShape(values: seq<string>)
    requires |values| >= 2
    ensures RowAsWritten(values) == values[0] + ([Comma] + ([Quote] + values[1] + [Quote] + WrittenTail(values)))
  {
    var cells := WrittenCells(values);
    assert cells[0] == values[0];
    assert cells[1..][0] == cells[1] == [Quote] + values[1] + [Quote];
    assert cells[1..][1..] == cells[2..];
    assert Join(cells[1..], [Comma]) == cells[1] + WrittenTail(values);
  }

  /** A formatted date holding a comma ("Oct 14, 2026") splits the first field:
      read back, the row's first value is not the date. */
  lemma AsWrittenDateSplits(values: seq<string>)
    requires |values| >= 2
    requires Comma in values[0] && values[0][0] != Quote
    ensures ReadRecord(RowAsWritten(values)).Some? ==> ReadRecord(RowAsWritten(values)).value[0] != values[0]
  {
    WrittenRowShape(values);
    var s := RowAsWritten(values);
    assert s[0] == values[0][0];
    var (f, rest) := ReadPlain(s);
  }

  /** More precisely, a date with one comma in it ("Oct 14, 2026", with plain
      text either side) becomes two fields: the row as written reads back with
      one field more than it was given, every later value one column to the
      right. */
  lemma AsWrittenDateShifts(values: seq<string>, a: string, b: string)
    requires |values| >= 2 && values[0] == a + [Comma] + b
    requires !NeedsQuotes(a) && !NeedsQuotes(b)
    requires Quote !in values[1]
    requires forall i :: 2 <= i < |values| ==> !NeedsQuotes(values[i])
    ensures ReadRecord(RowAsWritten(values)) == Some([a, b] + values[1..])
  {
    var written := WrittenCells(values);
    var cells := [a, b] + written[1..];
    var read := [a, b] + values[1..];
    forall i | 0 <= i < |cells| ensures Encodes(cells[i], read[i]) {
      if i == 2 {
        assert cells[2] == [Quote] + values[1] + [Quote];
        DoubleQuotesWithoutQuote(values[1]);
      } else if i > 2 {
        assert cells[i] == values[i - 1] == read[i];
      }
    }
    RecordRoundTrip(cells, read);
    SplitDateJoin(written, a, b);
  }

  /** Splitting the first of the written fields at its comma leaves the row. */
  lemma SplitDateJoin(written: seq<string>, a: string, b: string)
    requires |written| >= 2 && written[0] == a + [Comma] + b
    ensures Join([a, b] + written[1..], [Comma]) == Join(written, [Comma])
  {
    var cells := [a, b] + written[1..];
    var rest := Join(written[1..], [Comma]);
    assert cells[1..] == [b] + written[1..];
    assert ([b] + written[1..])[1..] == written[1..];
    assert Join(cells, [Comma]) == a + [Comma] + (b + [Comma] + rest);
    assert a + [Comma] + (b + [Comma] + rest) == written[0] + [Comma] + rest;
  }

  /** A description with a quote in it that is not followed by another quote
      or a comma (as in `6" sub`) makes the row unreadable: the quote closes
      the field early and the reader finds text where a comma must be. */
  lemma AsWrittenQuoteBreaksRow(values: seq<string>, p: nat)
    requires |values| >= 2
    requires Comma !in values[0] && Quote !in values[0]
    requires p + 1 < |values[1]| && values[1][p] == Quote
    requires values[1][p + 1] != Quote && values[1][p + 1] != Comma
    requires Quote !in values[1][..p]
    ensures ReadRecord(RowAsWritten(values)) == None
  {
    WrittenRowShape(values);
    var tail := WrittenTail(values);
    var rest := [Comma] + ([Quote] + values[1] + [Quote] + tail);
    ReadPlainBack(values[0], rest);
    if |values[0]| > 0 {
      assert values[0][0] in values[0];
    }
    assert ReadField(values[0] + rest) == Some((values[0], rest));
    var body := values[1] + [Quote] + tail;
    assert rest[1..] == [Quote] + body;
    assert body[..p] == values[1][..p];
    ReadQuotedStops(body, p);
    assert body[p + 1..][0] == values[1][p + 1];
  }

  /** The reader ends a quoted field at its first lone quote. */
  lemma {:induction false} ReadQuotedStops(s: string, p: nat)
    requires p + 1 < |s| && s[p] == Quote && s[p + 1] != Quote
    requires Quote !in s[..p]
    ensures ReadQuoted(s) == Some((s[..p], s[p + 1..]))
  {
    if p > 0 {
      assert s[0] in s[..p];
      assert s[1..][..p - 1] == s[1..p];
      assert forall c :: c in s[1..p] ==> c in s[..p];
      ReadQuotedStops(s[1..], p - 1);
      assert [s[0]] + s[1..p] == s[..p];
      assert s[1..][p..] == s[p + 1..];
    }
  }

  /** The description `6" sub` (a six-inch sandwich) is such a description. */
  lemma SandwichBreaksRow(date: string, rest: seq<string>)
    requires Comma !in date && Quote !in date
    ensures ReadRecord(RowAsWritten([date, "6\" sub"] + rest)) == None
  {
    var values := [date, "6\" sub"] + rest;
    assert values[1][..1] == "6";
    AsWrittenQuoteBreaksRow(values, 1);
  }
}
