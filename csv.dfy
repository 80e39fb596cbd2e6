/** Comma-separated records in the sense of RFC 4180: a reference reader for
    one record, the field escaping a writer needs so that the reader gives the
    written values back, and the round trip between the two. */
module Csv {
  import opened Common

  const Quote: char := '"'
  const Comma: char := ','

  // ------------------------------------------------------------------ reader

  /** An unquoted field: the text up to the first comma, and what follows it. */
  function ReadPlain(s: string): (r: (string, string))
    ensures r.0 + r.1 == s
    ensures r.1 == [] || r.1[0] == Comma
    ensures Comma !in r.0
  {
    if s == [] || s[0] == Comma then ([], s)
    else
      var (f, rest) := ReadPlain(s[1..]);
      assert s == [s[0]] + s[1..];
      ([s[0]] + f, rest)
  }

  /** The body of a quoted field, read after its opening quote: `""` stands for
      one quote and a lone quote closes the field. `None` when no quote closes
      it. */
  function ReadQuoted(s: string): (r: Option<(string, string)>)
    ensures r.Some? ==> |r.value.1| < |s|
    decreases |s|
  {
    if s == [] then None
    else if s[0] == Quote then
      if |s| > 1 && s[1] == Quote then
        match ReadQuoted(s[2..])
        case None => None
        case Some((f, rest)) => Some(([Quote] + f, rest))
      else Some(([], s[1..]))
    else
      match ReadQuoted(s[1..])
      case None => None
      case Some((f, rest)) => Some(([s[0]] + f, rest))
  }

  /** One field at the start of `s`, quoted or not, and the text after it. */
  function ReadField(s: string): (r: Option<(string, string)>)
    ensures r.Some? ==> |r.value.1| <= |s|
  {
    if |s| > 0 && s[0] == Quote then ReadQuoted(s[1..]) else Some(ReadPlain(s))
  }

  /** The values of a record: fields separated by commas, with nothing but a
      comma or the end of the text after each field. */
  function ReadRecord(s: string): Option<seq<string>>
    decreases |s|
  {
    match ReadField(s)
    case None => None
    case Some((f, rest)) =>
      if rest == [] then Some([f])
      else if rest[0] != Comma then None
      else
        match ReadRecord(rest[1..])
        case None => None
        case Some(fs) => Some([f] + fs)
  }

  // ------------------------------------------------------------------ writer

  /** Every quote doubled. */
  function DoubleQuotes(s: string): string {
    if s == [] then []
    else (if s[0] == Quote then [Quote, Quote] else [s[0]]) + DoubleQuotes(s[1..])
  }

  /** A field in quotes, with its own quotes doubled. */
  function Quoted(v: string): string {
    [Quote] + DoubleQuotes(v) + [Quote]
  }

  /** A value that cannot be written bare: it holds a comma, a quote or a line
      break. */
  predicate NeedsQuotes(v: string) {
    Comma in v || Quote in v || '\n' in v || '\r' in v
  }

  /** A value as a field: bare where that is safe, quoted otherwise. */
  function Field(v: string): (r: string)
    ensures Encodes(r, v)
  {
    if NeedsQuotes(v) then Quoted(v) else v
  }

  /** `cell` is a correct spelling of `v` as a field. */
  predicate Encodes(cell: string, v: string) {
    cell == Quoted(v) || (cell == v && !NeedsQuotes(v))
  }

  // -------------------------------------------------------------- round trip

  lemma {:induction false} ReadQuotedBack(v: string, rest: string)
    requires rest == [] || rest[0] == Comma
    ensures ReadQuoted(DoubleQuotes(v) + [Quote] + rest) == Some((v, rest))
  {
    if v == [] {
      assert DoubleQuotes(v) + [Quote] + rest == [Quote] + rest;
    } else {
      ReadQuotedBack(v[1..], rest);
      var t := DoubleQuotes(v[1..]) + [Quote] + rest;
      ReadQuotedCons(v[0], t);
      assert DoubleQuotes(v) + [Quote] + rest == (if v[0] == Quote then [Quote, Quote] else [v[0]]) + t;
      assert v == [v[0]] + v[1..];
    }
  }

  /** A character of the body, spelled with its quote doubled, is read before
      the rest of the body. */
  lemma ReadQuotedCons(c: char, t: string)
    requires ReadQuoted(t).Some?
    ensures ReadQuoted((if c == Quote then [Quote, Quote] else [c]) + t)
      == Some(([c] + ReadQuoted(t).value.0, ReadQuoted(t).value.1))
  {
    var s := (if c == Quote then [Quote, Quote] else [c]) + t;
    if c == Quote {
      assert s[0] == Quote && s[1] == Quote && s[2..] == t;
    } else {
      assert s[0] == c && s[1..] == t;
    }
  }

  lemma {:induction false} ReadPlainBack(v: string, rest: string)
    requires Comma !in v
    requires rest == [] || rest[0] == Comma
    ensures ReadPlain(v + rest) == (v, rest)
  {
    if v != [] {
      assert (v + rest)[0] == v[0];
      assert (v + rest)[1..] == v[1..] + rest;
      ReadPlainBack(v[1..], rest);
      assert v == [v[0]] + v[1..];
    } else {
      assert v + rest == rest;
    }
  }

  /** A correctly spelled field followed by a comma or the end reads back as its
      value. */
  lemma ReadFieldBack(cell: string, v: string, rest: string)
    requires Encodes(cell, v)
    requires rest == [] || rest[0] == Comma
    ensures ReadField(cell + rest) == Some((v, rest))
  {
    if cell == Quoted(v) {
      ReadQuotedBack(v, rest);
      assert (cell + rest)[1..] == DoubleQuotes(v) + [Quote] + rest;
    } else {
      ReadPlainBack(v, rest);
      if |v| > 0 {
        assert v[0] in v;
      }
    }
  }

  /** Writing values as correctly spelled fields joined by commas, and reading
      the record back, gives the values. */
  lemma {:induction false} RecordRoundTrip(cells: seq<string>, values: seq<string>)
    requires |cells| == |values| > 0
    requires forall i :: 0 <= i < |cells| ==> Encodes(cells[i], values[i])
    ensures ReadRecord(Join(cells, [Comma])) == Some(values)
  {
    if |cells| == 1 {
      ReadFieldBack(cells[0], values[0], []);
      assert cells[0] + [] == cells[0];
      assert Join(cells, [Comma]) == cells[0];
      assert values == [values[0]];
    } else {
      var tail := Join(cells[1..], [Comma]);
      var rest := [Comma] + tail;
      assert Join(cells, [Comma]) == cells[0] + rest;
      ReadFieldBack(cells[0], values[0], rest);
      assert rest[1..] == tail;
      RecordRoundTrip(cells[1..], values[1..]);
      assert values == [values[0]] + values[1..];
    }
  }

  /** The written record reads back as the values; in particular it has as
      many fields as there are values. */
  lemma WriteRecordRoundTrip(values: seq<string>)
    requires |values| > 0
    ensures ReadRecord(WriteRecord(values)) == Some(values)
  {
    var cells := seq(|values|, i requires 0 <= i < |values| => Field(values[i]));
    RecordRoundTrip(cells, values);
  }

  /** A record with every value spelled by `Field`. */
  function WriteRecord(values: seq<string>): string {
    Join(seq(|values|, i requires 0 <= i < |values| => Field(values[i])), [Comma])
  }

  // ------------------------------------------------------------ line breaks

  /** A text without quotes needs no doubling. */
  lemma {:induction false} DoubleQuotesWithoutQuote(s: string)
    requires Quote !in s
    ensures DoubleQuotes(s) == s
  {
    if s != [] {
      assert s[0] in s;
      assert forall c :: c in s[1..] ==> c in s;
      DoubleQuotesWithoutQuote(s[1..]);
      assert s == [s[0]] + s[1..];
    }
  }

  lemma {:induction false} DoubleQuotesAvoids(s: string, c: char)
    requires c != Quote && c !in s
    ensures c !in DoubleQuotes(s)
  {
    if s != [] {
      DoubleQuotesAvoids(s[1..], c);
    }
  }

  /** A field written for a value without `c` (other than a quote) holds no `c`. */
  lemma QuotedAvoids(v: string, c: char)
    requires c != Quote && c !in v
    ensures c !in Quoted(v) && c !in Field(v)
  {
    DoubleQuotesAvoids(v, c);
  }

  // --------------------------------------------------------------- documents

  /** `s.split(c)`: the pieces between the occurrences of `c`. */
  function SplitOn(s: string, c: char): (r: seq<string>)
    ensures |r| > 0
  {
    if s == [] then [[]]
    else
      var rest := SplitOn(s[1..], c);
      if s[0] == c then [[]] + rest else [[s[0]] + rest[0]] + rest[1..]
  }

  lemma {:induction false} SplitOnPrefix(a: string, b: string, c: char)
    requires c !in a
    ensures SplitOn(a + b, c) == [a + SplitOn(b, c)[0]] + SplitOn(b, c)[1..]
  {
    if a == [] {
      var t := SplitOn(b, c);
      assert a + b == b && a + t[0] == t[0];
      assert t == [t[0]] + t[1..];
    } else {
      assert (a + b)[0] == a[0];
      assert (a + b)[1..] == a[1..] + b;
      SplitOnPrefix(a[1..], b, c);
      var r := SplitOn(a[1..] + b, c);
      var t := SplitOn(b, c);
      assert a[0] in a;
      assert SplitOn(a + b, c) == [[a[0]] + r[0]] + r[1..];
      assert r[0] == a[1..] + t[0] && r[1..] == t[1..];
      assert [a[0]] + (a[1..] + t[0]) == a + t[0];
    }
  }

  /** Splitting lines joined by a separator that none of them contains gives
      the lines back. */
  lemma {:induction false} SplitJoin(parts: seq<string>, c: char)
    requires |parts| > 0
    requires forall i :: 0 <= i < |parts| ==> c !in parts[i]
    ensures SplitOn(Join(parts, [c]), c) == parts
  {
    if |parts| == 1 {
      SplitOnPrefix(parts[0], [], c);
      assert parts[0] + [] == parts[0];
    } else {
      var tail := Join(parts[1..], [c]);
      SplitJoin(parts[1..], c);
      assert Join(parts, [c]) == parts[0] + ([c] + tail);
      SplitOnPrefix(parts[0], [c] + tail, c);
      assert ([c] + tail)[1..] == tail;
      assert SplitOn([c] + tail, c) == [[]] + SplitOn(tail, c);
      assert parts[0] + [] == parts[0];
      assert parts == [parts[0]] + parts[1..];
    }
  }

  /** A document read line by line, each line as one record. */
  function ReadDocument(s: string): (r: seq<Option<seq<string>>>)
    ensures |r| == |SplitOn(s, '\n')|
  {
    var lines := SplitOn(s, '\n');
    seq(|lines|, i requires 0 <= i < |lines| => ReadRecord(lines[i]))
  }

  /** Lines without line breaks, joined into a document and read back, are
      read as the records of those lines, in order. */
  lemma DocumentOfLines(lines: seq<string>)
    requires |lines| > 0
    requires forall i :: 0 <= i < |lines| ==> '\n' !in lines[i]
    ensures |ReadDocument(Join(lines, "\n"))| == |lines|
    ensures forall i :: 0 <= i < |lines| ==> ReadDocument(Join(lines, "\n"))[i] == ReadRecord(lines[i])
  {
    SplitJoin(lines, '\n');
  }
}
