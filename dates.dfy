/** Calendar dates. A date is a day number counted from a fixed epoch, so dates
    are totally ordered by that number. `DateKey` stands for `toDateString()`:
    the text a date is filed under. Its exact format is not modelled; what the
    store relies on is that it can be read back (`ParseDate`, standing for
    `new Date(text)`), which makes it injective. */
module Dates {
  import opened Common

  datatype Date = Date(ordinal: nat)

  /** `a` is a strictly later day than `b`. */
  predicate Newer(a: Date, b: Date) {
    a.ordinal > b.ordinal
  }

  function DigitChar(k: nat): char
    requires k < 10
  {
    (48 + k) as char
  }

  function DigitValue(c: char): Option<nat> {
    if '0' <= c <= '9' then Some(c as int - 48) else None
  }

  /** Decimal text of `n`, most significant digit first, no leading zeros. */
  function NatText(n: nat): (s: string)
    ensures |s| > 0
    decreases n
  {
    if n < 10 then [DigitChar(n)] else NatText(n / 10) + [DigitChar(n % 10)]
  }

  /** Reads decimal text; `None` for the empty text or a non-digit. */
  function ParseNat(s: string): Option<nat>
    decreases |s|
  {
    if |s| == 0 then None
    else if |s| == 1 then DigitValue(s[0])
    else
      match (ParseNat(s[..|s| - 1]), DigitValue(s[|s| - 1]))
      case (Some(high), Some(low)) => Some(10 * high + low)
      case _ => None
  }

  lemma {:induction false} ParseNatText(n: nat)
    ensures ParseNat(NatText(n)) == Some(n)
    decreases n
  {
    if n >= 10 {
      var s := NatText(n);
      ParseNatText(n / 10);
      assert s[..|s| - 1] == NatText(n / 10);
      assert s[|s| - 1] == DigitChar(n % 10);
    }
  }

  /** `getDateKey(date)`, i.e. `date.toDateString()`. */
  function DateKey(d: Date): string {
    NatText(d.ordinal)
  }

  /** `new Date(text)` for a text `DateKey` may have produced; `None` stands for
      an invalid date. */
  function ParseDate(s: string): Option<Date> {
    match ParseNat(s)
    case Some(n) => Some(Date(n))
    case None => None
  }

  /** Reading back the key of a date gives the date. */
  lemma ParseDateKey(d: Date)
    ensures ParseDate(DateKey(d)) == Some(d)
  {
    ParseNatText(d.ordinal);
  }

  /** Different dates are filed under different keys. */
  lemma DateKeyInjective(a: Date, b: Date)
    ensures DateKey(a) == DateKey(b) ==> a == b
  {
    ParseDateKey(a);
    ParseDateKey(b);
  }

  /** `s` is the key text of some date (the date it reads back as). */
  predicate IsDateKey(s: string) {
    ParseDate(s).Some? && DateKey(ParseDate(s).value) == s
  }

  lemma DateKeyIsDateKey(d: Date)
    ensures IsDateKey(DateKey(d)) && ParseDate(DateKey(d)) == Some(d)
  {
    ParseDateKey(d);
  }
}
