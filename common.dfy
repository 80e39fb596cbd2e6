/** Small value-level helpers shared by the whole model: an option type, string
    prefixes, JavaScript's `String.prototype.trim`, `Array.prototype.join`,
    and character counting. */
module Common {

  datatype Option<+T> = None | Some(value: T)

  /** `s.startsWith(prefix)`. */
  predicate StartsWith(s: string, prefix: string) {
    |prefix| <= |s| && s[..|prefix|] == prefix
  }

  lemma PrefixOfConcat(p: string, x: string)
    ensures StartsWith(p + x, p)
    ensures (p + x)[|p|..] == x
  {
    assert (p + x)[..|p|] == p;
  }

  /** A text that differs from `p` at a position both have does not start with `p`. */
  lemma NotPrefixAt(s: string, p: string, i: nat)
    requires i < |p| && i < |s| && s[i] != p[i]
    ensures !StartsWith(s, p)
  {
    if |p| <= |s| {
      assert s[..|p|][i] == s[i];
    }
  }

  /** The characters `trim` removes: ECMAScript WhiteSpace and LineTerminator. */
  predicate IsWhitespace(c: char) {
    || c == ' ' || c == '\t' || c == '\n' || c == '\r'
    || c == '\U{000B}' || c == '\U{000C}' || c == '\U{00A0}' || c == '\U{1680}'
    || ('\U{2000}' <= c <= '\U{200A}')
    || c == '\U{2028}' || c == '\U{2029}' || c == '\U{202F}' || c == '\U{205F}'
    || c == '\U{3000}' || c == '\U{FEFF}'
  }

  function TrimStart(s: string): string {
    if |s| > 0 && IsWhitespace(s[0]) then TrimStart(s[1..]) else s
  }

  function TrimEnd(s: string): string {
    if |s| > 0 && IsWhitespace(s[|s| - 1]) then TrimEnd(s[..|s| - 1]) else s
  }

  /** `s.trim()`. */
  function Trim(s: string): string {
    TrimEnd(TrimStart(s))
  }

  /** `trimStart` drops a prefix made of whitespace only, and exactly the
      longest one. */
  lemma {:induction false} TrimStartSpec(s: string)
    ensures |TrimStart(s)| <= |s| && TrimStart(s) == s[|s| - |TrimStart(s)|..]
    ensures TrimStart(s) == [] || !IsWhitespace(TrimStart(s)[0])
    ensures forall i :: 0 <= i < |s| - |TrimStart(s)| ==> IsWhitespace(s[i])
  {
    if |s| > 0 && IsWhitespace(s[0]) {
      TrimStartSpec(s[1..]);
      assert s[1..][|s| - 1 - |TrimStart(s)|..] == s[|s| - |TrimStart(s)|..];
      forall i | 1 <= i < |s| - |TrimStart(s)| ensures IsWhitespace(s[i]) {
        assert s[1..][i - 1] == s[i];
      }
    }
  }

  /** `trimEnd` drops a suffix made of whitespace only, and exactly the
      longest one. */
  lemma {:induction false} TrimEndSpec(s: string)
    ensures |TrimEnd(s)| <= |s| && TrimEnd(s) == s[..|TrimEnd(s)|]
    ensures TrimEnd(s) == [] || !IsWhitespace(TrimEnd(s)[|TrimEnd(s)| - 1])
    ensures forall i :: |TrimEnd(s)| <= i < |s| ==> IsWhitespace(s[i])
  {
    if |s| > 0 && IsWhitespace(s[|s| - 1]) {
      TrimEndSpec(s[..|s| - 1]);
      assert s[..|s| - 1][..|TrimEnd(s)|] == s[..|TrimEnd(s)|];
      forall i | |TrimEnd(s)| <= i < |s| - 1 ensures IsWhitespace(s[i]) {
        assert s[..|s| - 1][i] == s[i];
      }
    }
  }

  /** The trimmed text is an infix of `s` that neither starts nor ends with
      whitespace. */
  lemma TrimSpec(s: string)
    ensures Trim(s) == [] || (!IsWhitespace(Trim(s)[0]) && !IsWhitespace(Trim(s)[|Trim(s)| - 1]))
    ensures exists i :: InfixAt(Trim(s), s, i)
  {
    var t := TrimStart(s);
    TrimStartSpec(s);
    TrimEndSpec(t);
    var r := TrimEnd(t);
    if r != [] {
      assert r[0] == t[0];
    }
    assert InfixAt(r, s, |s| - |t|);
  }

  /** `r` occurs in `s` starting at position `i`. */
  predicate InfixAt(r: string, s: string, i: int) {
    0 <= i <= |s| - |r| && r == s[i..i + |r|]
  }

  /** A text made of whitespace only, the empty text included, trims to "". */
  lemma {:induction false} TrimBlank(s: string)
    requires forall i :: 0 <= i < |s| ==> IsWhitespace(s[i])
    ensures Trim(s) == ""
  {
    TrimStartBlank(s);
    assert TrimEnd([]) == [];
  }

  lemma {:induction false} TrimStartBlank(s: string)
    requires forall i :: 0 <= i < |s| ==> IsWhitespace(s[i])
    ensures TrimStart(s) == ""
  {
    if |s| > 0 {
      TrimStartBlank(s[1..]);
    }
  }

  /** Trimming a text that holds a non-whitespace character keeps it non-empty. */
  lemma TrimKeepsContent(s: string, k: nat)
    requires k < |s| && !IsWhitespace(s[k])
    ensures Trim(s) != ""
  {
    var t := TrimStart(s);
    TrimStartSpec(s);
    TrimEndSpec(t);
    assert |s| - |t| <= k;
    var k' := k - (|s| - |t|);
    assert t[k'] == s[k];
    assert |TrimEnd(t)| > k';
  }

  /** `parts.join(sep)`. */
  function Join(parts: seq<string>, sep: string): string
    decreases |parts|
  {
    if |parts| == 0 then ""
    else if |parts| == 1 then parts[0]
    else parts[0] + sep + Join(parts[1..], sep)
  }

  /** The number of occurrences of `c` in `s`. */
  function Occurrences(c: char, s: string): nat
  {
    if s == [] then 0 else (if s[0] == c then 1 else 0) + Occurrences(c, s[1..])
  }

  lemma {:induction false} OccurrencesConcat(c: char, a: string, b: string)
    ensures Occurrences(c, a + b) == Occurrences(c, a) + Occurrences(c, b)
  {
    if a == [] {
      assert a + b == b;
    } else {
      assert (a + b)[0] == a[0];
      assert (a + b)[1..] == a[1..] + b;
      OccurrencesConcat(c, a[1..], b);
    }
  }

  lemma {:induction false} OccurrencesAbsent(c: char, s: string)
    requires c !in s
    ensures Occurrences(c, s) == 0
  {
    if s != [] {
      OccurrencesAbsent(c, s[1..]);
    }
  }

  /** Joining with a one-character separator `c` that no part contains puts
      exactly one `c` between each two neighbouring parts. */
  lemma {:induction false} JoinSeparators(parts: seq<string>, c: char)
    requires |parts| > 0
    requires forall i :: 0 <= i < |parts| ==> c !in parts[i]
    ensures Occurrences(c, Join(parts, [c])) == |parts| - 1
  {
    OccurrencesAbsent(c, parts[0]);
    if |parts| > 1 {
      JoinSeparators(parts[1..], c);
      OccurrencesConcat(c, parts[0] + [c], Join(parts[1..], [c]));
      OccurrencesConcat(c, parts[0], [c]);
    }
  }

  /** A character that is in none of the parts and not in the separator is not in
      the joined text. */
  lemma {:induction false} JoinAvoids(parts: seq<string>, sep: string, c: char)
    requires c !in sep
    requires forall i :: 0 <= i < |parts| ==> c !in parts[i]
    ensures c !in Join(parts, sep)
  {
    if |parts| > 1 {
      JoinAvoids(parts[1..], sep, c);
    }
  }
}
