/** The string operations the pages and the server rely on: decimal rendering
    of non-negative integers (JavaScript's `toString`, Python's `str`), left
    padding (`padStart`), splitting at a separator, whitespace trimming
    (JavaScript's `trim`, Python's `strip`) and lower-casing. */
module Text {

  datatype Option<T> = None | Some(value: T)

  predicate IsDigit(c: char) { '0' <= c <= '9' }

  predicate AllDigits(s: string) { forall i :: 0 <= i < |s| ==> IsDigit(s[i]) }

  function DigitValue(c: char): (d: nat)
    requires IsDigit(c)
    ensures d < 10
  {
    c as int - '0' as int
  }

  function DigitChar(d: nat): (c: char)
    requires d < 10
    ensures IsDigit(c) && DigitValue(c) == d
  {
    (d + '0' as int) as char
  }

  /** Decimal text of `n`, without leading zeros. */
  function Str(n: nat): (s: string)
    ensures |s| >= 1 && AllDigits(s)
    ensures s[0] == '0' ==> n == 0
    decreases n
  {
    if n < 10 then [DigitChar(n)] else Str(n / 10) + [DigitChar(n % 10)]
  }

  /** Value of a string of decimal digits (the empty string reads as 0). */
  function Parse(s: string): nat
    requires AllDigits(s)
  {
    if s == [] then 0 else Parse(s[..|s| - 1]) * 10 + DigitValue(s[|s| - 1])
  }

  lemma {:induction false} ParseStr(n: nat)
    ensures Parse(Str(n)) == n
    decreases n
  {
    if n >= 10 {
      var s := Str(n / 10);
      assert Str(n) == s + [DigitChar(n % 10)];
      assert (s + [DigitChar(n % 10)])[..|s|] == s;
      ParseStr(n / 10);
    }
  }

  lemma StrInjective(a: nat, b: nat)
    ensures Str(a) == Str(b) ==> a == b
  {
    ParseStr(a);
    ParseStr(b);
  }

  lemma {:induction false} ParseZeroPrefix(s: string)
    requires AllDigits(s)
    ensures AllDigits(['0'] + s) && Parse(['0'] + s) == Parse(s)
    decreases |s|
  {
    var t := ['0'] + s;
    if s != [] {
      assert t[..|t| - 1] == ['0'] + s[..|s| - 1];
      ParseZeroPrefix(s[..|s| - 1]);
    }
  }

  /** JavaScript's `s.padStart(width, fill)` for a one-character fill. */
  function PadStart(s: string, width: nat, fill: char): (r: string)
    ensures |r| == if |s| >= width then |s| else width
    decreases width - |s|
  {
    if |s| >= width then s else PadStart([fill] + s, width, fill)
  }

  lemma {:induction false} ParsePadStart(s: string, width: nat)
    requires AllDigits(s)
    ensures AllDigits(PadStart(s, width, '0'))
    ensures Parse(PadStart(s, width, '0')) == Parse(s)
    decreases width - |s|
  {
    if |s| < width {
      ParseZeroPrefix(s);
      ParsePadStart(['0'] + s, width);
    }
  }

  /** Position of the first `c` in `s`, or `|s|` when there is none. */
  function IndexOf(s: string, c: char): (i: nat)
    ensures i <= |s|
    ensures i < |s| ==> s[i] == c
    ensures forall j :: 0 <= j < i ==> s[j] != c
  {
    if s == [] then 0 else if s[0] == c then 0 else 1 + IndexOf(s[1..], c)
  }

  /** Reads `digits sep digits` back into its two numbers; None for anything else. */
  function ParsePair(s: string, sep: char): (r: Option<(nat, nat)>)
    ensures r.Some? ==> IndexOf(s, sep) < |s|
  {
    var i := IndexOf(s, sep);
    if i < |s| && i > 0 && i + 1 < |s| && AllDigits(s[..i]) && AllDigits(s[i + 1..])
    then Some((Parse(s[..i]), Parse(s[i + 1..])))
    else None
  }

  lemma IndexOfAfterDigits(p: string, sep: char, q: string)
    requires AllDigits(p) && !IsDigit(sep)
    ensures IndexOf(p + [sep] + q, sep) == |p|
  {
    var s := p + [sep] + q;
    assert s[|p|] == sep;
    assert forall j :: 0 <= j < |p| ==> s[j] == p[j];
  }

  /** `a + sep + b` as JavaScript's template literals render it. */
  function Joined(a: nat, sep: char, b: nat): string
  {
    Str(a) + [sep] + Str(b)
  }

  lemma ParseJoined(p: string, sep: char, q: string)
    requires AllDigits(p) && AllDigits(q) && p != [] && q != [] && !IsDigit(sep)
    ensures ParsePair(p + [sep] + q, sep) == Some((Parse(p), Parse(q)))
  {
    var s := p + [sep] + q;
    IndexOfAfterDigits(p, sep, q);
    assert s[..|p|] == p;
    assert s[|p| + 1..] == q;
  }

  lemma {:induction false} JoinedRoundTrip(a: nat, sep: char, b: nat)
    requires !IsDigit(sep)
    ensures ParsePair(Joined(a, sep, b), sep) == Some((a, b))
  {
    ParseJoined(Str(a), sep, Str(b));
    ParseStr(a);
    ParseStr(b);
  }

  /** Which language's notion of whitespace a trim uses. */
  datatype Dialect = JavaScript | Python

  /** Whitespace for JavaScript's `trim` (WhiteSpace and LineTerminator) and
      for Python's `str.strip()` with no argument (`str.isspace`). */
  predicate IsSpace(dialect: Dialect, c: char)
  {
    || c == ' ' || c == '\t' || c == '\n' || c == '\U{000B}' || c == '\U{000C}' || c == '\r'
    || c == '\U{00A0}' || c == '\U{1680}' || ('\U{2000}' <= c <= '\U{200A}')
    || c == '\U{2028}' || c == '\U{2029}' || c == '\U{202F}' || c == '\U{205F}' || c == '\U{3000}'
    || (dialect == JavaScript && c == '\U{FEFF}')
    || (dialect == Python && (('\U{001C}' <= c <= '\U{001F}') || c == '\U{0085}'))
  }

  function TrimStart(s: string, dialect: Dialect): string
  {
    if s != [] && IsSpace(dialect, s[0]) then TrimStart(s[1..], dialect) else s
  }

  function TrimEnd(s: string, dialect: Dialect): string
  {
    if s != [] && IsSpace(dialect, s[|s| - 1]) then TrimEnd(s[..|s| - 1], dialect) else s
  }

  /** `TrimStart` drops the longest all-whitespace prefix. */
  lemma {:induction false} TrimStartShape(s: string, dialect: Dialect)
    ensures |TrimStart(s, dialect)| <= |s| && TrimStart(s, dialect) == s[|s| - |TrimStart(s, dialect)|..]
    ensures forall i :: 0 <= i < |s| - |TrimStart(s, dialect)| ==> IsSpace(dialect, s[i])
    ensures TrimStart(s, dialect) != [] ==> !IsSpace(dialect, TrimStart(s, dialect)[0])
    decreases |s|
  {
    if s != [] && IsSpace(dialect, s[0]) {
      TrimStartShape(s[1..], dialect);
    }
  }

  /** `TrimEnd` drops the longest all-whitespace suffix. */
  lemma {:induction false} TrimEndShape(s: string, dialect: Dialect)
    ensures |TrimEnd(s, dialect)| <= |s| && TrimEnd(s, dialect) == s[..|TrimEnd(s, dialect)|]
    ensures forall i :: |TrimEnd(s, dialect)| <= i < |s| ==> IsSpace(dialect, s[i])
    ensures TrimEnd(s, dialect) != [] ==> !IsSpace(dialect, TrimEnd(s, dialect)[|TrimEnd(s, dialect)| - 1])
    decreases |s|
  {
    if s != [] && IsSpace(dialect, s[|s| - 1]) {
      TrimEndShape(s[..|s| - 1], dialect);
    }
  }

  predicate NoBorderSpace(s: string, dialect: Dialect)
  {
    s == [] || (!IsSpace(dialect, s[0]) && !IsSpace(dialect, s[|s| - 1]))
  }

  /** Removes leading and trailing whitespace: `s.trim()` or `s.strip()`. */
  function Trim(s: string, dialect: Dialect): string
  {
    TrimEnd(TrimStart(s, dialect), dialect)
  }

  /** The trimmed text is a piece of the original with no whitespace at either end. */
  lemma TrimClean(s: string, dialect: Dialect)
    ensures NoBorderSpace(Trim(s, dialect), dialect)
    ensures |Trim(s, dialect)| <= |s|
  {
    var l := TrimStart(s, dialect);
    TrimStartShape(s, dialect);
    TrimEndShape(l, dialect);
    var r := TrimEnd(l, dialect);
    assert r != [] ==> r[0] == l[0];
  }

  lemma TrimKeepsClean(s: string, dialect: Dialect)
    requires NoBorderSpace(s, dialect)
    ensures Trim(s, dialect) == s
  {
  }

  lemma TrimIdempotent(s: string, dialect: Dialect)
    ensures Trim(Trim(s, dialect), dialect) == Trim(s, dialect)
  {
    TrimClean(s, dialect);
    TrimKeepsClean(Trim(s, dialect), dialect);
  }

  function LowerChar(c: char): (d: char)
    ensures !('A' <= d <= 'Z')
  {
    if 'A' <= c <= 'Z' then (c as int - 'A' as int + 'a' as int) as char else c
  }

  /** Lower-casing restricted to ASCII letters. */
  function Lower(s: string): string
  {
    seq(|s|, i requires 0 <= i < |s| => LowerChar(s[i]))
  }
}
