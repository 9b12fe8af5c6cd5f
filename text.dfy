/** The character classes and string operations of JavaScript that the bot relies
    on: the regular-expression classes `\d`, `\w` and `\s`, `trim`,
    `toUpperCase`/`toLowerCase`, `split(' ')`/`join(' ')`, `replace` of the first
    occurrence, and the number parsing done by `parseFloat`/`parseInt` on decimal
    text. */
module Text {
  import opened Wrappers

  // ---------------------------------------------------------------------------
  // Character classes

  predicate IsDigit(c: char) { '0' <= c <= '9' }
  predicate IsAsciiUpper(c: char) { 'A' <= c <= 'Z' }
  predicate IsAsciiLower(c: char) { 'a' <= c <= 'z' }

  /** The regular-expression class `\w`: [A-Za-z0-9_]. */
  predicate IsWordChar(c: char) { IsDigit(c) || IsAsciiUpper(c) || IsAsciiLower(c) || c == '_' }

  predicate IsHexDigit(c: char) { IsDigit(c) || 'a' <= c <= 'f' || 'A' <= c <= 'F' }

  /** The class `\s`, which is also exactly what `trim` strips: white space and
      line terminators. */
  predicate IsSpace(c: char) {
    || c == '\t' || c == '\n' || c == '\U{000B}' || c == '\U{000C}' || c == '\r' || c == ' '
    || c == '\U{00A0}' || c == '\U{1680}' || ('\U{2000}' <= c <= '\U{200A}')
    || c == '\U{2028}' || c == '\U{2029}' || c == '\U{202F}' || c == '\U{205F}'
    || c == '\U{3000}' || c == '\U{FEFF}'
  }

  /** The characters that `.` does not match. */
  predicate IsLineTerminator(c: char) { c == '\n' || c == '\r' || c == '\U{2028}' || c == '\U{2029}' }

  predicate AllDigits(s: string) { forall i :: 0 <= i < |s| ==> IsDigit(s[i]) }
  predicate AllWord(s: string) { forall i :: 0 <= i < |s| ==> IsWordChar(s[i]) }
  predicate AllHex(s: string) { forall i :: 0 <= i < |s| ==> IsHexDigit(s[i]) }
  predicate NoLineTerminator(s: string) { forall i :: 0 <= i < |s| ==> !IsLineTerminator(s[i]) }
  predicate NoAsciiUpper(s: string) { forall i :: 0 <= i < |s| ==> !IsAsciiUpper(s[i]) }

  /** `\d+`: a non-empty run of digits. */
  predicate IsDigits(s: string) { |s| > 0 && AllDigits(s) }

  // ---------------------------------------------------------------------------
  // Case mapping (ASCII letters only)

  function UpperChar(c: char): char {
    if IsAsciiLower(c) then (c as int - 32) as char else c
  }

  function LowerChar(c: char): char {
    if IsAsciiUpper(c) then (c as int + 32) as char else c
  }

  function ToUpper(s: string): (r: string)
    ensures |r| == |s|
    ensures forall i :: 0 <= i < |s| ==> r[i] == UpperChar(s[i])
    decreases |s|
  {
    if |s| == 0 then "" else [UpperChar(s[0])] + ToUpper(s[1..])
  }

  function ToLower(s: string): (r: string)
    ensures |r| == |s|
    ensures forall i :: 0 <= i < |s| ==> r[i] == LowerChar(s[i])
    decreases |s|
  {
    if |s| == 0 then "" else [LowerChar(s[0])] + ToLower(s[1..])
  }

  /** Lower-casing leaves no upper-case ASCII letter, and upper-casing it again
      gives what upper-casing the original gives. */
  lemma LowerThenUpper(s: string)
    ensures NoAsciiUpper(ToLower(s))
    ensures ToUpper(ToLower(s)) == ToUpper(s)
  {
  }

  /** Two strings are equal ignoring (ASCII) case. */
  predicate EqualsIgnoreCase(s: string, t: string) { ToUpper(s) == ToUpper(t) }

  // ---------------------------------------------------------------------------
  // trim

  function TrimStart(s: string): (r: string)
    ensures |r| <= |s| && r == s[|s| - |r|..]
    ensures forall i :: 0 <= i < |s| - |r| ==> IsSpace(s[i])
    ensures r == [] || !IsSpace(r[0])
    decreases |s|
  {
    if |s| > 0 && IsSpace(s[0]) then TrimStart(s[1..]) else s
  }

  function TrimEnd(s: string): (r: string)
    ensures |r| <= |s| && r == s[..|r|]
    ensures forall i :: |r| <= i < |s| ==> IsSpace(s[i])
    ensures r == [] || !IsSpace(r[|r| - 1])
    decreases |s|
  {
    if |s| > 0 && IsSpace(s[|s| - 1]) then TrimEnd(s[..|s| - 1]) else s
  }

  /** `String.prototype.trim`. */
  function Trim(s: string): (r: string)
    ensures r == [] || (!IsSpace(r[0]) && !IsSpace(r[|r| - 1]))
    ensures |r| <= |s|
  {
    TrimEnd(TrimStart(s))
  }

  /** Every character of the trimmed text comes from the original. */
  lemma TrimKeepsCharacters(s: string)
    ensures forall k :: 0 <= k < |Trim(s)| ==> Trim(s)[k] in s
  {
    var a := TrimStart(s);
    PrefixOfSuffixChars(s, a, TrimEnd(a));
  }

  /** A prefix of a suffix of `s` is made of characters of `s`. */
  lemma PrefixOfSuffixChars(s: string, a: string, r: string)
    requires |a| <= |s| && a == s[|s| - |a|..]
    requires |r| <= |a| && r == a[..|r|]
    ensures forall k :: 0 <= k < |r| ==> r[k] in s
  {
    forall k | 0 <= k < |r| ensures r[k] in s {
      assert r[k] == a[k] == s[|s| - |a| + k];
    }
  }

  /** A string that neither starts nor ends with white space is its own trim. */
  lemma TrimOfTrimmed(s: string)
    requires s == [] || (!IsSpace(s[0]) && !IsSpace(s[|s| - 1]))
    ensures Trim(s) == s
  {
  }

  // ---------------------------------------------------------------------------
  // split(' ') and join(' ')

  /** `s.split(sep)` for a one-character separator: every occurrence separates, so
      two adjacent separators give an empty part, and "" gives [""]. */
  function Split(s: string, sep: char): (parts: seq<string>)
    ensures |parts| >= 1
    ensures forall k :: 0 <= k < |parts| ==> sep !in parts[k]
    decreases |s|
  {
    if |s| == 0 then [""]
    else
      var rest := Split(s[1..], sep);
      if s[0] == sep then [""] + rest else [[s[0]] + rest[0]] + rest[1..]
  }

  /** `parts.join(sep)`; [] joins to "". */
  function Join(parts: seq<string>, sep: char): string
    decreases |parts|
  {
    if |parts| == 0 then ""
    else if |parts| == 1 then parts[0]
    else parts[0] + [sep] + Join(parts[1..], sep)
  }

  /** Joining the parts of a split gives the original text back. */
  lemma {:induction false} JoinSplit(s: string, sep: char)
    ensures Join(Split(s, sep), sep) == s
    decreases |s|
  {
    if |s| > 0 {
      var rest := Split(s[1..], sep);
      JoinSplit(s[1..], sep);
      if s[0] == sep {
        JoinAfterEmpty(rest, sep);
      } else {
        JoinExtendFirst(s[0], rest, sep);
      }
      assert [s[0]] + s[1..] == s;
    }
  }

  /** An empty first part puts a separator in front. */
  lemma {:induction false} JoinAfterEmpty(rest: seq<string>, sep: char)
    requires |rest| >= 1
    ensures Join([""] + rest, sep) == [sep] + Join(rest, sep)
  {
    var x := [""] + rest;
    assert x[0] == "" && x[1..] == rest;
  }

  /** A character added to the first part comes first in the join. */
  lemma {:induction false} JoinExtendFirst(c: char, rest: seq<string>, sep: char)
    requires |rest| >= 1
    ensures Join([[c] + rest[0]] + rest[1..], sep) == [c] + Join(rest, sep)
  {
    var x := [[c] + rest[0]] + rest[1..];
    if |rest| > 1 {
      assert x[0] == [c] + rest[0] && x[1..] == rest[1..];
      assert Join(x, sep) == ([c] + rest[0]) + [sep] + Join(rest[1..], sep);
      assert Join(rest, sep) == rest[0] + [sep] + Join(rest[1..], sep);
    }
  }

  /** A text is its prefix followed by the rest. */
  lemma SplitAt(s: string, i: nat)
    requires i <= |s|
    ensures s == s[..i] + s[i..]
  {
  }

  /** `s.startsWith(p)`. */
  predicate StartsWith(s: string, p: string) { |p| <= |s| && s[..|p|] == p }

  lemma PrefixStarts(a: string, b: string)
    ensures StartsWith(a + b, a)
  {
    assert (a + b)[..|a|] == a;
  }

  // ---------------------------------------------------------------------------
  // Searching and replacing

  /** `pat` occurs in `s` at index `j`. */
  predicate OccursAt(s: string, pat: string, j: nat) {
    j + |pat| <= |s| && s[j..j + |pat|] == pat
  }

  /** The first index at or after `from` where `pat` occurs in `s`. */
  function IndexOfFrom(s: string, pat: string, from: nat): (r: Option<nat>)
    ensures r.Some? ==> from <= r.value && OccursAt(s, pat, r.value)
    ensures r.Some? ==> forall j: nat :: from <= j < r.value ==> !OccursAt(s, pat, j)
    ensures r.None? ==> forall j: nat :: from <= j ==> !OccursAt(s, pat, j)
    decreases |s| - from
  {
    if from + |pat| > |s| then None
    else if s[from..from + |pat|] == pat then Some(from)
    else IndexOfFrom(s, pat, from + 1)
  }

  /** A character that does not occur in `s` is not found by `indexOf`. */
  lemma IndexOfAbsentChar(s: string, c: char)
    requires c !in s
    ensures IndexOfFrom(s, [c], 0).None?
  {
    forall j: nat ensures !OccursAt(s, [c], j) {
      if j + 1 <= |s| {
        assert s[j..j + 1][0] == s[j];
      }
    }
  }

  /** `s.includes(pat)`. */
  predicate Contains(s: string, pat: string) { IndexOfFrom(s, pat, 0).Some? }

  /** `s.replace(pat, rep)` with a string pattern: only the first occurrence is
      replaced; with no occurrence the text is unchanged. */
  function ReplaceFirst(s: string, pat: string, rep: string): (r: string)
    ensures IndexOfFrom(s, pat, 0).None? ==> r == s
    ensures IndexOfFrom(s, pat, 0).Some? ==>
      var i := IndexOfFrom(s, pat, 0).value; r == s[..i] + rep + s[i + |pat|..]
  {
    match IndexOfFrom(s, pat, 0)
    case None => s
    case Some(i) => s[..i] + rep + s[i + |pat|..]
  }

  /** The first index of character `c` in `s`. */
  function IndexOfChar(s: string, c: char): (r: Option<nat>)
    ensures r.Some? ==> r.value < |s| && s[r.value] == c && c !in s[..r.value]
    ensures r.None? ==> c !in s
    decreases |s|
  {
    if |s| == 0 then None
    else if s[0] == c then Some(0)
    else match IndexOfChar(s[1..], c)
      case None => None
      case Some(i) => assert s[..i + 1] == [s[0]] + s[1..][..i]; Some(i + 1)
  }

  /** `s` with every character of `bad` removed (a global regex `replace`). */
  function Without(s: string, bad: set<char>): (r: string)
    ensures |r| <= |s|
    ensures forall i :: 0 <= i < |r| ==> r[i] !in bad
    ensures forall i :: 0 <= i < |r| ==> r[i] in s
    decreases |s|
  {
    if |s| == 0 then ""
    else (if s[0] in bad then "" else [s[0]]) + Without(s[1..], bad)
  }

  /** The `length` of a JavaScript string: UTF-16 code units, so a character
      outside the Basic Multilingual Plane counts twice. */
  function Utf16Length(s: string): (n: nat)
    ensures |s| <= n <= 2 * |s|
    decreases |s|
  {
    if |s| == 0 then 0
    else (if s[0] as int >= 0x1_0000 then 2 else 1) + Utf16Length(s[1..])
  }

  /** Text made only of characters of the Basic Multilingual Plane has as many
      code units as characters. */
  lemma {:induction false} Utf16LengthOfBmp(s: string)
    requires forall k :: 0 <= k < |s| ==> s[k] as int < 0x1_0000
    ensures Utf16Length(s) == |s|
    decreases |s|
  {
    if |s| > 0 {
      Utf16LengthOfBmp(s[1..]);
    }
  }

  /** Each character outside the Basic Multilingual Plane adds one unit more. */
  lemma {:induction false} Utf16LengthOfAstral(s: string)
    requires forall k :: 0 <= k < |s| ==> s[k] as int >= 0x1_0000
    ensures Utf16Length(s) == 2 * |s|
    decreases |s|
  {
    if |s| > 0 {
      Utf16LengthOfAstral(s[1..]);
    }
  }

  // ---------------------------------------------------------------------------
  // Numbers written in decimal

  function Pow10(n: nat): (r: nat)
    ensures r >= 1
  {
    if n == 0 then 1 else 10 * Pow10(n - 1)
  }

  function DigitValue(c: char): nat
    requires IsDigit(c)
  {
    c as int - '0' as int
  }

  function DigitChar(d: nat): (c: char)
    requires d < 10
    ensures IsDigit(c) && DigitValue(c) == d
  {
    ('0' as int + d) as char
  }

  /** The value of a run of decimal digits. */
  function DigitsValue(s: string): nat
    requires AllDigits(s)
    decreases |s|
  {
    if |s| == 0 then 0 else 10 * DigitsValue(s[..|s| - 1]) + DigitValue(s[|s| - 1])
  }

  /** A value written with `k` digits is below 10^k. */
  lemma {:induction false} DigitsValueBound(s: string)
    requires AllDigits(s)
    ensures DigitsValue(s) < Pow10(|s|)
    decreases |s|
  {
    if |s| > 0 {
      DigitsValueBound(s[..|s| - 1]);
    }
  }

  /** The decimal text of a natural number (`String(n)`). */
  function NatToString(n: nat): (r: string)
    ensures IsDigits(r)
    decreases n
  {
    if n < 10 then [DigitChar(n)] else NatToString(n / 10) + [DigitChar(n % 10)]
  }

  /** Reading the decimal text of `n` gives `n` back. */
  lemma {:induction false} NatToStringRoundTrip(n: nat)
    ensures DigitsValue(NatToString(n)) == n
    decreases n
  {
    if n >= 10 {
      var r := NatToString(n);
      assert r[..|r| - 1] == NatToString(n / 10);
      NatToStringRoundTrip(n / 10);
    }
  }

  /** `\d+(?:\.\d+)?` matched against the whole of `s`. */
  predicate IsDecimal(s: string) {
    match IndexOfChar(s, '.')
    case None => IsDigits(s)
    case Some(i) => IsDigits(s[..i]) && IsDigits(s[i + 1..])
  }

  /** A decimal starts and ends with a digit. */
  lemma DecimalEnds(s: string)
    requires IsDecimal(s)
    ensures |s| > 0 && IsDigit(s[0]) && IsDigit(s[|s| - 1])
  {
    match IndexOfChar(s, '.')
    case None =>
    case Some(i) =>
      assert s[0] == s[..i][0];
      assert s[|s| - 1] == s[i + 1..][|s| - i - 2];
  }

  /** The exact value of a decimal text. */
  function DecimalValue(s: string): (v: real)
    requires IsDecimal(s)
    ensures v >= 0.0
  {
    match IndexOfChar(s, '.')
    case None => DigitsValue(s) as real
    case Some(i) => DigitsValue(s[..i]) as real + FractionValue(s[i + 1..])
  }

  /** The value of the digits `f` written after a point: `0.f`. */
  function FractionValue(f: string): (v: real)
    requires AllDigits(f)
    ensures v >= 0.0
    decreases |f|
  {
    if |f| == 0 then 0.0 else (DigitValue(f[0]) as real + FractionValue(f[1..])) / 10.0
  }

  /** `parseFloat(s)` for an optional sign followed by `\d+(?:\.\d+)?`; `None`
      stands for `NaN`. */
  function ParseFloat(s: string): (r: Option<real>)
    ensures IsDecimal(s) ==> r == Some(DecimalValue(s))
  {
    if |s| > 0 && (s[0] == '-' || s[0] == '+') && IsDecimal(s[1..]) then
      Some(if s[0] == '-' then -DecimalValue(s[1..]) else DecimalValue(s[1..]))
    else if IsDecimal(s) then Some(DecimalValue(s))
    else None
  }

  /** The length of the run of digits at the start of `s`. */
  function LeadingDigits(s: string): (n: nat)
    ensures n <= |s| && AllDigits(s[..n]) && (n == |s| || !IsDigit(s[n]))
    decreases |s|
  {
    if |s| > 0 && IsDigit(s[0]) then
      var n := 1 + LeadingDigits(s[1..]);
      assert s[..n] == [s[0]] + s[1..][..n - 1];
      n
    else 0
  }

  /** `parseInt(s)`: an optional sign and the digits that start the text, whatever
      follows them; `None` stands for `NaN`. */
  function ParseInt(s: string): Option<int> {
    if |s| > 0 && (s[0] == '-' || s[0] == '+') then
      var n := LeadingDigits(s[1..]);
      if n == 0 then None
      else
        var v: int := DigitsValue(s[1..][..n]);
        Some(if s[0] == '-' then -v else v)
    else
      var n := LeadingDigits(s);
      if n == 0 then None else Some(DigitsValue(s[..n]))
  }

  // ---------------------------------------------------------------------------
  // Greedy runs, as a regular expression's `x+` takes them

  /** The longest prefix of `s` whose characters all satisfy `p`. */
  function TakeWhile(s: string, p: char -> bool): (r: string)
    ensures |r| <= |s| && r == s[..|r|]
    ensures forall i :: 0 <= i < |r| ==> p(r[i])
    ensures |r| == |s| || !p(s[|r|])
    decreases |s|
  {
    if |s| > 0 && p(s[0]) then [s[0]] + TakeWhile(s[1..], p) else ""
  }

  /** What follows the run that `TakeWhile` takes. */
  function DropWhile(s: string, p: char -> bool): (r: string)
    ensures s == TakeWhile(s, p) + r
  {
    s[|TakeWhile(s, p)|..]
  }

  /** A run followed by a character outside the class is exactly what
      `TakeWhile` takes. */
  lemma TakeWhileOfConcat(a: string, b: string, p: char -> bool)
    requires forall i :: 0 <= i < |a| ==> p(a[i])
    requires b == [] || !p(b[0])
    ensures TakeWhile(a + b, p) == a && DropWhile(a + b, p) == b
  {
    var r := TakeWhile(a + b, p);
    assert r == (a + b)[..|a|];
    assert (a + b)[|a|..] == b;
  }

  /** The longest prefix of `s` matching `\d+(?:\.\d+)?`, or "" when `s` does
      not start with a digit. */
  function TakeDecimal(s: string): (r: string)
    ensures |r| <= |s| && r == s[..|r|]
    ensures r != "" ==> IsDecimal(r)
  {
    var d := TakeWhile(s, IsDigit);
    var rest := s[|d|..];
    if d == "" then ""
    else if |rest| > 0 && rest[0] == '.' && TakeWhile(rest[1..], IsDigit) != "" then
      var f := TakeWhile(rest[1..], IsDigit);
      DigitRun(s);
      DigitRun(rest[1..]);
      DigitsPointDigits(s, d, rest, f);
      d + "." + f
    else
      DecimalOfParts(d, "");
      d
  }

  /** The digit run of `s`, a point and the digit run after it form a decimal
      prefix of `s`. */
  lemma DigitsPointDigits(s: string, d: string, rest: string, f: string)
    requires IsDigits(d) && |d| <= |s| && d == s[..|d|] && rest == s[|d|..]
    requires |rest| > 0 && rest[0] == '.'
    requires IsDigits(f) && |f| <= |rest| - 1 && f == rest[1..][..|f|]
    ensures |d + "." + f| <= |s| && d + "." + f == s[..|d + "." + f|] && IsDecimal(d + "." + f)
  {
    PointPrefix(rest, f);
    PrefixThenPrefix(s, d, "." + f);
    assert d + "." + f == d + ("." + f);
    DecimalOfParts(d, f);
  }

  /** A point followed by a prefix of what follows it is a prefix. */
  lemma PointPrefix(rest: string, f: string)
    requires |rest| > 0 && rest[0] == '.' && |f| <= |rest| - 1 && f == rest[1..][..|f|]
    ensures "." + f == rest[..|f| + 1]
  {
    assert forall k :: 0 <= k < |f| + 1 ==> ("." + f)[k] == rest[k];
  }

  /** The digit run at the start of `s` holds digits only. */
  lemma DigitRun(s: string)
    ensures AllDigits(TakeWhile(s, IsDigit))
  {
  }

  /** A prefix of `s`, then a prefix of what follows it, is a prefix of `s`. */
  lemma PrefixThenPrefix(s: string, d: string, f: string)
    requires |d| <= |s| && d == s[..|d|]
    requires |f| <= |s| - |d| && f == s[|d|..][..|f|]
    ensures |d + f| <= |s| && d + f == s[..|d + f|]
  {
    assert forall k :: 0 <= k < |d + f| ==> (d + f)[k] == s[k];
  }

  /** Digits, optionally followed by '.' and more digits, form a decimal. */
  lemma DecimalOfParts(d: string, f: string)
    requires IsDigits(d) && AllDigits(f)
    ensures f == "" ==> IsDecimal(d)
    ensures f != "" ==> IsDecimal(d + "." + f)
  {
    if f == "" {
      assert IndexOfChar(d, '.') == None by {
        assert forall k :: 0 <= k < |d| ==> d[k] != '.';
      }
    } else {
      var r := d + "." + f;
      assert IndexOfChar(r, '.') == Some(|d|) by {
        assert forall k :: 0 <= k < |d| ==> r[k] == d[k];
      }
      assert r[..|d|] == d && r[|d| + 1..] == f;
    }
  }

  /** What follows the decimal that `TakeDecimal` takes. */
  function DropDecimal(s: string): (r: string)
    ensures s == TakeDecimal(s) + r
  {
    var t := TakeDecimal(s);
    PrefixRest(s, t);
    s[|t|..]
  }

  /** A prefix of `s` and what follows it make up `s`. */
  lemma PrefixRest(s: string, t: string)
    requires |t| <= |s| && t == s[..|t|]
    ensures s == t + s[|t|..]
  {
  }

  /** A decimal followed by neither a digit nor a '.' is exactly what
      `TakeDecimal` takes. */
  lemma TakeDecimalOfConcat(a: string, b: string)
    requires IsDecimal(a)
    requires b == [] || (!IsDigit(b[0]) && b[0] != '.')
    ensures TakeDecimal(a + b) == a && DropDecimal(a + b) == b
  {
    TakeDecimalOfConcatPrefix(a, b);
    assert (a + b)[|a|..] == b;
  }

  lemma TakeDecimalOfConcatPrefix(a: string, b: string)
    requires IsDecimal(a)
    requires b == [] || (!IsDigit(b[0]) && b[0] != '.')
    ensures TakeDecimal(a + b) == a
  {
    match IndexOfChar(a, '.')
    case None =>
      TakeWhileOfConcat(a, b, IsDigit);
      assert (a + b)[|a|..] == b;
    case Some(i) =>
      var d := a[..i];
      var f := a[i + 1..];
      assert a == d + "." + f;
      assert a + b == d + ("." + f + b);
      TakeFractionOfConcat(d, f, b);
  }

  /** Digits, a point and digits, followed by neither a digit nor a point, are
      taken whole. */
  lemma TakeFractionOfConcat(d: string, f: string, b: string)
    requires IsDigits(d) && IsDigits(f)
    requires b == [] || (!IsDigit(b[0]) && b[0] != '.')
    ensures TakeDecimal(d + ("." + f + b)) == d + "." + f
  {
    var rest := "." + f + b;
    TakeWhileOfConcat(d, rest, IsDigit);
    assert (d + rest)[|d|..] == rest;
    assert rest[1..] == f + b;
    TakeWhileOfConcat(f, b, IsDigit);
    TakeDecimalPoint(d + rest, d, rest, f);
  }

  /** `TakeDecimal` when the digit run is followed by a point and digits. */
  lemma TakeDecimalPoint(s: string, d: string, rest: string, f: string)
    requires d != "" && TakeWhile(s, IsDigit) == d && s[|d|..] == rest
    requires |rest| > 0 && rest[0] == '.' && TakeWhile(rest[1..], IsDigit) == f && f != ""
    ensures TakeDecimal(s) == d + "." + f
  {
  }
}
