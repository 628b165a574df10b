/**
 * The Python string operations the shell relies on, with the laws that pin them down:
 * `str.isspace`, `str.strip`, `str.split` on one separator character, left-justified
 * `str.format` padding, `str(n)` and `int(s)` in base 10, and the lines a text-mode
 * file yields to `readline`.
 */
module PyText {
  import opened Python

  // ---------------------------------------------------------------- whitespace

  /** Python's `str.isspace()` for a single character. */
  predicate IsSpace(c: char)
  {
    var n := c as int;
    (9 <= n <= 13) || (28 <= n <= 32) || n == 0x85 || n == 0xA0 || n == 0x1680
    || (0x2000 <= n <= 0x200A) || n == 0x2028 || n == 0x2029 || n == 0x202F
    || n == 0x205F || n == 0x3000
  }

  predicate AllSpace(s: string)
  {
    forall i :: 0 <= i < |s| ==> IsSpace(s[i])
  }

  /** How many whitespace characters `strip` removes from the front of `s`. */
  function LeadingSpaces(s: string): (n: nat)
    ensures n <= |s|
    ensures forall i :: 0 <= i < n ==> IsSpace(s[i])
    ensures n < |s| ==> !IsSpace(s[n])
    decreases |s|
  {
    if s != [] && IsSpace(s[0]) then
      var n := 1 + LeadingSpaces(s[1..]);
      assert forall i :: 1 <= i < n ==> s[i] == s[1..][i - 1];
      n
    else 0
  }

  /** Where the trailing whitespace of `s` begins. */
  function TrailingStart(s: string): (e: nat)
    ensures e <= |s|
    ensures forall i :: e <= i < |s| ==> IsSpace(s[i])
    ensures e > 0 ==> !IsSpace(s[e - 1])
    decreases |s|
  {
    if s != [] && IsSpace(s[|s| - 1]) then
      var e := TrailingStart(s[..|s| - 1]);
      assert forall i :: e <= i < |s| - 1 ==> s[i] == s[..|s| - 1][i];
      e
    else |s|
  }

  /**
   * `s.strip()`: the slice of `s` between its leading and its trailing whitespace.
   * It is empty exactly when `s` is all whitespace, and otherwise starts and ends
   * with a character that is not whitespace.
   */
  function Strip(s: string): (r: string)
    ensures LeadingSpaces(s) + |r| <= |s|
    ensures r == s[LeadingSpaces(s)..LeadingSpaces(s) + |r|]
    ensures r == [] || (!IsSpace(r[0]) && !IsSpace(r[|r| - 1]))
    ensures r == [] <==> AllSpace(s)
  {
    var a := LeadingSpaces(s);
    if a == |s| then []
    else
      var e := TrailingStart(s);
      s[a..e]
  }

  /** What `strip` removes from either end of `s` is whitespace. */
  lemma StripRemovesSpace(s: string)
    ensures AllSpace(s[..LeadingSpaces(s)])
    ensures AllSpace(s[LeadingSpaces(s) + |Strip(s)|..])
  {
    var a := LeadingSpaces(s);
    var r := Strip(s);
    if a < |s| {
      assert a + |r| == TrailingStart(s);
    }
  }

  /** Stripping changes nothing when neither end of `s` is whitespace. */
  lemma StripUnpadded(s: string)
    requires s == [] || (!IsSpace(s[0]) && !IsSpace(s[|s| - 1]))
    ensures Strip(s) == s
  {
  }

  // ---------------------------------------------------------------- split and join

  /**
   * `s.split(sep)` with an explicit one-character separator: cut at every occurrence,
   * keeping empty pieces, so there is always at least one piece and no piece holds `sep`.
   * The first piece is the part of `s` before the first separator.
   */
  function Split(s: string, sep: char): (parts: seq<string>)
    ensures |parts| >= 1
    ensures forall i :: 0 <= i < |parts| ==> sep !in parts[i]
    ensures parts[0] <= s
    ensures |parts[0]| < |s| ==> s[|parts[0]|] == sep
    ensures |parts| == 1 <==> sep !in s
    ensures sep !in s ==> parts == [s]
    decreases |s|
  {
    if s == [] then [[]]
    else
      var rest := Split(s[1..], sep);
      if s[0] == sep then [[]] + rest
      else
        assert sep !in s ==> sep !in s[1..] && [s[0]] + s[1..] == s;
        [[s[0]] + rest[0]] + rest[1..]
  }

  /** `sep.join(parts)`. */
  function Join(parts: seq<string>, sep: char): string
    decreases |parts|
  {
    if parts == [] then []
    else if |parts| == 1 then parts[0]
    else parts[0] + [sep] + Join(parts[1..], sep)
  }

  /** Joining the pieces of a split with the same separator gives back the original string. */
  lemma {:induction false} JoinSplit(s: string, sep: char)
    ensures Join(Split(s, sep), sep) == s
    decreases |s|
  {
    if s != [] {
      JoinSplit(s[1..], sep);
      var rest := Split(s[1..], sep);
      if s[0] != sep && |rest| > 1 {
        assert ([[s[0]] + rest[0]] + rest[1..])[1..] == rest[1..];
        assert Join(rest, sep) == rest[0] + [sep] + Join(rest[1..], sep);
      }
    }
  }

  /** Splitting `x + [sep] + y`, where `x` holds no separator, puts `x` first. */
  lemma {:induction false} SplitAfterPiece(x: string, y: string, sep: char)
    requires sep !in x
    ensures Split(x + [sep] + y, sep) == [x] + Split(y, sep)
    decreases |x|
  {
    var s := x + [sep] + y;
    if x == [] {
      assert s[0] == sep && s[1..] == y;
    } else {
      assert s[0] == x[0] && s[0] != sep;
      assert s[1..] == x[1..] + [sep] + y;
      SplitAfterPiece(x[1..], y, sep);
      var rest := Split(s[1..], sep);
      assert rest[0] == x[1..] && rest[1..] == Split(y, sep);
      assert [x[0]] + x[1..] == x;
    }
  }

  /** Splitting a join of separator-free pieces gives back exactly those pieces. */
  lemma {:induction false} SplitJoin(parts: seq<string>, sep: char)
    requires |parts| >= 1
    requires forall i :: 0 <= i < |parts| ==> sep !in parts[i]
    ensures Split(Join(parts, sep), sep) == parts
    decreases |parts|
  {
    if |parts| == 1 {
      assert sep !in parts[0];
    } else {
      SplitJoin(parts[1..], sep);
      SplitAfterPiece(parts[0], Join(parts[1..], sep), sep);
      assert [parts[0]] + parts[1..] == parts;
    }
  }

  // ---------------------------------------------------------------- padding

  /** `n` blanks. */
  function Spaces(n: nat): (r: string)
    ensures |r| == n && forall i :: 0 <= i < n ==> r[i] == ' '
  {
    seq(n, _ => ' ')
  }

  /**
   * `('{:<' + str(width) + 's}').format(s)`: `s` left-justified in a field of `width`
   * columns; a longer `s` is kept whole, never truncated.
   */
  function LJust(s: string, width: nat): (r: string)
    ensures |r| == if |s| < width then width else |s|
    ensures r[..|s|] == s
    ensures forall i :: |s| <= i < |r| ==> r[i] == ' '
  {
    if |s| < width then s + Spaces(width - |s|) else s
  }

  /** A padded field is all whitespace exactly when the field is. */
  lemma LJustBlank(s: string, width: nat)
    ensures AllSpace(LJust(s, width)) <==> AllSpace(s)
  {
    var r := LJust(s, width);
    if AllSpace(r) {
      forall i | 0 <= i < |s| ensures IsSpace(s[i]) {
        assert r[..|s|][i] == s[i];
      }
    }
  }

  lemma AllSpaceConcat(a: string, b: string)
    ensures AllSpace(a + b) <==> AllSpace(a) && AllSpace(b)
  {
    if AllSpace(a + b) {
      forall i | 0 <= i < |a| ensures IsSpace(a[i]) {
        assert (a + b)[i] == a[i];
      }
      forall i | 0 <= i < |b| ensures IsSpace(b[i]) {
        assert (a + b)[|a| + i] == b[i];
      }
    }
    if AllSpace(a) && AllSpace(b) {
      forall i | 0 <= i < |a + b| ensures IsSpace((a + b)[i]) {
        if i >= |a| {
          assert (a + b)[i] == b[i - |a|];
        }
      }
    }
  }

  // ---------------------------------------------------------------- integers

  predicate IsDigit(c: char)
  {
    '0' <= c <= '9'
  }

  function DigitChar(d: nat): (c: char)
    requires d < 10
    ensures IsDigit(c) && c as int - '0' as int == d
  {
    ('0' as int + d) as char
  }

  /** `str(n)` for a non-negative integer: its decimal digits, without leading zeros. */
  function ShowNat(n: nat): (r: string)
    ensures |r| >= 1
    ensures forall i :: 0 <= i < |r| ==> IsDigit(r[i])
    ensures r[0] == '0' ==> r == "0"
    decreases n
  {
    if n < 10 then [DigitChar(n)] else ShowNat(n / 10) + [DigitChar(n % 10)]
  }

  /**
   * The body of a base-10 literal as `int()` accepts it: digits, with single
   * underscores allowed between two digits.
   */
  predicate IsDigitText(t: string)
  {
    && |t| >= 1
    && IsDigit(t[0])
    && IsDigit(t[|t| - 1])
    && (forall i :: 0 <= i < |t| ==> IsDigit(t[i]) || t[i] == '_')
    && (forall i, j :: 0 <= i < |t| && 0 <= j < |t| && j == i + 1 && t[i] == '_' ==> IsDigit(t[j]))
  }

  /** The number the digits of `t` denote, underscores skipped. */
  function DigitsValue(t: string): nat
    decreases |t|
  {
    if t == [] then 0
    else if IsDigit(t[|t| - 1]) then 10 * DigitsValue(t[..|t| - 1]) + (t[|t| - 1] as int - '0' as int)
    else DigitsValue(t[..|t| - 1])
  }

  /** How many characters of `t` are digits; the underscores between them are not counted. */
  function DigitCount(t: string): (n: nat)
    ensures n <= |t|
    decreases |t|
  {
    if t == [] then 0 else DigitCount(t[..|t| - 1]) + (if IsDigit(t[|t| - 1]) then 1 else 0)
  }

  /** The most digits `int()` converts from a string (CPython 3.11's default `int_max_str_digits`). */
  const MaxStrDigits: nat := 4300

  /** A digit text `int()` converts: well formed, and within the digit limit. */
  predicate Convertible(t: string)
  {
    IsDigitText(t) && DigitCount(t) <= MaxStrDigits
  }

  /**
   * The whitespace `int()` skips around a literal: the `str.isspace()` characters
   * except the four information separators U+001C to U+001F, which an ASCII string
   * keeps and the integer parser does not skip.
   */
  predicate IsIntSpace(c: char)
  {
    IsSpace(c) && !(28 <= c as int <= 31)
  }

  /** How many characters `int()` skips at the front of `s`. */
  function IntLeading(s: string): (n: nat)
    ensures n <= |s|
    ensures forall i :: 0 <= i < n ==> IsIntSpace(s[i])
    ensures n < |s| ==> !IsIntSpace(s[n])
    decreases |s|
  {
    if s != [] && IsIntSpace(s[0]) then
      var n := 1 + IntLeading(s[1..]);
      assert forall i :: 1 <= i < n ==> s[i] == s[1..][i - 1];
      n
    else 0
  }

  /** Where the characters `int()` skips at the end of `s` begin. */
  function IntTrailingStart(s: string): (e: nat)
    ensures e <= |s|
    ensures forall i :: e <= i < |s| ==> IsIntSpace(s[i])
    ensures e > 0 ==> !IsIntSpace(s[e - 1])
    decreases |s|
  {
    if s != [] && IsIntSpace(s[|s| - 1]) then
      var e := IntTrailingStart(s[..|s| - 1]);
      assert forall i :: e <= i < |s| - 1 ==> s[i] == s[..|s| - 1][i];
      e
    else |s|
  }

  predicate AllIntSpace(s: string)
  {
    forall i :: 0 <= i < |s| ==> IsIntSpace(s[i])
  }

  /**
   * The literal `int()` reads from `s`: the slice between the whitespace it skips at
   * either end. It is empty exactly when `s` is all such whitespace, and otherwise
   * starts and ends with a character `int()` does not skip.
   */
  function IntTrim(s: string): (r: string)
    ensures IntLeading(s) + |r| <= |s|
    ensures r == s[IntLeading(s)..IntLeading(s) + |r|]
    ensures r == [] || (!IsIntSpace(r[0]) && !IsIntSpace(r[|r| - 1]))
    ensures r == [] <==> AllIntSpace(s)
  {
    var a := IntLeading(s);
    if a == |s| then []
    else
      var e := IntTrailingStart(s);
      s[a..e]
  }

  /** What `int()` skips at either end of `s` is whitespace it skips. */
  lemma IntTrimRemovesSpace(s: string)
    ensures AllIntSpace(s[..IntLeading(s)])
    ensures AllIntSpace(s[IntLeading(s) + |IntTrim(s)|..])
  {
    var a := IntLeading(s);
    var r := IntTrim(s);
    if a < |s| {
      assert a + |r| == IntTrailingStart(s);
    }
  }

  /** Trimming changes nothing when neither end of `s` is skipped whitespace. */
  lemma IntTrimUnpadded(s: string)
    requires s == [] || (!IsIntSpace(s[0]) && !IsIntSpace(s[|s| - 1]))
    ensures IntTrim(s) == s
  {
  }

  /**
   * Whitespace that `int()` skips, around a text that neither starts nor ends with
   * such whitespace, does not change what is parsed: `int(" 7 ") == int("7")`.
   */
  lemma IntTrimPadded(w1: string, t: string, w2: string)
    requires AllIntSpace(w1) && AllIntSpace(w2)
    requires t == [] || (!IsIntSpace(t[0]) && !IsIntSpace(t[|t| - 1]))
    ensures IntTrim(w1 + t + w2) == t
    ensures ParseInt(w1 + t + w2) == ParseInt(t)
  {
    var s := w1 + t + w2;
    if t == [] {
      assert AllIntSpace(s) by {
        forall i | 0 <= i < |s| ensures IsIntSpace(s[i]) {
          if i < |w1| { assert s[i] == w1[i]; } else { assert s[i] == w2[i - |w1|]; }
        }
      }
    } else {
      var a := IntLeading(s);
      assert s[|w1|] == t[0];
      assert a == |w1|;
      var e := IntTrailingStart(s);
      var m := |w1| + |t|;
      assert s[m - 1] == t[|t| - 1];
      assert e == m;
      assert s[a..e] == t;
    }
    IntTrimUnpadded(t);
  }

  /** A literal once its surrounding whitespace is gone: one optional sign, then a convertible digit text. */
  function ParseLiteral(t: string): Option<int>
  {
    if |t| >= 1 && (t[0] == '+' || t[0] == '-') then
      if Convertible(t[1..]) then
        var v: int := DigitsValue(t[1..]);
        Some(if t[0] == '-' then -v else v)
      else None
    else if Convertible(t) then Some(DigitsValue(t))
    else None
  }

  /**
   * `int(s)` in base 10: surrounding whitespace is ignored, one optional sign, then
   * a digit text of at most `MaxStrDigits` digits; anything else is `None` (Python's
   * ValueError).
   */
  function ParseInt(s: string): Option<int>
  {
    ParseLiteral(IntTrim(s))
  }

  lemma {:induction false} DigitsValueShowNat(n: nat)
    ensures DigitsValue(ShowNat(n)) == n
    decreases n
  {
    if n >= 10 {
      DigitsValueShowNat(n / 10);
      var s := ShowNat(n);
      assert s[..|s| - 1] == ShowNat(n / 10);
    }
  }

  /** A digit text, on its own, is read as the number its digits denote, unless it has too many digits. */
  lemma ParseDigitText(t: string)
    requires IsDigitText(t)
    ensures ParseInt(t) == if DigitCount(t) <= MaxStrDigits then Some(DigitsValue(t)) else None
  {
    IntTrimUnpadded(t);
    assert t[0] != '+' && t[0] != '-';
    assert ParseLiteral(t) == if Convertible(t) then Some(DigitsValue(t)) else None;
  }

  /** The value a sign and a digit text denote together. */
  function SignedValue(sign: char, t: string): int
  {
    if sign == '-' then -(DigitsValue(t) as int) else DigitsValue(t)
  }

  /** A sign followed by a digit text is a literal with that sign, within the digit limit. */
  lemma SignedLiteral(sign: char, t: string)
    requires sign == '+' || sign == '-'
    requires IsDigitText(t)
    ensures ParseLiteral([sign] + t) == if DigitCount(t) <= MaxStrDigits then Some(SignedValue(sign, t)) else None
  {
    var s := [sign] + t;
    assert s[0] == sign && s[1..] == t;
  }

  /** A sign followed by a digit text has no surrounding whitespace. */
  lemma SignedUnpadded(sign: char, t: string)
    requires sign == '+' || sign == '-'
    requires IsDigitText(t)
    ensures IntTrim([sign] + t) == [sign] + t
  {
    var s := [sign] + t;
    assert s[|s| - 1] == t[|t| - 1];
    IntTrimUnpadded(s);
  }

  /** A digit text after one sign is read as the signed number, unless it has too many digits. */
  lemma ParseSignedDigitText(sign: char, t: string)
    requires sign == '+' || sign == '-'
    requires IsDigitText(t)
    ensures ParseInt([sign] + t) == if DigitCount(t) <= MaxStrDigits then Some(SignedValue(sign, t)) else None
  {
    SignedUnpadded(sign, t);
    SignedLiteral(sign, t);
  }

  /** Every character of `str(n)` is a digit, so its digit count is its length. */
  lemma {:induction false} DigitCountShowNat(n: nat)
    ensures DigitCount(ShowNat(n)) == |ShowNat(n)|
    decreases n
  {
    if n >= 10 {
      DigitCountShowNat(n / 10);
      var s := ShowNat(n);
      assert s[..|s| - 1] == ShowNat(n / 10);
    }
  }

  /** `int(str(n)) == n` for every `n` whose decimal form has at most `MaxStrDigits` digits. */
  lemma ParseShowNat(n: nat)
    requires |ShowNat(n)| <= MaxStrDigits
    ensures ParseInt(ShowNat(n)) == Some(n)
  {
    DigitsValueShowNat(n);
    DigitCountShowNat(n);
    ParseDigitText(ShowNat(n));
  }

  /**
   * An information separator is `str.isspace()` whitespace, yet `int()` does not skip
   * it: `int('\x1c5')` is a ValueError.
   */
  lemma SeparatorNotSkipped(t: string)
    ensures IsSpace('\U{1C}') && !IsIntSpace('\U{1C}')
    ensures ParseInt(['\U{1C}'] + t) == None
  {
    var s := ['\U{1C}'] + t;
    assert IntLeading(s) == 0;
    var r := IntTrim(s);
    assert r[0] == '\U{1C}';
  }

  // ---------------------------------------------------------------- text files

  /**
   * The newline translation of a file opened in text mode: `"\r\n"` and a lone `'\r'`
   * both become `'\n'`.
   */
  function UniversalNewlines(s: string): (r: string)
    ensures '\r' !in r
    ensures '\r' !in s ==> r == s
    decreases |s|
  {
    if s == [] then []
    else if s[0] == '\r' then
      if |s| >= 2 && s[1] == '\n' then "\n" + UniversalNewlines(s[2..])
      else "\n" + UniversalNewlines(s[1..])
    else
      var r := UniversalNewlines(s[1..]);
      assert '\r' !in s ==> s == [s[0]] + s[1..];
      [s[0]] + r
  }

  /** Text with no carriage return passes through the translation unchanged, whatever follows it. */
  lemma {:induction false} UniversalNewlinesPrefix(a: string, b: string)
    requires '\r' !in a
    ensures UniversalNewlines(a + b) == a + UniversalNewlines(b)
    decreases |a|
  {
    if a != [] {
      var s := a + b;
      assert s[0] == a[0] && s[1..] == a[1..] + b;
      assert a[0] in a;
      assert UniversalNewlines(s) == [a[0]] + UniversalNewlines(a[1..] + b);
      UniversalNewlinesPrefix(a[1..], b);
      assert a + UniversalNewlines(b) == [a[0]] + (a[1..] + UniversalNewlines(b));
    } else {
      assert a + b == b;
    }
  }

  /** A `"\r\n"` pair becomes one `'\n'`, and the translation resumes after it. */
  lemma UniversalNewlinesPair(a: string, b: string)
    requires '\r' !in a
    ensures UniversalNewlines(a + "\r\n" + b) == a + "\n" + UniversalNewlines(b)
  {
    var t := "\r\n" + b;
    assert t[0] == '\r' && t[1] == '\n' && t[2..] == b;
    assert a + "\r\n" + b == a + t;
    UniversalNewlinesPrefix(a, t);
  }

  /** A `'\r'` not followed by `'\n'` becomes one `'\n'`, and the translation resumes after it. */
  lemma UniversalNewlinesLoneReturn(a: string, b: string)
    requires '\r' !in a
    requires b == [] || b[0] != '\n'
    ensures UniversalNewlines(a + "\r" + b) == a + "\n" + UniversalNewlines(b)
  {
    var t := "\r" + b;
    assert t[0] == '\r' && t[1..] == b;
    assert a + "\r" + b == a + t;
    UniversalNewlinesPrefix(a, t);
  }

  /** Where the first line of `t` ends: after its first newline, or at the end of `t`. */
  function LineLength(t: string): (n: nat)
    requires t != []
    ensures 1 <= n <= |t|
    ensures '\n' !in t[..n - 1]
    ensures n < |t| ==> t[n - 1] == '\n'
    decreases |t|
  {
    if t[0] == '\n' || |t| == 1 then 1
    else
      var n := 1 + LineLength(t[1..]);
      assert t[..n - 1] == [t[0]] + t[1..][..n - 2];
      n
  }

  /**
   * The successive results of `readline()` up to the first empty one: each line is
   * non-empty, holds a newline only as its last character, and every line but the
   * last ends with one.
   */
  function ReadLines(t: string): (lines: seq<string>)
    ensures forall i :: 0 <= i < |lines| ==> lines[i] != [] && '\n' !in lines[i][..|lines[i]| - 1]
    ensures forall i :: 0 <= i < |lines| - 1 ==> lines[i][|lines[i]| - 1] == '\n'
    decreases |t|
  {
    if t == [] then []
    else
      var n := LineLength(t);
      var rest := ReadLines(t[n..]);
      assert n < |t| ==> rest != [];
      [t[..n]] + rest
  }

  function Concat(lines: seq<string>): string
  {
    if lines == [] then [] else lines[0] + Concat(lines[1..])
  }

  /** A text that is not empty reads as its first line, then the lines of the rest. */
  lemma ReadLinesStep(t: string)
    requires t != []
    ensures ReadLines(t) == [t[..LineLength(t)]] + ReadLines(t[LineLength(t)..])
  {
  }

  lemma ConcatCons(line: string, lines: seq<string>)
    ensures Concat([line] + lines) == line + Concat(lines)
  {
    assert ([line] + lines)[1..] == lines;
  }

  /** Reading a text line by line loses and reorders nothing. */
  lemma {:induction false} ConcatReadLines(t: string)
    ensures Concat(ReadLines(t)) == t
    decreases |t|
  {
    if t != [] {
      var n := LineLength(t);
      ReadLinesStep(t);
      ConcatReadLines(t[n..]);
      ConcatCons(t[..n], ReadLines(t[n..]));
      assert t[..n] + t[n..] == t;
    }
  }
}
