/** The JavaScript string and number built-ins that the modelled code calls:
    `split` on a one-character separator, template-literal joining, `trim`,
    `startsWith`, `toLowerCase`, `indexOf`, `replace` with a one-character
    pattern, `Number.parseInt(_, 10)` and the decimal printing of integers. */
module JsText {
  import opened Wrappers

  /** ECMAScript WhiteSpace and LineTerminator code points: what `trim`
      removes and what `parseInt` skips before the number. */
  predicate IsWhitespace(c: char) {
    || c == '\t' || c == '\n' || c == '\U{000B}' || c == '\U{000C}' || c == '\r' || c == ' '
    || c == '\U{00A0}' || c == '\U{1680}' || ('\U{2000}' <= c <= '\U{200A}')
    || c == '\U{2028}' || c == '\U{2029}' || c == '\U{202F}' || c == '\U{205F}'
    || c == '\U{3000}' || c == '\U{FEFF}'
  }

  predicate IsDigit(c: char) {
    '0' <= c <= '9'
  }

  predicate AllDigits(s: string) {
    forall i :: 0 <= i < |s| ==> IsDigit(s[i])
  }

  /** `s.startsWith(prefix)` */
  predicate StartsWith(s: string, prefix: string) {
    |prefix| <= |s| && s[..|prefix|] == prefix
  }

  /** Drops the leading white space (`trimStart`). */
  function TrimStart(s: string): (r: string)
    ensures |r| <= |s| && r == s[|s| - |r|..]
    ensures r == [] || !IsWhitespace(r[0])
  {
    if s != [] && IsWhitespace(s[0]) then TrimStart(s[1..]) else s
  }

  /** Drops the trailing white space (`trimEnd`). */
  function TrimEnd(s: string): (r: string)
    ensures |r| <= |s| && r == s[..|r|]
    ensures r == [] || !IsWhitespace(r[|r| - 1])
  {
    if s != [] && IsWhitespace(s[|s| - 1]) then TrimEnd(s[..|s| - 1]) else s
  }

  /** Only white space is dropped at the front. */
  lemma {:induction false} TrimStartDropsWhitespace(s: string)
    ensures forall i :: 0 <= i < |s| - |TrimStart(s)| ==> IsWhitespace(s[i])
  {
    if s != [] && IsWhitespace(s[0]) {
      TrimStartDropsWhitespace(s[1..]);
      assert forall i :: 1 <= i < |s| ==> s[i] == s[1..][i - 1];
    }
  }

  /** Only white space is dropped at the end. */
  lemma {:induction false} TrimEndDropsWhitespace(s: string)
    ensures forall i :: |TrimEnd(s)| <= i < |s| ==> IsWhitespace(s[i])
  {
    if s != [] && IsWhitespace(s[|s| - 1]) {
      TrimEndDropsWhitespace(s[..|s| - 1]);
    }
  }

  /** `s.trim()`: the longest infix of `s` that neither starts nor ends with white space. */
  function Trim(s: string): (r: string)
    ensures |r| <= |s|
    ensures r == [] || (!IsWhitespace(r[0]) && !IsWhitespace(r[|r| - 1]))
  {
    TrimEnd(TrimStart(s))
  }

  /** A string that neither starts nor ends with white space is its own trim. */
  lemma TrimOfTrimmed(s: string)
    requires s == [] || (!IsWhitespace(s[0]) && !IsWhitespace(s[|s| - 1]))
    ensures Trim(s) == s
  {
  }

  /** The number of occurrences of `c` in `s`. */
  function Count(s: string, c: char): nat {
    if s == [] then 0 else (if s[0] == c then 1 else 0) + Count(s[1..], c)
  }

  /** `s.indexOf(c)`: the first position of `c`, or -1. */
  function IndexOf(s: string, c: char): (i: int)
    ensures -1 <= i < |s|
    ensures i == -1 <==> c !in s
    ensures i >= 0 ==> s[i] == c && c !in s[..i]
  {
    if s == [] then -1
    else if s[0] == c then 0
    else
      var j := IndexOf(s[1..], c);
      assert s[1..] == s[1..][..|s| - 1];
      if j == -1 then -1
      else
        assert s[..j + 1] == [s[0]] + s[1..][..j];
        j + 1
  }

  /** `s.split(sep)` for a one-character separator: the maximal
      separator-free pieces, including empty ones at either end. */
  function Split(s: string, sep: char): (parts: seq<string>)
    ensures |parts| >= 1
    ensures forall i :: 0 <= i < |parts| ==> sep !in parts[i]
  {
    if s == [] then [[]]
    else
      var rest := Split(s[1..], sep);
      if s[0] == sep then [[]] + rest
      else [[s[0]] + rest[0]] + rest[1..]
  }

  /** The pieces glued back together with `sep` between them, as a template
      literal `${a}:${b}:...` does. */
  function Join(parts: seq<string>, sep: char): string
    requires |parts| >= 1
  {
    if |parts| == 1 then parts[0] else parts[0] + [sep] + Join(parts[1..], sep)
  }

  lemma {:induction false} SplitWithoutSeparator(s: string, sep: char)
    requires sep !in s
    ensures Split(s, sep) == [s]
  {
    if s != [] {
      SplitWithoutSeparator(s[1..], sep);
      assert [s[0]] + s[1..] == s;
    }
  }

  lemma {:induction false} SplitAtSeparator(a: string, b: string, sep: char)
    requires sep !in a
    ensures Split(a + [sep] + b, sep) == [a] + Split(b, sep)
  {
    var s := a + [sep] + b;
    if a == [] {
      assert s[0] == sep && s[1..] == b;
    } else {
      assert s[0] == a[0] && s[1..] == a[1..] + [sep] + b;
      SplitAtSeparator(a[1..], b, sep);
      assert [a[0]] + a[1..] == a;
    }
  }

  /** Splitting undoes joining when no piece contains the separator. */
  lemma {:induction false} SplitJoin(parts: seq<string>, sep: char)
    requires |parts| >= 1
    requires forall i :: 0 <= i < |parts| ==> sep !in parts[i]
    ensures Split(Join(parts, sep), sep) == parts
  {
    if |parts| == 1 {
      SplitWithoutSeparator(parts[0], sep);
    } else {
      SplitJoin(parts[1..], sep);
      SplitAtSeparator(parts[0], Join(parts[1..], sep), sep);
    }
  }

  /** `split` yields one piece more than there are separators. */
  lemma {:induction false} SplitCount(s: string, sep: char)
    ensures |Split(s, sep)| == Count(s, sep) + 1
  {
    if s != [] {
      SplitCount(s[1..], sep);
    }
  }

  /** The first piece of a split is the text before the first separator. */
  lemma {:induction false} SplitFirstPiece(s: string, sep: char)
    ensures var p := Split(s, sep)[0]; p <= s && (|p| == |s| || s[|p|] == sep)
  {
    if s != [] && s[0] != sep {
      SplitFirstPiece(s[1..], sep);
    }
  }

  function DigitChar(d: int): char
    requires 0 <= d < 10
  {
    ('0' as int + d) as char
  }

  function DigitValue(c: char): int
    requires IsDigit(c)
  {
    c as int - '0' as int
  }

  /** The decimal digits of `n`, most significant first, without leading zeros. */
  function NatToString(n: nat): (s: string)
    ensures s != [] && AllDigits(s)
    ensures s[0] == '0' ==> n == 0
    decreases n
  {
    if n < 10 then [DigitChar(n)] else NatToString(n / 10) + [DigitChar(n % 10)]
  }

  /** `String(n)`, or `${n}` in a template literal, for an integer `n`. */
  function IntToString(n: int): (s: string)
    ensures s != []
    ensures n >= 0 ==> AllDigits(s)
    ensures n < 0 ==> s[0] == '-' && AllDigits(s[1..])
  {
    if n < 0 then "-" + NatToString(-n) else NatToString(n)
  }

  /** The value of a string of decimal digits, read left to right. */
  function DigitsValue(s: string): nat
    requires AllDigits(s)
  {
    if s == [] then 0 else DigitsValue(s[..|s| - 1]) * 10 + DigitValue(s[|s| - 1])
  }

  /** The longest prefix of `s` made of decimal digits. */
  function DigitPrefix(s: string): (d: string)
    ensures d <= s && AllDigits(d)
    ensures |d| == |s| || !IsDigit(s[|d|])
  {
    if s != [] && IsDigit(s[0]) then [s[0]] + DigitPrefix(s[1..]) else []
  }

  /** `Number.parseInt(s, 10)`, where `None` stands for `NaN`: leading white
      space is skipped, one `+` or `-` is allowed, and the longest run of
      digits after it is read; whatever follows is ignored. */
  function ParseInt(s: string): Option<int> {
    ParseTrimmed(TrimStart(s))
  }

  /** `parseInt` after the leading white space is gone: the sign, then the digits. */
  function ParseTrimmed(t: string): Option<int> {
    var negative := t != [] && t[0] == '-';
    var body := if t != [] && (t[0] == '-' || t[0] == '+') then t[1..] else t;
    var digits := DigitPrefix(body);
    if digits == [] then None
    else if negative then Some(-(DigitsValue(digits) as int))
    else Some(DigitsValue(digits))
  }

  lemma {:induction false} NatToStringValue(n: nat)
    ensures DigitsValue(NatToString(n)) == n
    decreases n
  {
    if n >= 10 {
      NatToStringValue(n / 10);
      var s := NatToString(n / 10) + [DigitChar(n % 10)];
      assert s[..|s| - 1] == NatToString(n / 10);
    }
  }

  lemma {:induction false} DigitPrefixOfDigits(d: string, rest: string)
    requires AllDigits(d)
    requires rest == [] || !IsDigit(rest[0])
    ensures DigitPrefix(d + rest) == d
  {
    if d != [] {
      assert (d + rest)[1..] == d[1..] + rest;
      DigitPrefixOfDigits(d[1..], rest);
    }
  }

  /** `parseInt` reads back a printed integer, whatever non-digit text follows it. */
  lemma ParseIntOfPrinted(n: int, rest: string)
    requires rest == [] || !IsDigit(rest[0])
    ensures ParseInt(IntToString(n) + rest) == Some(n)
  {
    if n < 0 {
      ParseIntOfPrintedNegative(-n, rest);
    } else {
      ParseIntOfPrintedNatural(n, rest);
    }
  }

  lemma ParseIntOfPrintedNegative(m: nat, rest: string)
    requires m > 0
    requires rest == [] || !IsDigit(rest[0])
    ensures ParseInt(IntToString(-(m as int)) + rest) == Some(-(m as int))
  {
    var digits := NatToString(m);
    NatToStringValue(m);
    assert IntToString(-(m as int)) + rest == ['-'] + (digits + rest);
    ParseIntOfSigned(digits, rest);
  }

  lemma ParseIntOfPrintedNatural(n: nat, rest: string)
    requires rest == [] || !IsDigit(rest[0])
    ensures ParseInt(IntToString(n) + rest) == Some(n)
  {
    var digits := NatToString(n);
    NatToStringValue(n);
    assert IntToString(n) == digits;
    ParseIntOfUnsigned(digits, rest);
  }

  lemma ParseIntOfSigned(digits: string, rest: string)
    requires digits != [] && AllDigits(digits)
    requires rest == [] || !IsDigit(rest[0])
    ensures ParseInt(['-'] + (digits + rest)) == Some(-(DigitsValue(digits) as int))
  {
    DigitPrefixOfDigits(digits, rest);
    ParseIntAfterMinus(digits + rest, digits);
  }

  lemma ParseIntOfUnsigned(digits: string, rest: string)
    requires digits != [] && AllDigits(digits)
    requires rest == [] || !IsDigit(rest[0])
    ensures ParseInt(digits + rest) == Some(DigitsValue(digits) as int)
  {
    var body := digits + rest;
    DigitPrefixOfDigits(digits, rest);
    assert body[0] == digits[0];
    ParseIntOfDigitFirst(body);
  }

  /** After a minus sign, the digits that lead `body` are read as a negative number. */
  lemma ParseIntAfterMinus(body: string, digits: string)
    requires digits != [] && DigitPrefix(body) == digits
    ensures ParseInt(['-'] + body) == Some(-(DigitsValue(digits) as int))
  {
    TrimStartOfNonSpace(['-'] + body);
    ParseTrimmedMinus(body, digits);
  }

  lemma ParseTrimmedMinus(body: string, digits: string)
    requires digits != [] && DigitPrefix(body) == digits
    ensures ParseTrimmed(['-'] + body) == Some(-(DigitsValue(digits) as int))
  {
    var t := ['-'] + body;
    assert t[1..] == body;
  }

  lemma TrimStartOfNonSpace(s: string)
    requires s != [] && (s[0] == '-' || IsDigit(s[0]))
    ensures TrimStart(s) == s
  {
    assert !IsWhitespace(s[0]);
  }

  lemma ParseIntOfDigitFirst(body: string)
    requires body != [] && IsDigit(body[0])
    ensures ParseInt(body) == Some(DigitsValue(DigitPrefix(body)))
  {
    TrimStartOfNonSpace(body);
    assert body[0] != '-' && body[0] != '+';
    assert DigitPrefix(body) != [];
  }

  /** `parseInt(String(n), 10) == n` for every integer. */
  lemma ParseIntRoundTrip(n: int)
    ensures ParseInt(IntToString(n)) == Some(n)
  {
    ParseIntOfPrinted(n, []);
    assert IntToString(n) + [] == IntToString(n);
  }

  /** `parseInt` yields `NaN` exactly when no digit follows the white space and the sign. */
  lemma ParseIntNaN(s: string)
    ensures ParseInt(s).None? <==>
      var t := TrimStart(s);
      var k := if t != [] && (t[0] == '-' || t[0] == '+') then 1 else 0;
      |t| <= k || !IsDigit(t[k])
  {
  }

  function LowerChar(c: char): char {
    if 'A' <= c <= 'Z' then (c as int + 32) as char else c
  }

  /** `s.toLowerCase()` on ASCII letters. */
  function ToLower(s: string): (r: string)
    ensures |r| == |s|
    ensures forall i :: 0 <= i < |s| ==> r[i] == LowerChar(s[i])
  {
    if s == [] then [] else [LowerChar(s[0])] + ToLower(s[1..])
  }

  /** Lower-casing is decided character by character. */
  lemma ToLowerIs(s: string, t: string)
    requires |s| == |t| && forall i :: 0 <= i < |s| ==> LowerChar(s[i]) == t[i]
    ensures ToLower(s) == t
  {
  }

  /** `s.replace(from, to)` with one-character strings: only the first
      occurrence of `from` is replaced. */
  function ReplaceFirst(s: string, from: char, to: char): (r: string)
    ensures |r| == |s|
    ensures var i := IndexOf(s, from);
      if i < 0 then r == s else r == s[..i] + [to] + s[i + 1..]
  {
    if s == [] then []
    else if s[0] == from then [to] + s[1..]
    else [s[0]] + ReplaceFirst(s[1..], from, to)
  }

  /** Replacing the first occurrence removes exactly one occurrence, when
      there is one: every later occurrence is left in place. */
  lemma {:induction false} ReplaceFirstCount(s: string, from: char, to: char)
    requires from != to
    ensures Count(ReplaceFirst(s, from, to), from) == if Count(s, from) == 0 then 0 else Count(s, from) - 1
  {
    if s != [] && s[0] != from {
      ReplaceFirstCount(s[1..], from, to);
      assert ReplaceFirst(s, from, to)[1..] == ReplaceFirst(s[1..], from, to);
    } else if s != [] {
      assert ReplaceFirst(s, from, to)[1..] == s[1..];
    }
  }

  /** The first occurrence is the one replaced: text before it that does
      not contain the character is kept, and so is everything after it. */
  lemma ReplaceFirstAfter(a: string, b: string, from: char, to: char)
    requires from !in a
    ensures ReplaceFirst(a + [from] + b, from, to) == a + [to] + b
  {
    var s := a + [from] + b;
    var i := IndexOf(s, from);
    assert s[..|a|] == a && s[|a|] == from && s[|a| + 1..] == b;
    assert i == |a| by {
      assert i <= |a|;
      assert s[..i] == a[..i];
    }
  }


  /** Appending a space to a trimmed string and trimming again gives the
      string back. */
  lemma TrimAppendedSpace(t: string)
    requires t == [] || (!IsWhitespace(t[0]) && !IsWhitespace(t[|t| - 1]))
    ensures Trim(t + " ") == t
  {
    var s := t + " ";
    if t == [] {
      assert TrimStart(s[1..]) == [];
    } else {
      assert s[0] == t[0];
      assert TrimStart(s) == s;
      assert s[..|s| - 1] == t;
      assert TrimEnd(s) == TrimEnd(t);
    }
  }
}
