/**
 * The JavaScript string operations the application relies on:
 * `String.prototype.trim`, `String.prototype.split` on a one-character
 * separator, and the global `parseInt` with no radix argument.
 * Strings are sequences of code points; `String.prototype.length`, which
 * counts UTF-16 code units, is `Utf16Length`.
 */
module JsText {
  import opened Wrappers

  /** The code points ECMAScript counts as WhiteSpace or LineTerminator: what `trim` and `parseInt` skip. */
  predicate IsWhitespace(c: char) {
    var n := c as int;
    n == 0x09 || n == 0x0A || n == 0x0B || n == 0x0C || n == 0x0D || n == 0x20 || n == 0xA0
    || n == 0x1680 || (0x2000 <= n <= 0x200A) || n == 0x2028 || n == 0x2029
    || n == 0x202F || n == 0x205F || n == 0x3000 || n == 0xFEFF
  }

  /** Every character is whitespace (the empty string included): `s.trim() === ''`. */
  predicate IsBlank(s: string) {
    forall k :: 0 <= k < |s| ==> IsWhitespace(s[k])
  }

  /** A non-empty string that starts and ends with a non-whitespace character. */
  predicate Unpadded(s: string) {
    s != [] && !IsWhitespace(s[0]) && !IsWhitespace(s[|s| - 1])
  }

  /** Removes the longest whitespace prefix. */
  function TrimStart(s: string): (r: string)
    ensures |r| <= |s| && r == s[|s| - |r|..]
    ensures r != [] ==> !IsWhitespace(r[0])
    ensures forall k :: 0 <= k < |s| - |r| ==> IsWhitespace(s[k])
  {
    if s != [] && IsWhitespace(s[0]) then
      var r := TrimStart(s[1..]);
      assert forall k :: 1 <= k < |s| - |r| ==> s[k] == s[1..][k - 1];
      r
    else s
  }

  /** Removes the longest whitespace suffix. */
  function TrimEnd(s: string): (r: string)
    ensures |r| <= |s| && r == s[..|r|]
    ensures r != [] ==> !IsWhitespace(r[|r| - 1])
    ensures forall k :: |r| <= k < |s| ==> IsWhitespace(s[k])
  {
    if s != [] && IsWhitespace(s[|s| - 1]) then
      var r := TrimEnd(s[..|s| - 1]);
      assert forall k :: |r| <= k < |s| - 1 ==> s[k] == s[..|s| - 1][k];
      r
    else s
  }

  /** Every character of `s` from index `lo` up to `hi` is whitespace. */
  predicate BlankBetween(s: string, lo: int, hi: int)
    requires 0 <= lo <= hi <= |s|
  {
    forall k :: lo <= k < hi ==> IsWhitespace(s[k])
  }

  /**
   * `s.trim()`: what is left of `s` between a whitespace prefix and a
   * whitespace suffix; it is empty exactly for blank input, and otherwise
   * unpadded, so both removed parts are the longest ones.
   */
  function Trim(s: string): (r: string)
    ensures StrippedAt(s, r, |s| - |TrimStart(s)|)
    ensures r == [] <==> IsBlank(s)
    ensures r != [] ==> Unpadded(r)
    ensures Unpadded(s) ==> r == s
  {
    TrimEmptyIffBlank(s);
    TrimParts(s);
    TrimEnd(TrimStart(s))
  }

  /** `r` is the part of `s` from index `i`, with only whitespace before and after it. */
  predicate StrippedAt(s: string, r: string, i: int) {
    && 0 <= i <= |s| - |r|
    && r == s[i..i + |r|]
    && BlankBetween(s, 0, i)
    && BlankBetween(s, i + |r|, |s|)
  }

  /** The prefix `TrimStart` removes and the suffix `TrimEnd` then removes are blank. */
  lemma {:induction false} TrimParts(s: string)
    ensures StrippedAt(s, TrimEnd(TrimStart(s)), |s| - |TrimStart(s)|)
  {
    StrippedAtOfCuts(s, TrimStart(s), TrimEnd(TrimStart(s)));
  }

  /** Cutting a whitespace prefix off `s`, then a whitespace suffix off what is left, leaves an infix of `s`. */
  lemma {:induction false} StrippedAtOfCuts(s: string, t: string, r: string)
    requires |t| <= |s| && t == s[|s| - |t|..]
    requires forall k :: 0 <= k < |s| - |t| ==> IsWhitespace(s[k])
    requires |r| <= |t| && r == t[..|r|]
    requires forall k :: |r| <= k < |t| ==> IsWhitespace(t[k])
    ensures StrippedAt(s, r, |s| - |t|)
  {
    var i := |s| - |t|;
    assert BlankBetween(s, i + |r|, |s|) by {
      forall k | i + |r| <= k < |s| ensures IsWhitespace(s[k]) {
        assert s[k] == t[k - i];
      }
    }
  }

  /** Nothing is left exactly for blank input. */
  lemma {:induction false} TrimEmptyIffBlank(s: string)
    ensures TrimEnd(TrimStart(s)) == [] <==> IsBlank(s)
  {
    var t := TrimStart(s);
    if t != [] {
      assert t[0] == s[|s| - |t|];
    }
  }

  /** `s.length`: the number of UTF-16 code units, two for each code point beyond the Basic Multilingual Plane. */
  function Utf16Length(s: string): (n: nat)
    ensures |s| <= n <= 2 * |s|
    ensures n == |s| <==> forall k :: 0 <= k < |s| ==> (s[k] as int) < 0x1_0000
  {
    if s == [] then 0
    else
      var init := s[..|s| - 1];
      var n := Utf16Length(init);
      assert forall k :: 0 <= k < |init| ==> init[k] == s[k];
      n + if (s[|s| - 1] as int) < 0x1_0000 then 1 else 2
  }

  /** The code-unit count of a concatenation is the sum of the counts. */
  lemma {:induction false} Utf16LengthAppend(a: string, b: string)
    ensures Utf16Length(a + b) == Utf16Length(a) + Utf16Length(b)
  {
    if b != [] {
      var ab := a + b;
      assert ab[..|ab| - 1] == a + b[..|b| - 1];
      Utf16LengthAppend(a, b[..|b| - 1]);
    } else {
      assert a + b == a;
    }
  }

  /** A log line followed by its newline trims back to the line. */
  lemma {:induction false} TrimLine(line: string)
    requires Unpadded(line)
    ensures Trim(line + "\n") == line
  {
    var s := line + "\n";
    assert s[0] == line[0];
    assert TrimStart(s) == s;
    assert s[..|s| - 1] == line;
    assert TrimEnd(s) == TrimEnd(line);
  }

  /** `s.split(sep)` for a one-character separator: never empty, and no piece holds the separator. */
  function Split(s: string, sep: char): (r: seq<string>)
    ensures |r| >= 1
    ensures forall i :: 0 <= i < |r| ==> sep !in r[i]
  {
    if s == [] then [""]
    else
      var rest := Split(s[1..], sep);
      if s[0] == sep then [""] + rest else [[s[0]] + rest[0]] + rest[1..]
  }

  /** `parts.join(sep)`: the inverse of `Split`. */
  function Join(parts: seq<string>, sep: char): string
    requires |parts| >= 1
  {
    if |parts| == 1 then parts[0] else parts[0] + [sep] + Join(parts[1..], sep)
  }

  /** Joining the pieces of a split gives back the string. */
  lemma {:induction false} JoinSplit(s: string, sep: char)
    ensures Join(Split(s, sep), sep) == s
  {
    if s != [] {
      JoinSplit(s[1..], sep);
      var rest := Split(s[1..], sep);
      if s[0] == sep {
        assert Split(s, sep) == [""] + rest;
        assert Split(s, sep)[1..] == rest;
        assert s == [sep] + s[1..];
      } else {
        var r := Split(s, sep);
        assert r == [[s[0]] + rest[0]] + rest[1..];
        if |rest| == 1 {
          assert s == [s[0]] + s[1..];
        } else {
          assert r[1..] == rest[1..];
          assert Join(rest, sep) == rest[0] + [sep] + Join(rest[1..], sep);
          assert s == [s[0]] + s[1..];
        }
      }
    }
  }

  lemma {:induction false} SplitNoSeparator(p: string, sep: char)
    requires sep !in p
    ensures Split(p, sep) == [p]
  {
    if p != [] {
      SplitNoSeparator(p[1..], sep);
      assert [p[0]] + p[1..] == p;
    }
  }

  lemma {:induction false} SplitAtSeparator(p: string, sep: char, t: string)
    requires sep !in p
    ensures Split(p + [sep] + t, sep) == [p] + Split(t, sep)
  {
    var s := p + [sep] + t;
    if p == [] {
      assert s[1..] == t;
    } else {
      assert s[1..] == p[1..] + [sep] + t;
      SplitAtSeparator(p[1..], sep, t);
      assert [p[0]] + p[1..] == p;
    }
  }

  /** Splitting a join of separator-free pieces gives back the pieces. */
  lemma {:induction false} SplitJoin(parts: seq<string>, sep: char)
    requires |parts| >= 1
    requires forall i :: 0 <= i < |parts| ==> sep !in parts[i]
    ensures Split(Join(parts, sep), sep) == parts
  {
    if |parts| == 1 {
      SplitNoSeparator(parts[0], sep);
    } else {
      SplitJoin(parts[1..], sep);
      SplitAtSeparator(parts[0], sep, Join(parts[1..], sep));
      assert [parts[0]] + parts[1..] == parts;
    }
  }

  // ---------------------------------------------------------------------
  // parseInt(string) with no radix argument

  predicate IsDecimalDigit(c: char) {
    '0' <= c <= '9'
  }

  /** A digit of the radix in use: decimal, or hexadecimal after a `0x` prefix. */
  predicate IsRadixDigit(c: char, radix: nat) {
    IsDecimalDigit(c) || (radix == 16 && ('a' <= c <= 'f' || 'A' <= c <= 'F'))
  }

  function DigitValue(c: char): nat {
    if '0' <= c <= '9' then c as int - '0' as int
    else if 'a' <= c <= 'f' then c as int - 'a' as int + 10
    else if 'A' <= c <= 'F' then c as int - 'A' as int + 10
    else 0
  }

  /** The longest prefix of radix digits. */
  function DigitPrefix(s: string, radix: nat): (r: string)
    ensures |r| <= |s| && r == s[..|r|]
    ensures forall k :: 0 <= k < |r| ==> IsRadixDigit(r[k], radix)
    ensures |r| < |s| ==> !IsRadixDigit(s[|r|], radix)
  {
    if s != [] && IsRadixDigit(s[0], radix) then
      var r := DigitPrefix(s[1..], radix);
      assert [s[0]] + r == s[..|r| + 1];
      [s[0]] + r
    else ""
  }

  /** The value of a digit string, most significant digit first. */
  function DigitsValue(ds: string, radix: nat): nat {
    if ds == [] then 0 else DigitsValue(ds[..|ds| - 1], radix) * radix + DigitValue(ds[|ds| - 1])
  }

  /** The digits after the sign: hexadecimal after a `0x`/`0X` prefix, decimal otherwise; `None` when there is no digit. */
  function ParseUnsigned(u: string): Option<nat> {
    var hex := |u| >= 2 && u[0] == '0' && (u[1] == 'x' || u[1] == 'X');
    var radix := if hex then 16 else 10;
    var digits := DigitPrefix(if hex then u[2..] else u, radix);
    if digits == [] then None else Some(DigitsValue(digits, radix))
  }

  /**
   * `parseInt(s)`: skip leading whitespace, take one optional sign, switch to
   * radix 16 after a `0x`/`0X` prefix, then read the longest run of digits.
   * `None` is `NaN` (no digit at all).
   */
  function ParseInt(s: string): Option<int> {
    var t := TrimStart(s);
    var negative := t != [] && t[0] == '-';
    var unsigned := if t != [] && (t[0] == '-' || t[0] == '+') then t[1..] else t;
    match ParseUnsigned(unsigned)
    case None => None
    case Some(v) => Some(if negative then -(v as int) else v)
  }

  function DecimalDigit(d: nat): (c: char)
    requires d < 10
    ensures IsDecimalDigit(c) && DigitValue(c) == d
  {
    ('0' as int + d) as char
  }

  /** The decimal rendering of a natural number, without leading zeros. */
  function NatToDecimal(n: nat): (r: string)
    ensures r != [] && forall k :: 0 <= k < |r| ==> IsDecimalDigit(r[k])
    ensures r[0] == '0' <==> n == 0
  {
    if n < 10 then [DecimalDigit(n)] else NatToDecimal(n / 10) + [DecimalDigit(n % 10)]
  }

  /** `String(n)` for an integer (below 10^21 in magnitude, where JavaScript switches to exponents). */
  function IntToDecimal(n: int): string {
    if n < 0 then "-" + NatToDecimal(-n) else NatToDecimal(n)
  }

  lemma {:induction false} NatToDecimalValue(n: nat)
    ensures DigitsValue(NatToDecimal(n), 10) == n
  {
    var r := NatToDecimal(n);
    if n >= 10 {
      NatToDecimalValue(n / 10);
      assert r[..|r| - 1] == NatToDecimal(n / 10);
    }
  }

  lemma {:induction false} DigitPrefixOfDigits(ds: string, suffix: string)
    requires forall k :: 0 <= k < |ds| ==> IsDecimalDigit(ds[k])
    requires suffix == [] || !IsDecimalDigit(suffix[0])
    ensures DigitPrefix(ds + suffix, 10) == ds
  {
    if ds == [] {
      assert ds + suffix == suffix;
    } else {
      assert (ds + suffix)[1..] == ds[1..] + suffix;
      DigitPrefixOfDigits(ds[1..], suffix);
      assert [ds[0]] + ds[1..] == ds;
    }
  }

  /**
   * `parseInt` reads back a decimal rendering and ignores what follows the
   * digits, so `parseInt("45min")` is 45. The one exception is a zero followed
   * by `x`, which reads as a hexadecimal prefix.
   */
  lemma {:induction false} ParseUnsignedOfDecimal(m: nat, suffix: string)
    requires suffix == [] || !IsDecimalDigit(suffix[0])
    requires m == 0 && suffix != [] ==> suffix[0] != 'x' && suffix[0] != 'X'
    ensures ParseUnsigned(NatToDecimal(m) + suffix) == Some(m)
  {
    var ds := NatToDecimal(m);
    var u := ds + suffix;
    assert u[0] == ds[0];
    assert |u| >= 2 && u[0] == '0' ==> m == 0 && u[1] == suffix[0];
    DigitPrefixOfDigits(ds, suffix);
    NatToDecimalValue(m);
  }

  lemma {:induction false} TrimStartKeeps(s: string)
    requires s != [] && !IsWhitespace(s[0])
    ensures TrimStart(s) == s
  {
  }

  /** `parseInt` of a string that starts with a decimal digit is the value of its unsigned part. */
  lemma {:induction false} ParseIntOfDigits(u: string, v: nat)
    requires u != [] && IsDecimalDigit(u[0])
    requires ParseUnsigned(u) == Some(v)
    ensures ParseInt(u) == Some(v)
  {
    TrimStartKeeps(u);
  }

  /** `parseInt` of a minus sign before such a string is the negated value. */
  lemma {:induction false} ParseIntOfMinusDigits(u: string, v: nat)
    requires u != [] && IsDecimalDigit(u[0])
    requires ParseUnsigned(u) == Some(v)
    ensures ParseInt("-" + u) == Some(-(v as int))
  {
    var s := "-" + u;
    TrimStartKeeps(s);
    assert s[1..] == u;
  }

  /** `parseInt` reads back the rendering of a negative integer. */
  lemma {:induction false} ParseIntOfNegative(n: int, suffix: string)
    requires n < 0
    requires suffix == [] || !IsDecimalDigit(suffix[0])
    ensures ParseInt(IntToDecimal(n) + suffix) == Some(n)
  {
    var d := NatToDecimal(-n);
    var u := d + suffix;
    NegativeRendering(n, suffix);
    ParseUnsignedOfDecimal(-n, suffix);
    assert u[0] == d[0];
    ParseIntOfMinusDigits(u, -n);
  }

  /** The rendering of a negative integer is a minus sign before that of its magnitude. */
  lemma {:induction false} NegativeRendering(n: int, suffix: string)
    requires n < 0
    ensures IntToDecimal(n) + suffix == "-" + (NatToDecimal(-n) + suffix)
  {
    var d := NatToDecimal(-n);
    assert IntToDecimal(n) == ['-'] + d;
    assert (['-'] + d) + suffix == ['-'] + (d + suffix);
  }

  /** `parseInt` reads back the rendering of a natural number. */
  lemma {:induction false} ParseIntOfNatural(n: nat, suffix: string)
    requires suffix == [] || !IsDecimalDigit(suffix[0])
    requires n == 0 && suffix != [] ==> suffix[0] != 'x' && suffix[0] != 'X'
    ensures ParseInt(IntToDecimal(n) + suffix) == Some(n)
  {
    var d := NatToDecimal(n);
    var u := d + suffix;
    ParseUnsignedOfDecimal(n, suffix);
    assert u[0] == d[0];
    ParseIntOfDigits(u, n);
  }

  lemma {:induction false} ParseIntOfDecimal(n: int, suffix: string)
    requires suffix == [] || !IsDecimalDigit(suffix[0])
    requires n == 0 && suffix != [] ==> suffix[0] != 'x' && suffix[0] != 'X'
    ensures ParseInt(IntToDecimal(n) + suffix) == Some(n)
  {
    if n < 0 {
      ParseIntOfNegative(n, suffix);
    } else {
      ParseIntOfNatural(n, suffix);
    }
  }

  /** `parseInt` of text with no digit after the optional sign is NaN. */
  lemma {:induction false} ParseIntNoDigits(s: string)
    requires s != [] && !IsWhitespace(s[0]) && !IsDecimalDigit(s[0]) && s[0] != '-' && s[0] != '+'
    ensures ParseInt(s).None?
  {
    assert TrimStart(s) == s;
  }
}
