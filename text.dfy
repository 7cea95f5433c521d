/** The JavaScript string operations the model relies on, written out:
    white space, `trim`, ASCII `toLowerCase`, `includes`, the `replace(/[^0-9]/g, '')`
    sanitisers, `parseInt`, integer `toString`, `isNaN` on a string, and the
    order `localeCompare` stands for. */
module Text {
  import opened Wrappers
  import Seqs

  /** The characters ECMAScript counts as white space in `\s`, `trim` and
      `parseInt`: its WhiteSpace and LineTerminator characters. */
  predicate IsSpace(c: char) {
    || ('\t' <= c <= '\r')
    || c == ' ' || c == '\U{00A0}' || c == '\U{1680}'
    || ('\U{2000}' <= c <= '\U{200A}')
    || c == '\U{2028}' || c == '\U{2029}' || c == '\U{202F}' || c == '\U{205F}'
    || c == '\U{3000}' || c == '\U{FEFF}'
  }

  predicate IsBlank(s: string) {
    forall i | 0 <= i < |s| :: IsSpace(s[i])
  }

  predicate IsDigit(c: char) {
    '0' <= c <= '9'
  }

  predicate AllDigits(s: string) {
    forall i | 0 <= i < |s| :: IsDigit(s[i])
  }

  // ---------------------------------------------------------------- trim

  /** The number of white-space characters `s` starts with. */
  function LeadingSpaces(s: string): (n: nat)
    ensures n <= |s|
    ensures forall i | 0 <= i < n :: IsSpace(s[i])
    ensures n == |s| || !IsSpace(s[n])
  {
    if s != [] && IsSpace(s[0]) then 1 + LeadingSpaces(s[1..]) else 0
  }

  /** The number of white-space characters `s` ends with. */
  function TrailingSpaces(s: string): (n: nat)
    ensures n <= |s|
    ensures forall i | |s| - n <= i < |s| :: IsSpace(s[i])
    ensures n == |s| || !IsSpace(s[|s| - n - 1])
  {
    if s != [] && IsSpace(s[|s| - 1]) then 1 + TrailingSpaces(s[..|s| - 1]) else 0
  }

  /** Drops leading white space, as `parseInt` does before reading. */
  function TrimStart(s: string): (r: string)
    ensures r == s[LeadingSpaces(s)..]
    ensures r == [] || !IsSpace(r[0])
  {
    s[LeadingSpaces(s)..]
  }

  /** Drops trailing white space. */
  function TrimEnd(s: string): (r: string)
    ensures r == s[..|s| - TrailingSpaces(s)]
    ensures r == [] || !IsSpace(r[|r| - 1])
  {
    s[..|s| - TrailingSpaces(s)]
  }

  /** `String.prototype.trim`, which the schemas' `trim: true` applies before
      validating: what is left after removing the white space at both ends. */
  function Trim(s: string): (r: string)
    ensures r == [] <==> IsBlank(s)
    ensures r != [] ==> !IsSpace(r[0]) && !IsSpace(r[|r| - 1])
  {
    TrimBlank(s);
    TrimStart(TrimEnd(s))
  }

  lemma TrimBlank(s: string)
    ensures var r := TrimStart(TrimEnd(s));
      && (r == [] <==> IsBlank(s))
      && (r != [] ==> !IsSpace(r[|r| - 1]))
  {
    var e := TrimEnd(s);
    var r := TrimStart(e);
    if r == [] {
      assert e == [] by {
        if e != [] {
          assert false;
        }
      }
      assert IsBlank(s) by {
        forall i | 0 <= i < |s| ensures IsSpace(s[i]) {
        }
      }
    } else {
      assert r[|r| - 1] == e[|e| - 1];
      var k := LeadingSpaces(e);
      assert s[k] == e[k];
    }
  }

  /** A string without white space at its ends is its own trim, so trimming is
      idempotent. */
  lemma TrimUnpadded(s: string)
    requires s == [] || (!IsSpace(s[0]) && !IsSpace(s[|s| - 1]))
    ensures Trim(s) == s
  {
    if s != [] {
      assert TrailingSpaces(s) == 0;
      assert TrimEnd(s) == s;
      assert LeadingSpaces(s) == 0;
    }
  }

  lemma TrimIdempotent(s: string)
    ensures Trim(Trim(s)) == Trim(s)
  {
    TrimUnpadded(Trim(s));
  }

  // ----------------------------------------------------------- lower case

  /** `toLowerCase` restricted to ASCII letters. */
  function LowerChar(c: char): char {
    if 'A' <= c <= 'Z' then (c as int + 32) as char else c
  }

  function ToLower(s: string): (r: string)
    ensures |r| == |s|
  {
    seq(|s|, i requires 0 <= i < |s| => LowerChar(s[i]))
  }

  /** Lower-casing a slice is slicing the lower-cased string. */
  lemma LowerSlice(s: string, a: nat, b: nat)
    requires a <= b <= |s|
    ensures ToLower(s[a..b]) == ToLower(s)[a..b]
  {
  }

  lemma {:induction false} LowerLeadingSpaces(s: string)
    ensures LeadingSpaces(ToLower(s)) == LeadingSpaces(s)
  {
    if s != [] {
      assert IsSpace(LowerChar(s[0])) == IsSpace(s[0]);
      assert ToLower(s)[1..] == ToLower(s[1..]);
      LowerLeadingSpaces(s[1..]);
    }
  }

  lemma {:induction false} LowerTrailingSpaces(s: string)
    ensures TrailingSpaces(ToLower(s)) == TrailingSpaces(s)
  {
    if s != [] {
      assert IsSpace(LowerChar(s[|s| - 1])) == IsSpace(s[|s| - 1]);
      assert ToLower(s)[..|s| - 1] == ToLower(s[..|s| - 1]);
      LowerTrailingSpaces(s[..|s| - 1]);
    }
  }

  lemma LowerTrimStart(s: string)
    ensures ToLower(TrimStart(s)) == TrimStart(ToLower(s))
  {
    LowerLeadingSpaces(s);
    LowerSlice(s, LeadingSpaces(s), |s|);
    assert s[LeadingSpaces(s)..|s|] == s[LeadingSpaces(s)..];
  }

  lemma LowerTrimEnd(s: string)
    ensures ToLower(TrimEnd(s)) == TrimEnd(ToLower(s))
  {
    LowerTrailingSpaces(s);
    LowerSlice(s, 0, |s| - TrailingSpaces(s));
    assert s[0..|s| - TrailingSpaces(s)] == s[..|s| - TrailingSpaces(s)];
  }

  /** Lower-casing and trimming commute, so the order in which a schema applies
      `trim` and `lowercase` does not matter. */
  lemma LowerTrimCommute(s: string)
    ensures ToLower(Trim(s)) == Trim(ToLower(s))
  {
    LowerTrimEnd(s);
    LowerTrimStart(TrimEnd(s));
  }

  /** Lower-casing twice is lower-casing once. */
  lemma LowerIdempotent(s: string)
    ensures ToLower(ToLower(s)) == ToLower(s)
  {
  }

  // ------------------------------------------------------------- includes

  /** `String.prototype.includes`: `sub` occurs in `s` as a contiguous substring. */
  predicate Contains(s: string, sub: string) {
    exists i | 0 <= i <= |s| :: sub <= s[i..]
  }

  /** Every string includes the empty string, and itself. */
  lemma ContainsEmptyAndSelf(s: string)
    ensures Contains(s, "")
    ensures Contains(s, s)
  {
    assert "" <= s[0..];
    assert s <= s[0..];
  }

  /** A case-insensitive search: `a.toLowerCase().includes(q.toLowerCase())`. */
  predicate MatchesQuery(name: string, query: string) {
    Contains(ToLower(name), ToLower(query))
  }

  /** The empty search query matches every name. */
  lemma EmptyQueryMatches(name: string)
    ensures MatchesQuery(name, "")
  {
    assert ToLower("") == "";
    ContainsEmptyAndSelf(ToLower(name));
  }

  // ----------------------------------------------------------- sanitisers

  /** `text.replace(/[^0-9]/g, '')`. */
  function KeepDigits(s: string): (r: string)
    ensures AllDigits(r)
    ensures AllDigits(s) ==> r == s
  {
    Seqs.Filter(s, IsDigit)
  }

  predicate IsPriceChar(c: char) {
    IsDigit(c) || c == '.'
  }

  /** `text.replace(/[^0-9.]/g, '')`. */
  function KeepPriceChars(s: string): (r: string)
    ensures forall i | 0 <= i < |r| :: IsPriceChar(r[i])
    ensures (forall i | 0 <= i < |s| :: IsPriceChar(s[i])) ==> r == s
  {
    Seqs.Filter(s, IsPriceChar)
  }

  // ------------------------------------------------ numbers and numerals

  function DigitValue(c: char): nat
    requires IsDigit(c)
  {
    c as int - '0' as int
  }

  function DigitChar(d: nat): (c: char)
    requires d < 10
    ensures IsDigit(c) && DigitValue(c) == d
  {
    ('0' as int + d) as char
  }

  /** The value of a decimal digit string, most significant digit first. */
  function DigitsValue(s: string): nat
    requires AllDigits(s)
  {
    if s == [] then 0 else DigitsValue(s[..|s| - 1]) * 10 + DigitValue(s[|s| - 1])
  }

  /** `Number.prototype.toString` on a non-negative integer: its decimal numeral,
      without leading zeros. */
  function NatToString(n: nat): (r: string)
    ensures r != [] && AllDigits(r) && DigitsValue(r) == n
    ensures r[0] == '0' ==> n == 0
  {
    if n < 10 then [DigitChar(n)]
    else
      var t := NatToString(n / 10);
      var r := t + [DigitChar(n % 10)];
      assert r[..|r| - 1] == t;
      r
  }

  /** `Number.prototype.toString` on an integer. */
  function IntToString(n: int): string {
    if n < 0 then "-" + NatToString(-n) else NatToString(n)
  }

  /** The longest prefix of `s` whose characters all satisfy `p`. */
  function Span(s: string, p: char -> bool): (r: string)
    ensures |r| <= |s| && r == s[..|r|]
    ensures forall i | 0 <= i < |r| :: p(r[i])
    ensures |r| == |s| || !p(s[|r|])
  {
    if s != [] && p(s[0]) then [s[0]] + Span(s[1..], p) else []
  }

  predicate IsHexDigit(c: char) {
    IsDigit(c) || 'a' <= c <= 'f' || 'A' <= c <= 'F'
  }

  function HexDigitValue(c: char): nat
    requires IsHexDigit(c)
  {
    if IsDigit(c) then DigitValue(c)
    else if 'a' <= c <= 'f' then c as int - 'a' as int + 10
    else c as int - 'A' as int + 10
  }

  function HexValue(s: string): nat
    requires forall i | 0 <= i < |s| :: IsHexDigit(s[i])
  {
    if s == [] then 0 else HexValue(s[..|s| - 1]) * 16 + HexDigitValue(s[|s| - 1])
  }

  /** The magnitude `parseInt` reads after the sign: base 16 after a `0x` or
      `0X` prefix, base 10 otherwise, over the longest run of digits; `None`
      when there is no digit at all. */
  function ParseMagnitude(u: string): Option<nat> {
    if |u| >= 2 && u[0] == '0' && (u[1] == 'x' || u[1] == 'X') then
      var z := Span(u[2..], IsHexDigit);
      if z == [] then None else Some(HexValue(z))
    else
      var z := Span(u, IsDigit);
      if z == [] then None else Some(DigitsValue(z))
  }

  /** `parseInt(s)` with no radix: leading white space is skipped, one sign is
      read, then the magnitude; `None` is `NaN`. */
  function ParseInt(s: string): Option<int> {
    var t := TrimStart(s);
    var negative := t != [] && t[0] == '-';
    var u := if t != [] && (t[0] == '-' || t[0] == '+') then t[1..] else t;
    match ParseMagnitude(u)
    case None => None
    case Some(v) => var w: int := v; Some(if negative then -w else w)
  }

  lemma {:induction false} SpanOfPrefix(d: string, rest: string, p: char -> bool)
    requires forall i | 0 <= i < |d| :: p(d[i])
    requires rest == [] || !p(rest[0])
    ensures Span(d + rest, p) == d
  {
    if d != [] {
      assert (d + rest)[1..] == d[1..] + rest;
      SpanOfPrefix(d[1..], rest, p);
      assert d == [d[0]] + d[1..];
    } else {
      assert d + rest == rest;
    }
  }

  /** Text that cannot continue a numeral: it does not start with a digit or
      with the `x` of a hexadecimal prefix. */
  predicate StopsNumeral(rest: string) {
    rest == [] || (!IsDigit(rest[0]) && rest[0] != 'x' && rest[0] != 'X')
  }

  /** A decimal numeral followed by text that stops it is read in base 10. */
  lemma MagnitudeNumeral(d: string, rest: string)
    requires d != [] && AllDigits(d)
    requires StopsNumeral(rest)
    ensures ParseMagnitude(d + rest) == Some(DigitsValue(d))
  {
    var s := d + rest;
    assert s[0] == d[0];
    assert !(|s| >= 2 && s[0] == '0' && (s[1] == 'x' || s[1] == 'X')) by {
      if |d| >= 2 {
        assert s[1] == d[1];
      } else if |s| >= 2 {
        assert s[1] == rest[0];
      }
    }
    SpanOfPrefix(d, rest, IsDigit);
  }

  /** Without a sign, `parseInt` is the magnitude. */
  lemma ParseIntUnsigned(u: string)
    requires u != [] && IsDigit(u[0])
    ensures ParseMagnitude(u).None? ==> ParseInt(u).None?
    ensures ParseMagnitude(u).Some? ==> ParseInt(u) == Some(ParseMagnitude(u).value as int)
  {
    assert !IsSpace(u[0]);
    assert TrimStart(u) == u;
  }

  /** After a leading minus sign, `parseInt` negates the magnitude. */
  lemma ParseIntSigned(u: string)
    ensures ParseMagnitude(u).None? ==> ParseInt(['-'] + u).None?
    ensures ParseMagnitude(u).Some? ==> ParseInt(['-'] + u) == Some(-(ParseMagnitude(u).value as int))
  {
    var s := ['-'] + u;
    assert !IsSpace(s[0]);
    assert TrimStart(s) == s;
    assert s[1..] == u;
  }

  /** `parseInt` reads a numeral up to the first character that stops it. */
  lemma ParseIntNumeral(d: string, rest: string)
    requires d != [] && AllDigits(d)
    requires StopsNumeral(rest)
    ensures ParseInt(d + rest) == Some(DigitsValue(d))
  {
    var s := d + rest;
    assert s[0] == d[0];
    ParseIntUnsigned(s);
    MagnitudeNumeral(d, rest);
  }

  /** `parseInt` reads a minus sign followed by a numeral as a negative number. */
  lemma ParseIntMinus(d: string, rest: string)
    requires d != [] && AllDigits(d)
    requires StopsNumeral(rest)
    ensures ParseInt(['-'] + (d + rest)) == Some(-(DigitsValue(d) as int))
  {
    ParseIntSigned(d + rest);
    MagnitudeNumeral(d, rest);
  }

  /** `parseInt(String(n) + rest) === n` when `rest` does not continue the
      numeral: reading back the numeral of an integer gives the integer. */
  lemma ParseIntToString(n: int, rest: string)
    requires StopsNumeral(rest)
    ensures ParseInt(IntToString(n) + rest) == Some(n)
  {
    if n >= 0 {
      ParseIntNumeral(NatToString(n), rest);
    } else {
      ParseIntMinus(NatToString(-n), rest);
      assert IntToString(n) + rest == ['-'] + (NatToString(-n) + rest);
    }
  }

  /** How many times `c` occurs in `s`. */
  function CountChar(s: string, c: char): nat {
    if s == [] then 0 else (if s[0] == c then 1 else 0) + CountChar(s[1..], c)
  }

  /** An unsigned decimal numeral of the form `digits`, `digits.`, `digits.digits`
      or `.digits`: digits and at most one point, with at least one digit. */
  predicate IsDecimalNumeral(b: string) {
    && (forall i | 0 <= i < |b| :: IsPriceChar(b[i]))
    && CountChar(b, '.') <= 1
    && CountChar(b, '.') < |b|
  }

  /** `!isNaN(s)` for a string: `Number(s)` coerces it to a number. The trimmed
      text is empty (which is 0) or an optionally signed decimal numeral. */
  predicate IsNumericString(s: string) {
    var t := Trim(s);
    || t == []
    || IsDecimalNumeral(t)
    || ((t[0] == '+' || t[0] == '-') && IsDecimalNumeral(t[1..]))
  }

  /** On the strings the price sanitiser can produce, `isNaN` rejects exactly the
      ones with two or more points or without any digit. */
  lemma NumericPriceText(s: string)
    requires s != [] && forall i | 0 <= i < |s| :: IsPriceChar(s[i])
    ensures IsNumericString(s) <==> CountChar(s, '.') <= 1 && CountChar(s, '.') < |s|
  {
    assert IsPriceChar(s[0]) && IsPriceChar(s[|s| - 1]);
    TrimUnpadded(s);
    var t := Trim(s);
    assert t == s && t != [];
    assert t[0] != '+' && t[0] != '-';
    assert IsNumericString(s) <==> IsDecimalNumeral(s);
  }

  // ---------------------------------------------------------------- order

  /** The lexicographic order on character codes: the total order the model
      puts in place of `localeCompare`. */
  predicate LexLe(a: string, b: string) {
    a == [] || (b != [] && (a[0] < b[0] || (a[0] == b[0] && LexLe(a[1..], b[1..]))))
  }

  lemma {:induction false} LexLeTotal(a: string, b: string)
    ensures LexLe(a, b) || LexLe(b, a)
  {
    if a != [] && b != [] && a[0] == b[0] {
      LexLeTotal(a[1..], b[1..]);
    }
  }

  lemma {:induction false} LexLeTransitive(a: string, b: string, c: string)
    requires LexLe(a, b) && LexLe(b, c)
    ensures LexLe(a, c)
  {
    if a != [] && a[0] == b[0] && b[0] == c[0] {
      LexLeTransitive(a[1..], b[1..], c[1..]);
    }
  }

  lemma {:induction false} LexLeAntisymmetric(a: string, b: string)
    requires LexLe(a, b) && LexLe(b, a)
    ensures a == b
  {
    if a != [] && b != [] {
      LexLeAntisymmetric(a[1..], b[1..]);
      assert a == [a[0]] + a[1..] && b == [b[0]] + b[1..];
    }
  }
}
