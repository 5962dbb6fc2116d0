/** Small value types and string helpers shared by the wachy model: the
    Option and Result wrappers Rust provides, `join`, prefix/suffix and
    substring tests, quote escaping, and the decimal and hexadecimal
    rendering that `format!` performs on integers. */
module Util {

  datatype Option<+T> = None | Some(value: T)

  datatype Result<+T, +E> = Ok(value: T) | Err(error: E)

  // ---------------------------------------------------------------------
  // Joining (itertools `join`)
  // ---------------------------------------------------------------------

  /** The parts separated by `sep`: the first part, then `sep` + part for
      every later one. */
  function Join(parts: seq<string>, sep: string): string
  {
    if |parts| == 0 then ""
    else if |parts| == 1 then parts[0]
    else parts[0] + sep + Join(parts[1..], sep)
  }

  /** Appending one more part adds exactly one separator in front of it. */
  lemma {:induction false} JoinSnoc(parts: seq<string>, p: string, sep: string)
    ensures Join(parts + [p], sep) == if parts == [] then p else Join(parts, sep) + sep + p
  {
    if |parts| == 0 {
      assert parts + [p] == [p];
    } else if |parts| == 1 {
      assert parts + [p] == [parts[0], p];
      assert (parts + [p])[1..] == [p];
    } else {
      assert (parts + [p])[1..] == parts[1..] + [p];
      JoinSnoc(parts[1..], p, sep);
    }
  }

  /** The length of a join: every part, plus one separator between each
      neighbouring pair. */
  lemma {:induction false} JoinLength(parts: seq<string>, sep: string)
    ensures |Join(parts, sep)| == SumLengths(parts) + (if |parts| == 0 then 0 else (|parts| - 1) * |sep|)
  {
    if |parts| > 1 {
      JoinLength(parts[1..], sep);
    }
  }

  function SumLengths(parts: seq<string>): nat
  {
    if parts == [] then 0 else |parts[0]| + SumLengths(parts[1..])
  }

  /** Concatenation of all parts, with no separator. */
  function Concat(parts: seq<string>): string
  {
    if parts == [] then "" else parts[0] + Concat(parts[1..])
  }

  lemma {:induction false} ConcatSnoc(parts: seq<string>, p: string)
    ensures Concat(parts + [p]) == Concat(parts) + p
  {
    if parts == [] {
      assert parts + [p] == [p];
    } else {
      assert (parts + [p])[1..] == parts[1..] + [p];
      ConcatSnoc(parts[1..], p);
    }
  }

  // ---------------------------------------------------------------------
  // Prefix, suffix and substring tests
  // ---------------------------------------------------------------------

  predicate StartsWith(s: string, prefix: string)
  {
    |prefix| <= |s| && s[..|prefix|] == prefix
  }

  predicate EndsWith(s: string, suffix: string)
  {
    |suffix| <= |s| && s[|s| - |suffix|..] == suffix
  }

  lemma PrefixOfConcat(a: string, b: string)
    ensures StartsWith(a + b, a)
  {
    assert (a + b)[..|a|] == a;
  }

  lemma SuffixOfConcat(a: string, b: string)
    ensures EndsWith(a + b, b)
  {
    assert (a + b)[|a + b| - |b|..] == b;
  }

  /** `q` occurs in `s` starting at index `i`. */
  predicate OccursAt(s: string, q: string, i: nat)
  {
    i + |q| <= |s| && s[i..i + |q|] == q
  }

  /** Rust's `str::contains`, written as a scan from the left. */
  predicate Contains(s: string, q: string)
    decreases |s|
  {
    StartsWith(s, q) || (|s| > 0 && Contains(s[1..], q))
  }

  /** Moving the start of the haystack one character on moves every
      occurrence one index back. */
  lemma ShiftOccurs(s: string, q: string, i: nat)
    requires i > 0 && |s| > 0
    ensures OccursAt(s, q, i) <==> OccursAt(s[1..], q, i - 1)
  {
    if i + |q| <= |s| {
      assert s[1..][i - 1..i - 1 + |q|] == s[i..i + |q|];
    }
  }

  /** `Contains` holds exactly when the needle occurs at some index. */
  lemma {:induction false} ContainsIffOccurs(s: string, q: string)
    ensures Contains(s, q) <==> exists i: nat :: OccursAt(s, q, i)
    decreases |s|
  {
    assert OccursAt(s, q, 0) <==> StartsWith(s, q);
    if |s| > 0 {
      ContainsIffOccurs(s[1..], q);
      forall i: nat | i > 0 ensures OccursAt(s, q, i) <==> OccursAt(s[1..], q, i - 1) {
        ShiftOccurs(s, q, i);
      }
      if Contains(s[1..], q) {
        var i: nat :| OccursAt(s[1..], q, i);
        assert OccursAt(s, q, i + 1);
      }
    }
  }

  // ---------------------------------------------------------------------
  // Quote escaping (`str::replace('"', "\\\"")`)
  // ---------------------------------------------------------------------

  /** Every `"` replaced by the two characters `\"`. */
  function EscapeQuotes(s: string): (r: string)
    ensures |r| == |s| + CountChar(s, '"')
    ensures forall i :: 0 <= i < |r| && r[i] == '"' ==> i > 0 && r[i - 1] == '\\'
  {
    if s == [] then ""
    else if s[0] == '"' then "\\\"" + EscapeQuotes(s[1..])
    else [s[0]] + EscapeQuotes(s[1..])
  }

  function CountChar(s: string, c: char): nat
  {
    if s == [] then 0 else (if s[0] == c then 1 else 0) + CountChar(s[1..], c)
  }

  /** Reads `\"` back as `"`, and every other character as itself. */
  function UnescapeQuotes(s: string): string
  {
    if |s| >= 2 && s[0] == '\\' && s[1] == '"' then "\"" + UnescapeQuotes(s[2..])
    else if s == [] then ""
    else [s[0]] + UnescapeQuotes(s[1..])
  }

  /** Escaping loses nothing: unescaping gives the original text back. */
  lemma {:induction false} EscapeQuotesRoundTrip(s: string)
    ensures UnescapeQuotes(EscapeQuotes(s)) == s
  {
    if s != [] {
      EscapeQuotesRoundTrip(s[1..]);
      var rest := EscapeQuotes(s[1..]);
      if s[0] == '"' {
        assert EscapeQuotes(s) == "\\\"" + rest;
        assert ("\\\"" + rest)[2..] == rest;
      } else {
        assert EscapeQuotes(s) == [s[0]] + rest;
        assert ([s[0]] + rest)[1..] == rest;
        assert |rest| > 0 ==> rest[0] != '"';
      }
    }
  }

  // ---------------------------------------------------------------------
  // Rendering numbers (`{}` and `{:x}`)
  // ---------------------------------------------------------------------

  /** The digit for `d`: `0`-`9`, then lower-case `a`-`f`. */
  function DigitChar(d: nat): (c: char)
    requires d < 16
  {
    if d < 10 then (48 + d) as char else (87 + d) as char
  }

  predicate IsDigit(c: char, base: nat)
    requires 2 <= base <= 16
  {
    ('0' <= c <= '9' && c as int - 48 < base) || ('a' <= c <= 'f' && c as int - 87 < base)
  }

  /** The value of a digit character; other characters count as zero. */
  function DigitValue(c: char): (d: nat)
    ensures d < 16
  {
    if '0' <= c <= '9' then c as int - 48
    else if 'a' <= c <= 'f' then c as int - 87
    else 0
  }

  /** `n` written in `base` with no leading zeros, lower-case digits. */
  function NatToBase(n: nat, base: nat): (r: string)
    requires 2 <= base <= 16
    ensures |r| >= 1
    decreases n
  {
    if n < base then [DigitChar(n)]
    else NatToBase(n / base, base) + [DigitChar(n % base)]
  }

  /** Rendering has no leading zero, except for zero itself. */
  lemma {:induction false} NatToBaseNoLeadingZero(n: nat, base: nat)
    requires 2 <= base <= 16
    ensures NatToBase(n, base)[0] == '0' <==> n == 0
    ensures n == 0 ==> NatToBase(n, base) == "0"
    decreases n
  {
    if n < base {
      DigitCharZero(n);
    } else {
      DivFacts(n, base);
      var q := n / base;
      NatToBaseNoLeadingZero(q, base);
      var front := NatToBase(q, base);
      assert NatToBase(n, base) == front + [DigitChar(n % base)];
      assert NatToBase(n, base)[0] == front[0];
    }
  }

  lemma DigitCharZero(d: nat)
    requires d < 16
    ensures DigitChar(d) == '0' <==> d == 0
  {
  }

  /** Rendering uses only the digits of the base. */
  lemma {:induction false} NatToBaseDigits(n: nat, base: nat)
    requires 2 <= base <= 16
    ensures forall i :: 0 <= i < |NatToBase(n, base)| ==> IsDigit(NatToBase(n, base)[i], base)
    decreases n
  {
    if n >= base {
      DivFacts(n, base);
      NatToBaseDigits(n / base, base);
      var front, last := NatToBase(n / base, base), DigitChar(n % base);
      assert NatToBase(n, base) == front + [last];
      assert IsDigit(last, base);
    }
  }

  /** The value of a string of digits in `base`. */
  function BaseValue(s: string, base: nat): nat
  {
    if s == [] then 0
    else BaseValue(s[..|s| - 1], base) * base + DigitValue(s[|s| - 1])
  }

  lemma DigitValueOfChar(d: nat)
    requires d < 16
    ensures DigitValue(DigitChar(d)) == d
  {
  }

  lemma BaseValueSnoc(s: string, c: char, base: nat)
    ensures BaseValue(s + [c], base) == BaseValue(s, base) * base + DigitValue(c)
  {
    assert (s + [c])[..|s|] == s;
  }

  lemma DivFacts(n: nat, base: nat)
    requires 2 <= base <= n
    ensures 1 <= n / base < n && n % base < base
    ensures n == (n / base) * base + n % base
  {
  }

  /** One digit more: if the leading digits read back correctly, so does
      the whole rendering. */
  lemma RoundTripStep(n: nat, base: nat)
    requires 2 <= base <= 16 && base <= n
    requires BaseValue(NatToBase(n / base, base), base) == n / base
    ensures BaseValue(NatToBase(n, base), base) == n
  {
    DivFacts(n, base);
    var q, m := n / base, n % base;
    var front := NatToBase(q, base);
    assert NatToBase(n, base) == front + [DigitChar(m)];
    BaseValueSnoc(front, DigitChar(m), base);
    DigitValueOfChar(m);
  }

  /** Rendering a number and reading it back gives the number. */
  lemma {:induction false} NatToBaseRoundTrip(n: nat, base: nat)
    requires 2 <= base <= 16
    ensures BaseValue(NatToBase(n, base), base) == n
    decreases n
  {
    if n < base {
      BaseValueSnoc([], DigitChar(n), base);
      DigitValueOfChar(n);
      assert [] + [DigitChar(n)] == NatToBase(n, base);
    } else {
      DivFacts(n, base);
      NatToBaseRoundTrip(n / base, base);
      RoundTripStep(n, base);
    }
  }

  /** Distinct numbers render differently. */
  lemma NatToBaseInjective(m: nat, n: nat, base: nat)
    requires 2 <= base <= 16
    requires NatToBase(m, base) == NatToBase(n, base)
    ensures m == n
  {
    NatToBaseRoundTrip(m, base);
    NatToBaseRoundTrip(n, base);
  }

  /** Decimal rendering of a natural number (`format!("{}", n)`). */
  function NatToDecimal(n: nat): string
  {
    NatToBase(n, 10)
  }

  /** Decimal rendering of a signed integer: a minus sign, then the digits. */
  function IntToDecimal(i: int): string
  {
    if i < 0 then "-" + NatToDecimal(-i) else NatToDecimal(i)
  }

  const TwoTo63: int := 0x8000_0000_0000_0000
  const TwoTo64: int := 0x1_0000_0000_0000_0000

  /** Rust's `i64`. */
  type I64 = x: int | -TwoTo63 <= x < TwoTo63

  /** `format!("{:x}", d)` for an `i64`: the lower-case hexadecimal digits of
      its two's-complement bit pattern, so a negative value prints as the
      64-bit word it is stored in. */
  function I64ToHex(d: I64): (r: string)
    ensures BaseValue(r, 16) == (if d < 0 then d + TwoTo64 else d)
  {
    var w: nat := if d < 0 then d + TwoTo64 else d;
    NatToBaseRoundTrip(w, 16);
    NatToBase(if d < 0 then d + TwoTo64 else d, 16)
  }

  // ---------------------------------------------------------------------
  // Byte length (`str::len`)
  // ---------------------------------------------------------------------

  /** The number of bytes UTF-8 uses for `c`. */
  function Utf8Width(c: char): nat
  {
    if c as int < 0x80 then 1
    else if c as int < 0x800 then 2
    else if c as int < 0x1_0000 then 3
    else 4
  }

  /** `str::len`: the length of `s` in UTF-8 bytes, between one and four
      bytes per character. */
  function Utf8Len(s: string): (n: nat)
    ensures |s| <= n <= 4 * |s|
  {
    if s == [] then 0 else Utf8Len(s[..|s| - 1]) + Utf8Width(s[|s| - 1])
  }

  /** The byte length equals the character count exactly when every
      character is ASCII. */
  lemma {:induction false} Utf8LenAscii(s: string)
    ensures Utf8Len(s) == |s| <==> forall i :: 0 <= i < |s| ==> s[i] as int < 0x80
  {
    if s != [] {
      var front := s[..|s| - 1];
      Utf8LenAscii(front);
      assert forall i :: 0 <= i < |front| ==> front[i] == s[i];
    }
  }
}
