/**
 * The string primitives the interface relies on: ECMAScript `String.prototype.trim`,
 * `String.prototype.includes`, and the decimal rendering of an integral `Number`.
 * Strings are sequences of Unicode scalar values.
 */
module Text {
  import opened Basics

  /** The ECMAScript WhiteSpace and LineTerminator code points: exactly what `trim` removes. */
  predicate IsJsWhitespace(c: char) {
    var u := c as int;
    || u == 0x09 || u == 0x0A || u == 0x0B || u == 0x0C || u == 0x0D
    || u == 0x20 || u == 0xA0 || u == 0x1680
    || (0x2000 <= u <= 0x200A)
    || u == 0x2028 || u == 0x2029 || u == 0x202F || u == 0x205F
    || u == 0x3000 || u == 0xFEFF
  }

  /** Every character of `s` is whitespace (the empty string included). */
  predicate IsBlank(s: string) {
    forall i :: 0 <= i < |s| ==> IsJsWhitespace(s[i])
  }

  /** `s` with its leading whitespace removed. */
  function TrimStart(s: string): (r: string)
    ensures |r| <= |s| && r == s[|s| - |r|..]
    ensures IsBlank(s[..|s| - |r|])
    ensures r == [] || !IsJsWhitespace(r[0])
  {
    if |s| > 0 && IsJsWhitespace(s[0]) then
      var rest := TrimStart(s[1..]);
      assert s[..|s| - |rest|] == [s[0]] + s[1..][..|s| - 1 - |rest|];
      rest
    else
      s
  }

  /** `s` with its trailing whitespace removed. */
  function TrimEnd(s: string): (r: string)
    ensures |r| <= |s| && r == s[..|r|]
    ensures IsBlank(s[|r|..])
    ensures r == [] || !IsJsWhitespace(r[|r| - 1])
  {
    if |s| > 0 && IsJsWhitespace(s[|s| - 1]) then
      var rest := TrimEnd(s[..|s| - 1]);
      assert s[|rest|..] == s[..|s| - 1][|rest|..] + [s[|s| - 1]];
      rest
    else
      s
  }

  /** `String.prototype.trim`: leading and trailing whitespace removed. */
  function Trim(s: string): string {
    TrimEnd(TrimStart(s))
  }

  /** The trimmed string is empty exactly when the whole string is whitespace. */
  lemma TrimEmptyIffBlank(s: string)
    ensures Trim(s) == [] <==> IsBlank(s)
  {
    var t := TrimStart(s);
    var r := TrimEnd(t);
    if t == [] {
      assert s[..|s|] == s;
    } else {
      assert t[0] == s[|s| - |t|];
    }
  }

  /** `sub` occurs in `s` starting at position 0. */
  predicate StartsWith(s: string, sub: string) {
    |sub| <= |s| && s[..|sub|] == sub
  }

  /** `sub` occurs in `s` at position `i`. */
  predicate OccursAt(s: string, sub: string, i: int) {
    0 <= i <= |s| - |sub| && s[i..i + |sub|] == sub
  }

  /** `String.prototype.includes`: `sub` occurs at some position of `s`. */
  predicate Includes(s: string, sub: string) {
    exists i :: 0 <= i <= |s| - |sub| && OccursAt(s, sub, i)
  }

  /** A reference scan for `includes`: test position 0, then search the rest. */
  predicate IncludesScan(s: string, sub: string)
    decreases |s|
  {
    StartsWith(s, sub) || (|s| > 0 && IncludesScan(s[1..], sub))
  }

  /** The scan finds `sub` exactly when it occurs somewhere. */
  lemma {:induction false} IncludesScanCorrect(s: string, sub: string)
    ensures IncludesScan(s, sub) <==> Includes(s, sub)
    decreases |s|
  {
    if StartsWith(s, sub) {
      assert OccursAt(s, sub, 0);
    } else if |s| > 0 {
      IncludesScanCorrect(s[1..], sub);
      if IncludesScan(s[1..], sub) {
        var i :| 0 <= i <= |s| - 1 - |sub| && OccursAt(s[1..], sub, i);
        assert s[i + 1..i + 1 + |sub|] == s[1..][i..i + |sub|];
        assert OccursAt(s, sub, i + 1);
      } else if Includes(s, sub) {
        var i :| 0 <= i <= |s| - |sub| && OccursAt(s, sub, i);
        assert i != 0;
        assert s[1..][i - 1..i - 1 + |sub|] == s[i..i + |sub|];
        assert OccursAt(s[1..], sub, i - 1);
      }
    }
  }

  /** A string that includes `sub` contains every character of `sub`. */
  lemma IncludesHasEveryChar(s: string, sub: string, k: int)
    requires Includes(s, sub)
    requires 0 <= k < |sub|
    ensures sub[k] in s
  {
    var i :| 0 <= i <= |s| - |sub| && OccursAt(s, sub, i);
    assert s[i + k] == sub[k];
  }

  /** A string lacking some character of `sub` does not include `sub`. */
  lemma MissingCharExcludes(s: string, sub: string, k: int)
    requires 0 <= k < |sub| && sub[k] !in s
    ensures !Includes(s, sub)
  {
    if Includes(s, sub) {
      IncludesHasEveryChar(s, sub, k);
    }
  }

  /** The character for a decimal digit. */
  function DigitChar(d: nat): (c: char)
    requires d < 10
    ensures '0' <= c <= '9'
  {
    ('0' as int + d) as char
  }

  predicate IsDigit(c: char) {
    '0' <= c <= '9'
  }

  predicate AllDigits(s: string) {
    forall i :: 0 <= i < |s| ==> IsDigit(s[i])
  }

  function DigitValue(c: char): (d: nat)
    requires IsDigit(c)
    ensures d < 10
  {
    c as int - '0' as int
  }

  /** Decimal rendering of a natural number, most significant digit first, no leading zeros. */
  function NatToDecimal(n: nat): (s: string)
    ensures |s| > 0 && AllDigits(s)
    ensures s[0] == '0' ==> n == 0
  {
    if n < 10 then [DigitChar(n)] else NatToDecimal(n / 10) + [DigitChar(n % 10)]
  }

  /** The value of a string of decimal digits. */
  function ParseDigits(s: string): nat
    requires AllDigits(s)
  {
    if |s| == 0 then 0 else 10 * ParseDigits(s[..|s| - 1]) + DigitValue(s[|s| - 1])
  }

  /** Reading back a rendered natural number yields that number. */
  lemma {:induction false} ParseNatToDecimal(n: nat)
    ensures ParseDigits(NatToDecimal(n)) == n
  {
    var s := NatToDecimal(n);
    if n >= 10 {
      var front := NatToDecimal(n / 10);
      assert s[..|s| - 1] == front;
      ParseNatToDecimal(n / 10);
    }
  }

  /** `Number.prototype.toString()` of an integral number below 10^21 in magnitude. */
  function IntToDecimal(n: int): (s: string)
    ensures |s| > 0
  {
    if n < 0 then "-" + NatToDecimal(-n) else NatToDecimal(n)
  }

  /** Reads an optionally signed decimal integer; `None` when `s` is not one. */
  function ParseDecimal(s: string): (r: Option<int>)
    ensures r.Some? ==> |s| > 0
  {
    if |s| > 1 && s[0] == '-' && AllDigits(s[1..]) then Some(-(ParseDigits(s[1..]) as int))
    else if |s| > 0 && AllDigits(s) then Some(ParseDigits(s))
    else None
  }

  /** Rendering then parsing an integer is the identity. */
  lemma DecimalRoundTrip(n: int)
    ensures ParseDecimal(IntToDecimal(n)) == Some(n)
  {
    var s := IntToDecimal(n);
    if n < 0 {
      assert s[1..] == NatToDecimal(-n);
      ParseNatToDecimal(-n);
    } else {
      assert !IsDigit('-');
      ParseNatToDecimal(n);
    }
  }

  /** Two integers render to the same text exactly when they are equal. */
  lemma DecimalInjective(a: int, b: int)
    ensures IntToDecimal(a) == IntToDecimal(b) <==> a == b
  {
    DecimalRoundTrip(a);
    DecimalRoundTrip(b);
  }
}
