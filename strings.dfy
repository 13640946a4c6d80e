/**
 * Decimal text of integers, as JavaScript produces it when an integer id is
 * interpolated into a template literal (`${org_id}`, `${this.pwd_id}`), and
 * the parse that reads such text back. `IntToString` matches JavaScript's
 * text for every safe integer (magnitude at most 2^53 - 1,
 * `Number.MAX_SAFE_INTEGER`); some larger numbers print their shortest
 * round-tripping digits padded with zeros, so 2^60 prints as
 * 1152921504606847000.
 */
module Strings {
  import opened Wrappers

  predicate IsDigit(c: char) {
    '0' <= c <= '9'
  }

  predicate AllDigits(s: string) {
    forall i :: 0 <= i < |s| ==> IsDigit(s[i])
  }

  function DigitChar(d: nat): (c: char)
    requires d < 10
    ensures IsDigit(c)
  {
    ('0' as int + d) as char
  }

  function DigitValue(c: char): (d: nat)
    requires IsDigit(c)
    ensures d < 10 && DigitChar(d) == c
  {
    c as int - '0' as int
  }

  /** The value of a string of decimal digits, most significant first. */
  function DigitsValue(s: string): nat
    requires AllDigits(s)
    decreases |s|
  {
    if |s| == 0 then 0 else DigitsValue(s[..|s| - 1]) * 10 + DigitValue(s[|s| - 1])
  }

  /** Decimal digits without a leading zero (except "0" itself). */
  predicate Canonical(s: string) {
    |s| > 0 && AllDigits(s) && (|s| > 1 ==> s[0] != '0')
  }

  function NatToString(n: nat): (s: string)
    ensures |s| > 0
    decreases n
  {
    if n < 10 then [DigitChar(n)] else NatToString(n / 10) + [DigitChar(n % 10)]
  }

  /** `String(i)` for an integer `i`: a minus sign for negatives, then the digits. */
  function IntToString(i: int): (s: string)
    ensures |s| > 0
  {
    if i < 0 then "-" + NatToString(-i) else NatToString(i)
  }

  /** Reads back exactly the strings IntToString produces; anything else is None. */
  function ParseInt(s: string): Option<int> {
    if |s| > 0 && s[0] == '-' then
      var magnitude: int := if AllDigits(s[1..]) then DigitsValue(s[1..]) else 0;
      if Canonical(s[1..]) && magnitude > 0 then Some(-magnitude) else None
    else if Canonical(s) then Some(DigitsValue(s))
    else None
  }

  lemma {:induction false} NatToStringCanonical(n: nat)
    ensures Canonical(NatToString(n)) && DigitsValue(NatToString(n)) == n
    decreases n
  {
    if n >= 10 {
      NatToStringCanonical(n / 10);
      var s := NatToString(n / 10);
      var t := NatToString(n);
      assert t == s + [DigitChar(n % 10)];
      assert t[..|t| - 1] == s;
      assert t[0] == s[0];
    }
  }

  lemma {:induction false} LeadingNonzeroIsPositive(s: string)
    requires |s| > 0 && AllDigits(s) && s[0] != '0'
    ensures DigitsValue(s) > 0
    decreases |s|
  {
    var p := s[..|s| - 1];
    if |s| > 1 {
      assert p[0] == s[0];
      LeadingNonzeroIsPositive(p);
    } else {
      assert p == [];
    }
  }

  lemma {:induction false} CanonicalIsNatToString(s: string)
    requires Canonical(s)
    ensures NatToString(DigitsValue(s)) == s
    decreases |s|
  {
    var p := s[..|s| - 1];
    var d := DigitValue(s[|s| - 1]);
    if |s| == 1 {
      assert p == [];
      assert s == [s[0]];
    } else {
      assert p[0] == s[0];
      assert Canonical(p);
      LeadingNonzeroIsPositive(p);
      CanonicalIsNatToString(p);
      var v := DigitsValue(s);
      assert v == DigitsValue(p) * 10 + d;
      assert v / 10 == DigitsValue(p) && v % 10 == d;
      assert s == p + [s[|s| - 1]];
    }
  }

  /** Reading back the text of an integer gives that integer. */
  lemma ParseIntToString(i: int)
    ensures ParseInt(IntToString(i)) == Some(i)
  {
    if i < 0 {
      var t := NatToString(-i);
      NatToStringCanonical(-i);
      assert IntToString(i)[1..] == t;
    } else {
      NatToStringCanonical(i);
    }
  }

  /** Every string ParseInt accepts is the text of the integer it yields. */
  lemma ToStringParseInt(s: string)
    requires ParseInt(s).Some?
    ensures IntToString(ParseInt(s).value) == s
  {
    if |s| > 0 && s[0] == '-' {
      CanonicalIsNatToString(s[1..]);
      assert s == "-" + s[1..];
    } else {
      CanonicalIsNatToString(s);
    }
  }

  /** Distinct integers have distinct texts. */
  lemma IntToStringInjective(a: int, b: int)
    ensures IntToString(a) == IntToString(b) <==> a == b
  {
    ParseIntToString(a);
    ParseIntToString(b);
  }

  /** Stripping a literal prefix: `(p + s)[|p|..] == s`, and equal such strings have equal tails. */
  lemma PrefixCancel(p: string, s: string, t: string)
    ensures (p + s)[|p|..] == s
    ensures p + s == p + t <==> s == t
  {
  }
}
