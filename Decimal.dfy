/** Decimal rendering of an integer, as a JavaScript template literal renders
    `${n}` for an integral number of magnitude below 10^21 (larger ones are
    written with an exponent), and the reader that parses it back. */
module Decimal {
  import opened Wrappers

  predicate IsDigit(c: char) {
    '0' <= c <= '9'
  }

  predicate AllDigits(s: string) {
    forall i | 0 <= i < |s| :: IsDigit(s[i])
  }

  function DigitChar(d: nat): (c: char)
    requires d < 10
    ensures IsDigit(c) && DigitValue(c) == d
  {
    ('0' as int + d) as char
  }

  function DigitValue(c: char): (d: nat)
    requires IsDigit(c)
    ensures d < 10
  {
    c as int - '0' as int
  }

  /** The decimal digits of `n`, most significant first, without leading zeros. */
  function NatString(n: nat): (s: string)
    ensures Canonical(s)
    ensures (|s| == 1) == (n < 10)
  {
    if n < 10 then [DigitChar(n)] else NatString(n / 10) + [DigitChar(n % 10)]
  }

  /** A digit string as `${n}` writes a natural number: at least one digit and
      no leading zero. */
  predicate Canonical(s: string) {
    |s| > 0 && AllDigits(s) && (|s| > 1 ==> s[0] != '0')
  }

  /** `${n}` for an integral `n` with |n| < 10^21: a minus sign for negative
      numbers, then the digits of |n|. */
  function IntString(n: int): (s: string)
    ensures |s| > 0 && '\n' !in s && ' ' !in s
    ensures (n < 0) == (s[0] == '-')
  {
    if n < 0 then "-" + NatString(-n) else NatString(n)
  }

  /** The value of a string of decimal digits. */
  function DigitsValue(s: string): nat
    requires AllDigits(s)
  {
    if s == [] then 0 else DigitsValue(s[..|s| - 1]) * 10 + DigitValue(s[|s| - 1])
  }

  /** The length of the run of digits at the front of `s`. */
  function DigitRun(s: string): (k: nat)
    ensures k <= |s| && AllDigits(s[..k])
    ensures k < |s| ==> !IsDigit(s[k])
  {
    if s == [] || !IsDigit(s[0]) then 0 else 1 + DigitRun(s[1..])
  }

  /** Reads the number at the front of `s` and returns it with the text that
      follows; None when `s` does not start with a digit or the digits have a
      leading zero, which `${n}` never writes. */
  function TakeNat(s: string): (r: Option<(nat, string)>)
    ensures r.Some? ==> |r.value.1| < |s| && s[|s| - |r.value.1|..] == r.value.1
  {
    var k := DigitRun(s);
    if k == 0 || (k > 1 && s[0] == '0') then None else Some((DigitsValue(s[..k]), s[k..]))
  }

  /** Reads an integer as `${n}` writes it from the front of `s` and returns it
      with the text that follows; None when no such integer is there. */
  function TakeInt(s: string): (r: Option<(int, string)>)
    ensures r.Some? ==> |r.value.1| < |s| && s[|s| - |r.value.1|..] == r.value.1
  {
    if |s| > 0 && s[0] == '-' then
      match TakeNat(s[1..])
      case None => None
      case Some((v, rest)) => if v == 0 then None else Some((0 - v, rest))
    else
      match TakeNat(s)
      case None => None
      case Some((v, rest)) => Some((v as int, rest))
  }

  lemma {:induction false} NatStringValue(n: nat)
    ensures DigitsValue(NatString(n)) == n
  {
    if n >= 10 {
      var s := NatString(n);
      assert s[..|s| - 1] == NatString(n / 10);
      NatStringValue(n / 10);
    }
  }

  lemma {:induction false} DigitRunConcat(digits: string, rest: string)
    requires AllDigits(digits)
    requires rest == [] || !IsDigit(rest[0])
    ensures DigitRun(digits + rest) == |digits|
  {
    if digits != [] {
      assert (digits + rest)[1..] == digits[1..] + rest;
      DigitRunConcat(digits[1..], rest);
    } else {
      assert digits + rest == rest;
    }
  }

  lemma TakeNatString(n: nat, rest: string)
    requires rest == [] || !IsDigit(rest[0])
    ensures TakeNat(NatString(n) + rest) == Some((n, rest))
  {
    var d := NatString(n);
    DigitRunConcat(d, rest);
    assert (d + rest)[..|d|] == d;
    assert (d + rest)[|d|..] == rest;
    NatStringValue(n);
  }

  /** Reading back the rendering of `n` gives `n` and the text after it,
      provided that text does not continue the number. */
  lemma TakeIntString(n: int, rest: string)
    requires rest == [] || !IsDigit(rest[0])
    ensures TakeInt(IntString(n) + rest) == Some((n, rest))
  {
    if n < 0 {
      TakeNegativeString(n, rest);
    } else {
      TakeNonNegativeString(n, rest);
    }
  }

  lemma TakeNegativeString(n: int, rest: string)
    requires n < 0 && (rest == [] || !IsDigit(rest[0]))
    ensures TakeInt(IntString(n) + rest) == Some((n, rest))
  {
    var t := NatString(-n) + rest;
    var s := "-" + t;
    assert IntString(n) + rest == s;
    assert |s| > 0 && s[0] == '-' && s[1..] == t;
    TakeNatString(-n, rest);
    assert TakeNat(s[1..]) == Some((-n, rest));
  }

  lemma TakeNonNegativeString(n: int, rest: string)
    requires n >= 0 && (rest == [] || !IsDigit(rest[0]))
    ensures TakeInt(IntString(n) + rest) == Some((n, rest))
  {
    var d := NatString(n);
    assert (d + rest)[0] == d[0] && IsDigit(d[0]);
    TakeNatString(n, rest);
  }

  lemma {:induction false} CanonicalPositive(d: string)
    requires Canonical(d) && d[0] != '0'
    ensures DigitsValue(d) > 0
  {
    if |d| > 1 {
      CanonicalPositive(d[..|d| - 1]);
    }
  }

  /** Rendering the value of a canonical digit string gives the string back. */
  lemma {:induction false} NatStringOfValue(d: string)
    requires Canonical(d)
    ensures NatString(DigitsValue(d)) == d
  {
    var v := DigitsValue(d);
    if |d| == 1 {
      assert d[..0] == [] && DigitsValue([]) == 0;
      assert v == DigitsValue(d[..0]) * 10 + DigitValue(d[0]);
      assert DigitChar(v) == d[0];
    } else {
      var init := d[..|d| - 1];
      CanonicalPositive(init);
      NatStringOfValue(init);
      assert v / 10 == DigitsValue(init) && v % 10 == DigitValue(d[|d| - 1]);
      assert DigitChar(v % 10) == d[|d| - 1];
      assert d == init + [d[|d| - 1]];
    }
  }

  lemma TakeNatSound(s: string)
    requires TakeNat(s).Some?
    ensures s == NatString(TakeNat(s).value.0) + TakeNat(s).value.1
  {
    var k := DigitRun(s);
    NatStringOfValue(s[..k]);
    assert s == s[..k] + s[k..];
  }

  /** Whatever `TakeInt` accepts is the rendering of the number it returns. */
  lemma TakeIntSound(s: string)
    requires TakeInt(s).Some?
    ensures s == IntString(TakeInt(s).value.0) + TakeInt(s).value.1
  {
    if |s| > 0 && s[0] == '-' {
      TakeNatSound(s[1..]);
      assert s == "-" + s[1..];
    } else {
      TakeNatSound(s);
    }
  }
}
