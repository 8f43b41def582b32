/**
 * Decimal numerals: how a number is written as text (`String(n)`, `n.toString()`)
 * and read back. Object ids are modelled as natural numbers, so this is also the
 * codec behind `id.toString()` and a route parameter naming an id.
 */
module Decimal {
  import opened Wrappers
  import opened Text

  function DigitChar(d: nat): (c: char)
    requires d < 10
    ensures IsDigit(c)
  {
    "0123456789"[d]
  }

  function DigitValue(c: char): (d: nat)
    requires IsDigit(c)
    ensures d < 10
  {
    c as int - '0' as int
  }

  lemma DigitRoundTrip(d: nat)
    requires d < 10
    ensures DigitValue(DigitChar(d)) == d
  {
  }

  predicate AllDigits(s: string) {
    forall i :: 0 <= i < |s| ==> IsDigit(s[i])
  }

  /** A string of digits holds no other character. */
  lemma DigitsExclude(s: string, c: char)
    requires AllDigits(s) && !IsDigit(c)
    ensures c !in s
  {
  }

  /** `String(n)` for a natural number: no sign, no leading zero. */
  function NatToString(n: nat): (s: string)
    ensures |s| > 0 && AllDigits(s)
    ensures |s| > 1 ==> s[0] != '0'
  {
    if n < 10 then [DigitChar(n)] else NatToString(n / 10) + [DigitChar(n % 10)]
  }

  /** `String(n)` for any integer: a minus sign before the digits of a negative number. */
  function IntToString(n: int): (s: string)
    ensures |s| > 0
  {
    if n < 0 then "-" + NatToString(-n) else NatToString(n)
  }

  /** The value of a string of digits. */
  function DigitsValue(s: string): nat
    requires AllDigits(s)
  {
    if s == [] then 0 else DigitsValue(s[..|s| - 1]) * 10 + DigitValue(s[|s| - 1])
  }

  /** A string that names a natural number: one or more digits and nothing else. */
  function ParseNat(s: string): (r: Option<nat>)
    ensures r.Some? <==> (|s| > 0 && AllDigits(s))
  {
    if |s| > 0 && AllDigits(s) then Some(DigitsValue(s)) else None
  }

  /** Reading back what `NatToString` wrote gives the number. */
  lemma {:induction false} ParseNatToString(n: nat)
    ensures ParseNat(NatToString(n)) == Some(n)
  {
    var s := NatToString(n);
    if n < 10 {
      DigitRoundTrip(n);
      assert s[..|s| - 1] == [];
      assert DigitsValue(s) == DigitValue(s[0]);
    } else {
      ParseNatToString(n / 10);
      assert s[..|s| - 1] == NatToString(n / 10);
      DigitRoundTrip(n % 10);
    }
  }

  /** Two numbers are written the same way only if they are equal, so comparing
      `a.toString()` with `b.toString()` compares the ids. */
  lemma NatToStringInjective(a: nat, b: nat)
    ensures NatToString(a) == NatToString(b) <==> a == b
  {
    if NatToString(a) == NatToString(b) {
      ParseNatToString(a);
      ParseNatToString(b);
    }
  }

  /** An integer numeral: an optional minus sign and one or more digits
      (what `Number(text)` accepts among the forms this model covers). */
  function ParseInt(s: string): Option<int> {
    if |s| > 0 && s[0] == '-' then
      match ParseNat(s[1..])
      case Some(n) => Some(-(n as int))
      case None => None
    else
      match ParseNat(s)
      case Some(n) => Some(n as int)
      case None => None
  }

  /** Reading back what `IntToString` wrote gives the number. */
  lemma ParseIntToString(n: int)
    ensures ParseInt(IntToString(n)) == Some(n)
  {
    if n < 0 {
      ParseNegative(n);
    } else {
      ParseNonNegative(n);
    }
  }

  lemma ParseNegative(n: int)
    requires n < 0
    ensures ParseInt(IntToString(n)) == Some(n)
  {
    ParseNatToString(-n);
    MinusSign(NatToString(-n));
  }

  /** A minus sign before a natural numeral negates it. */
  lemma MinusSign(t: string)
    requires ParseNat(t).Some?
    ensures ParseInt("-" + t) == Some(-(ParseNat(t).value as int))
  {
    assert ("-" + t)[1..] == t;
  }

  lemma ParseNonNegative(n: int)
    requires n >= 0
    ensures ParseInt(IntToString(n)) == Some(n)
  {
    var s := IntToString(n);
    assert s == NatToString(n);
    ParseNatToString(n);
    assert IsDigit(s[0]);
  }

  // ----- `Number(text)` -----

  /** The value of a digit in bases up to 36: 0-9, then a-z or A-Z; 36 for any other
      character. */
  function RadixDigitValue(c: char): (d: nat)
    ensures d <= 36
  {
    if IsDigit(c) then DigitValue(c)
    else if 'a' <= c <= 'z' then c as int - 'a' as int + 10
    else if 'A' <= c <= 'Z' then c as int - 'A' as int + 10
    else 36
  }

  predicate AllRadixDigits(s: string, base: nat) {
    forall i :: 0 <= i < |s| ==> RadixDigitValue(s[i]) < base
  }

  function RadixValue(s: string, base: nat): nat
    requires AllRadixDigits(s, base)
  {
    if s == [] then 0 else RadixValue(s[..|s| - 1], base) * base + RadixDigitValue(s[|s| - 1])
  }

  /** One or more digits of the base and nothing else. */
  function ParseRadix(s: string, base: nat): (r: Option<nat>)
    ensures r.Some? <==> |s| > 0 && AllRadixDigits(s, base)
  {
    if |s| > 0 && AllRadixDigits(s, base) then Some(RadixValue(s, base)) else None
  }

  /** The base a `0x`, `0o` or `0b` prefix names (either case), or 0 for no prefix. */
  function PrefixBase(t: string): (base: nat)
    ensures base == 0 || base == 16 || base == 8 || base == 2
  {
    if |t| >= 2 && t[0] == '0' then
      if t[1] == 'x' || t[1] == 'X' then 16
      else if t[1] == 'o' || t[1] == 'O' then 8
      else if t[1] == 'b' || t[1] == 'B' then 2
      else 0
    else 0
  }

  /** `Number(text)` on the integer numerals. The text is trimmed; blank text is 0;
      otherwise an unsigned `0x`/`0o`/`0b` numeral, or decimal digits after an optional
      `+` or `-`. `None` stands for NaN and for the numerals with a fraction or an
      exponent, and `Infinity`, which are not integers. */
  function NumberOfText(s: string): (r: Option<int>)
    ensures Trim(s) == "" ==> r == Some(0)
  {
    var t := Trim(s);
    if t == "" then Some(0)
    else if PrefixBase(t) != 0 then
      match ParseRadix(t[2..], PrefixBase(t))
      case Some(n) => Some(n as int)
      case None => None
    else if t[0] == '+' then
      match ParseNat(t[1..])
      case Some(n) => Some(n as int)
      case None => None
    else ParseInt(t)
  }

  /** `Number(String(n))` is `n`, and white space around the numeral does not matter. */
  lemma NumberOfIntText(n: int, pad: string)
    requires forall i :: 0 <= i < |pad| ==> IsSpace(pad[i])
    ensures NumberOfText(pad + IntToString(n) + pad) == Some(n)
  {
    var s := IntToString(n);
    TrimPadded(pad, s);
    ParseIntToString(n);
    assert PrefixBase(s) == 0 by {
      if n >= 0 {
        assert IsDigit(s[0]);
        if |s| >= 2 { assert IsDigit(s[1]); }
      }
    }
  }

  lemma TrimPadded(pad: string, s: string)
    requires forall i :: 0 <= i < |pad| ==> IsSpace(pad[i])
    requires |s| > 0 && !IsSpace(s[0]) && !IsSpace(s[|s| - 1])
    ensures Trim(pad + s + pad) == s
  {
    TrimStartPad(pad, s + pad);
    assert pad + s + pad == pad + (s + pad);
    TrimEndPad(s, pad);
  }

  lemma {:induction false} TrimStartPad(pad: string, s: string)
    requires forall i :: 0 <= i < |pad| ==> IsSpace(pad[i])
    requires |s| > 0 && !IsSpace(s[0])
    ensures TrimStart(pad + s) == s
  {
    if pad != [] {
      assert (pad + s)[1..] == pad[1..] + s;
      TrimStartPad(pad[1..], s);
    }
  }

  lemma {:induction false} TrimEndPad(s: string, pad: string)
    requires forall i :: 0 <= i < |pad| ==> IsSpace(pad[i])
    requires |s| > 0 && !IsSpace(s[|s| - 1])
    ensures TrimEnd(s + pad) == s
  {
    if pad != [] {
      assert (s + pad)[..|s + pad| - 1] == s + pad[..|pad| - 1];
      TrimEndPad(s, pad[..|pad| - 1]);
    }
  }
}
