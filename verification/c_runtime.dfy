/** The small part of the C runtime the converter relies on: nullable
    values, the <ctype.h> classifications it calls in the "C" locale, and
    atoi from <stdlib.h>.  Characters stand for the bytes of the C strings. */
module CRuntime {

  /** A nullable value: None plays the part of a NULL char pointer. */
  datatype Option<+T> = None | Some(value: T) {
    function GetOr(default: T): T {
      match this
      case Some(v) => v
      case None => default
    }
  }

  /** isalpha in the "C" locale. */
  predicate IsAlpha(c: char) {
    'A' <= c <= 'Z' || 'a' <= c <= 'z'
  }

  /** toupper in the "C" locale: only 'a'..'z' change. */
  function ToUpper(c: char): (r: char)
    ensures 'a' <= c <= 'z' ==> r as int == c as int - 32
    ensures !('a' <= c <= 'z') ==> r == c
  {
    if 'a' <= c <= 'z' then (c as int - 32) as char else c
  }

  predicate IsDigit(c: char) {
    '0' <= c <= '9'
  }

  /** isspace in the "C" locale: space, \t, \n, \v, \f, \r. */
  predicate IsSpace(c: char) {
    c == ' ' || '\t' <= c <= '\r'
  }

  /** A C string: every character is one byte. */
  predicate IsBytes(s: string) {
    forall i :: 0 <= i < |s| ==> s[i] as int < 256
  }

  predicate AllDigits(s: string) {
    forall i :: 0 <= i < |s| ==> IsDigit(s[i])
  }

  /** The value of a string of decimal digits, most significant first. */
  function Decimal(p: string): (n: nat)
    requires AllDigits(p)
    decreases |p|
  {
    if p == [] then 0
    else Decimal(p[..|p| - 1]) * 10 + (p[|p| - 1] as int - '0' as int)
  }

  /** The number of leading characters of s that satisfy IsDigit. */
  function DigitCount(s: string): (k: nat)
    ensures k <= |s|
    ensures AllDigits(s[..k])
    ensures k == |s| || !IsDigit(s[k])
  {
    if |s| > 0 && IsDigit(s[0]) then
      var k' := DigitCount(s[1..]);
      assert s[..k' + 1] == [s[0]] + s[1..][..k'];
      k' + 1
    else 0
  }

  /** The number of leading characters of s that satisfy IsSpace. */
  function SpaceCount(s: string): (k: nat)
    ensures k <= |s|
    ensures k == |s| || !IsSpace(s[k])
  {
    if |s| > 0 && IsSpace(s[0]) then SpaceCount(s[1..]) + 1 else 0
  }

  /** atoi: skip leading white space, read an optional sign, then as many
      decimal digits as follow; no digits at all give 0.  (Overflow of a C
      int is undefined behaviour and is not modelled.) */
  function Atoi(s: string): int {
    var t := s[SpaceCount(s)..];
    if |t| > 0 && (t[0] == '-' || t[0] == '+') then
      var u := t[1..];
      var v: int := Decimal(u[..DigitCount(u)]);
      if t[0] == '-' then -v else v
    else
      Decimal(t[..DigitCount(t)])
  }

  /** The canonical decimal spelling of n (no sign, no leading zeros). */
  function DecimalString(n: nat): (s: string)
    ensures |s| > 0 && AllDigits(s)
    decreases n
  {
    var d := ('0' as int + n % 10) as char;
    if n < 10 then [d] else DecimalString(n / 10) + [d]
  }

  lemma {:induction false} DecimalOfDecimalString(n: nat)
    ensures Decimal(DecimalString(n)) == n
    decreases n
  {
    var s := DecimalString(n);
    if n >= 10 {
      DecimalOfDecimalString(n / 10);
      assert s[..|s| - 1] == DecimalString(n / 10);
    }
  }

  /** atoi reads back what DecimalString writes, whatever non-digit text
      follows it. */
  lemma AtoiDecimalString(n: nat, rest: string)
    requires rest == [] || !IsDigit(rest[0])
    ensures Atoi(DecimalString(n) + rest) == n
  {
    var d := DecimalString(n);
    var s := d + rest;
    assert s[0] == d[0];
    assert SpaceCount(s) == 0;
    assert s[0..] == s;
    DigitCountOfPrefix(d, rest);
    assert s[..|d|] == d;
    DecimalOfDecimalString(n);
  }

  lemma {:induction false} DigitCountOfPrefix(d: string, rest: string)
    requires AllDigits(d)
    requires rest == [] || !IsDigit(rest[0])
    ensures DigitCount(d + rest) == |d|
    decreases |d|
  {
    if |d| > 0 {
      assert (d + rest)[1..] == d[1..] + rest;
      DigitCountOfPrefix(d[1..], rest);
    } else {
      assert d + rest == rest;
    }
  }
}
