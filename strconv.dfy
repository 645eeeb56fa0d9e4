/** Unsigned decimal conversions: Go's strconv.ParseUint with base 10 (error
    dropped, as the parser does) and the decimal printing done by text/template. */
module Strconv {

  const MaxUint32: nat := 0xFFFF_FFFF
  const MaxUint64: nat := 0xFFFF_FFFF_FFFF_FFFF

  /** Go's uint and uint64 (uint is taken to be 64 bits wide). */
  type uint64 = n: nat | n <= 0xFFFF_FFFF_FFFF_FFFF

  predicate IsDecimalDigit(c: char) {
    '0' <= c <= '9'
  }

  function DigitValue(c: char): nat
    requires IsDecimalDigit(c)
  {
    (c as int) - ('0' as int)
  }

  function DigitChar(d: nat): char
    requires d < 10
  {
    (('0' as int) + d) as char
  }

  /** The value of a digit string read left to right, starting from acc. */
  function DecimalFrom(s: string, acc: nat): nat
    requires forall i :: 0 <= i < |s| ==> IsDecimalDigit(s[i])
  {
    if s == [] then acc else DecimalFrom(s[1..], acc * 10 + DigitValue(s[0]))
  }

  /** The mathematical value of a digit string. */
  function DecimalValue(s: string): nat
    requires forall i :: 0 <= i < |s| ==> IsDecimalDigit(s[i])
  {
    DecimalFrom(s, 0)
  }

  /** strconv.ParseUint(s, 10, bitSize) where max == 2^bitSize - 1, with the
      error ignored: an empty string or a character that is not a digit gives
      0 (a syntax error), a value that exceeds max gives max (a range error).
      The checks are made character by character, as Go makes them. */
  function ParseUint(s: string, max: nat): (n: nat)
    ensures n <= max
  {
    if s == [] then 0 else Accumulate(s, 0, max)
  }

  function Accumulate(s: string, acc: nat, max: nat): (n: nat)
    requires acc <= max
    ensures n <= max
  {
    if s == [] then acc
    else if !IsDecimalDigit(s[0]) then 0
    else
      var next := acc * 10 + DigitValue(s[0]);
      if next > max then max else Accumulate(s[1..], next, max)
  }

  /** The decimal text of n, as fmt prints an unsigned integer. */
  function FormatUint(n: nat): (s: string)
    ensures |s| > 0 && forall i :: 0 <= i < |s| ==> IsDecimalDigit(s[i])
  {
    if n < 10 then [DigitChar(n)] else FormatUint(n / 10) + [DigitChar(n % 10)]
  }

  lemma {:induction false} DecimalFromGrows(s: string, acc: nat)
    requires forall i :: 0 <= i < |s| ==> IsDecimalDigit(s[i])
    ensures DecimalFrom(s, acc) >= acc
  {
    if s != [] {
      DecimalFromGrows(s[1..], acc * 10 + DigitValue(s[0]));
    }
  }

  lemma {:induction false} AccumulateSaturates(s: string, acc: nat, max: nat)
    requires forall i :: 0 <= i < |s| ==> IsDecimalDigit(s[i])
    requires acc <= max
    ensures Accumulate(s, acc, max) == if DecimalFrom(s, acc) > max then max else DecimalFrom(s, acc)
  {
    if s != [] {
      var next := acc * 10 + DigitValue(s[0]);
      if next > max {
        DecimalFromGrows(s[1..], next);
      } else {
        AccumulateSaturates(s[1..], next, max);
      }
    }
  }

  /** On a digit run, ParseUint is the value saturated at max. */
  lemma ParseUintOfDigits(s: string, max: nat)
    requires |s| > 0 && forall i :: 0 <= i < |s| ==> IsDecimalDigit(s[i])
    ensures ParseUint(s, max) == if DecimalValue(s) > max then max else DecimalValue(s)
  {
    AccumulateSaturates(s, 0, max);
  }

  lemma {:induction false} DecimalFromAppend(s: string, c: char, acc: nat)
    requires forall i :: 0 <= i < |s| ==> IsDecimalDigit(s[i])
    requires IsDecimalDigit(c)
    ensures DecimalFrom(s + [c], acc) == DecimalFrom(s, acc) * 10 + DigitValue(c)
  {
    if s != [] {
      assert (s + [c])[1..] == s[1..] + [c];
      DecimalFromAppend(s[1..], c, acc * 10 + DigitValue(s[0]));
    } else {
      assert s + [c] == [c];
    }
  }

  /** FormatUint prints exactly the value. */
  lemma {:induction false} FormatUintValue(n: nat)
    ensures DecimalValue(FormatUint(n)) == n
  {
    if n >= 10 {
      FormatUintValue(n / 10);
      DecimalFromAppend(FormatUint(n / 10), DigitChar(n % 10), 0);
      assert DigitValue(DigitChar(n % 10)) == n % 10;
    } else {
      var s := FormatUint(n);
      assert s == [DigitChar(n)];
      assert DigitValue(s[0]) == n;
      assert s[1..] == [];
      assert DecimalFrom(s, 0) == DecimalFrom(s[1..], DigitValue(s[0]));
    }
  }

  /** Printing a value that fits and parsing it back gives the value. */
  lemma ParseFormatRoundTrip(n: nat, max: nat)
    requires n <= max
    ensures ParseUint(FormatUint(n), max) == n
  {
    FormatUintValue(n);
    ParseUintOfDigits(FormatUint(n), max);
  }

  /** A value too large for the width saturates instead of wrapping. */
  lemma ParseUintOverflow(n: nat, max: nat)
    requires n > max
    ensures ParseUint(FormatUint(n), max) == max
  {
    FormatUintValue(n);
    ParseUintOfDigits(FormatUint(n), max);
  }
}
