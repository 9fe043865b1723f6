/** Decimal numbers as Go's strconv prints and reads them. */
module Decimal {
  import opened Wrappers
  import opened Entities

  predicate IsDigit(c: char) { '0' <= c <= '9' }

  predicate Digits(s: string) { forall i :: 0 <= i < |s| ==> IsDigit(s[i]) }

  function DigitOf(n: nat): (c: char)
    requires n < 10
    ensures IsDigit(c) && DigitValue(c) == n
  {
    ('0' as int + n) as char
  }

  function DigitValue(c: char): nat
    requires IsDigit(c)
  {
    c as int - '0' as int
  }

  function FormatUint(n: nat): (s: string)
    ensures s != "" && Digits(s)
    ensures s[0] == '0' ==> s == "0"
  {
    if n < 10 then [DigitOf(n)] else FormatUint(n / 10) + [DigitOf(n % 10)]
  }

  function ValueOf(s: string): (n: int)
    requires Digits(s)
    ensures n >= 0
  {
    if s == "" then 0 else 10 * ValueOf(s[..|s| - 1]) + DigitValue(s[|s| - 1])
  }

  lemma {:induction false} FormatReadsBack(n: nat)
    ensures ValueOf(FormatUint(n)) == n
  {
    var s := FormatUint(n);
    if n < 10 {
      assert s[..|s| - 1] == "";
    } else {
      FormatReadsBack(n / 10);
      assert s[..|s| - 1] == FormatUint(n / 10);
    }
  }

  function Itoa(n: int): string { if n < 0 then "-" + FormatUint(-n) else FormatUint(n) }

  // strconv.ParseUint(s, 10, 64): digits only, in range.
  function ParseUint(s: string): Option<u64> {
    if s != "" && Digits(s) && ValueOf(s) < TWO64 then Some(ValueOf(s)) else None
  }

  // strconv.Atoi: an optional sign, digits, in range.
  function Atoi(s: string): Option<i64> {
    var signed := s != "" && (s[0] == '-' || s[0] == '+');
    var digits := if signed then s[1..] else s;
    if digits == "" || !Digits(digits) then None
    else
      var v: int := if signed && s[0] == '-' then -ValueOf(digits) else ValueOf(digits);
      if -TWO63 <= v < TWO63 then Some(v) else None
  }

  // The number a text of an optional sign and digits stands for.
  predicate StandsFor(s: string, n: int) {
    || (s != "" && Digits(s) && n == ValueOf(s))
    || (|s| > 1 && s[0] == '+' && Digits(s[1..]) && n == ValueOf(s[1..]))
    || (|s| > 1 && s[0] == '-' && Digits(s[1..]) && n == -ValueOf(s[1..]))
  }

  /** Signed numbers of 64 bits are read, leading zeros and a plus sign included, and nothing else is. */
  lemma AtoiReads(s: string, n: int)
    ensures Atoi(s) == Some(n) <==> StandsFor(s, n) && -0x8000_0000_0000_0000 <= n < 0x8000_0000_0000_0000
  {
    if s != "" { assert s[0] == '-' || s[0] == '+' ==> !IsDigit(s[0]); }
  }

  lemma ParseUintInvertsFormat(n: u64)
    ensures ParseUint(FormatUint(n)) == Some(n)
  {
    FormatReadsBack(n);
  }

  lemma AtoiInvertsItoa(n: i64)
    ensures Atoi(Itoa(n)) == Some(n)
  {
    if n < 0 {
      var m: int := n;
      FormatReadsBack(-m);
      assert Itoa(n)[1..] == FormatUint(-m);
    } else {
      FormatReadsBack(n);
      assert IsDigit(Itoa(n)[0]);
    }
  }
}
