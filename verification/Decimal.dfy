/** Decimal printing and parsing of numbers, as QString::number and QString::toInt do it. */
module Decimal {
  import opened Text

  function Digit(d: nat): (c: char)
    requires d < 10
    ensures '0' <= c <= '9'
  {
    ('0' as int + d) as char
  }

  predicate IsDigit(c: char) {
    '0' <= c <= '9'
  }

  function Print(n: nat): (s: string)
    ensures |s| >= 1
    ensures forall i :: 0 <= i < |s| ==> IsDigit(s[i])
  {
    if n < 10 then [Digit(n)] else Print(n / 10) + [Digit(n % 10)]
  }

  predicate AllDigits(s: string) {
    forall i :: 0 <= i < |s| ==> IsDigit(s[i])
  }

  function Value(s: string): nat
    requires AllDigits(s)
  {
    if s == "" then 0
    else 10 * Value(s[..|s| - 1]) + (s[|s| - 1] as int - '0' as int)
  }

  lemma {:induction false} PrintValue(n: nat)
    ensures Value(Print(n)) == n
  {
    var s := Print(n);
    if n < 10 {
      assert s[..0] == "";
    } else {
      PrintValue(n / 10);
      assert s[..|s| - 1] == Print(n / 10);
    }
  }

  /** Decimal printing is injective: no two positions share an id built from it. */
  lemma {:induction false} PrintInjective(a: nat, b: nat)
    requires Print(a) == Print(b)
    ensures a == b
  {
    PrintValue(a);
    PrintValue(b);
  }

  const INT_MAX := 0x7FFF_FFFF

  /** QString::toInt in base 10: optional white space and sign; 0 when malformed or out of range. */
  function ToInt(s: string): int {
    var t := Trim(s);
    var negative := t != "" && t[0] == '-';
    var digits := if t != "" && (t[0] == '-' || t[0] == '+') then t[1..] else t;
    if digits == "" || !AllDigits(digits) then 0
    else
      var v := if negative then -(Value(digits) as int) else Value(digits);
      if -INT_MAX - 1 <= v <= INT_MAX then v else 0
  }

  /** static_cast<quint16>. */
  function ToUint16(v: int): (p: nat)
    ensures p < 0x1_0000
  {
    v % 0x1_0000
  }

  lemma {:induction false} ToIntOfPrint(n: nat)
    requires n <= INT_MAX
    ensures ToInt(Print(n)) == n
  {
    var s := Print(n);
    assert IsDigit(s[0]) && IsDigit(s[|s| - 1]);
    TrimFixes(s);
    PrintValue(n);
  }

  /** A port out of range wraps round. */
  lemma {:induction false} PortWraps(n: nat)
    requires n <= INT_MAX
    ensures ToUint16(ToInt(Print(n))) == n % 65536
  {
    ToIntOfPrint(n);
    hide Print, ToInt;
  }

  /** A port that is no number is 0. */
  lemma {:induction false} WordsAreZero(s: string, c: char)
    requires c in s && !IsDigit(c) && !IsSpace(c) && c != '-' && c != '+'
    ensures ToInt(s) == 0 && ToUint16(ToInt(s)) == 0
  {
    TrimShape(s);
    var t := Trim(s);
    hide Trim, Value;
    assert c in t;
    var digits := if t != "" && (t[0] == '-' || t[0] == '+') then t[1..] else t;
    assert c in digits;
  }
}
