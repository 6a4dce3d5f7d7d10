/** Bytes, and unsigned 64-bit numbers written in decimal. */
module Bytes {
  import opened Basics

  type Byte = b: int | 0 <= b < 256
  type Text = seq<Byte>

  const NUL: Byte := 0
  const TAB: Byte := 9
  const LF: Byte := 10
  const CR: Byte := 13
  const SPACE: Byte := 32
  const PLUS: Byte := 43
  const ZERO: Byte := 48
  const COLON: Byte := 58

  const MAX_U64: nat := 0xFFFF_FFFF_FFFF_FFFF

  /** The position of the first `b`, or the length when there is none. */
  function IndexOf(s: Text, b: Byte): (i: nat)
    ensures i <= |s| && b !in s[..i] && (i < |s| ==> s[i] == b)
  {
    if s == [] || s[0] == b then 0 else 1 + IndexOf(s[1..], b)
  }

  lemma {:induction false} IndexOfPlain(a: Text, b: Byte, c: Text)
    requires b !in a
    ensures IndexOf(a + [b] + c, b) == |a|
  {
    var s := a + [b] + c;
    assert s[|a|] == b;
    assert forall i :: 0 <= i < |a| ==> s[i] == a[i];
  }

  predicate IsDigit(b: Byte) {
    ZERO <= b <= ZERO + 9
  }

  predicate AllDigits(s: Text) {
    forall i :: 0 <= i < |s| ==> IsDigit(s[i])
  }

  function Value(digits: Text): nat
    requires AllDigits(digits)
  {
    if digits == [] then 0
    else
      var last := digits[|digits| - 1];
      assert IsDigit(last);
      Value(digits[..|digits| - 1]) * 10 + (last - ZERO)
  }

  /** An optional plus sign and one or more digits, if the number fits in 64 bits. */
  function ParseU64(s: Text): Option<nat> {
    var digits := if s != [] && s[0] == PLUS then s[1..] else s;
    if digits != [] && AllDigits(digits) && Value(digits) <= MAX_U64 then Some(Value(digits)) else None
  }

  function Print(n: nat): (s: Text)
    ensures s != [] && AllDigits(s)
  {
    if n < 10 then [ZERO + n] else Print(n / 10) + [ZERO + n % 10]
  }

  lemma {:induction false} PrintValue(n: nat)
    ensures Value(Print(n)) == n
  {
    if n >= 10 {
      PrintValue(n / 10);
      assert Print(n)[..|Print(n)| - 1] == Print(n / 10);
    }
  }

  /** Printing then parsing gives the number back exactly when it fits. */
  lemma PrintParse(n: nat)
    ensures ParseU64(Print(n)) == if n <= MAX_U64 then Some(n) else None
  {
    PrintValue(n);
    assert IsDigit(Print(n)[0]);
  }
}
