/** Decimal numbers as strconv prints and reads them. */
module Decimal {
  import opened Wrappers

  const MAX_INT := 0x7fff_ffff_ffff_ffff

  predicate IsDigit(c: char) {
    '0' <= c <= '9'
  }

  function DigitValue(c: char): nat
    requires IsDigit(c)
  {
    c as int - '0' as int
  }

  predicate AllDigits(s: string) {
    forall i :: 0 <= i < |s| ==> IsDigit(s[i])
  }

  function Digits(n: nat): (s: string)
    ensures s != "" && AllDigits(s)
  {
    if n < 10 then [('0' as int + n) as char] else Digits(n / 10) + [('0' as int + n % 10) as char]
  }

  function Number(s: string): nat
    requires AllDigits(s)
  {
    if s == "" then 0 else 10 * Number(s[..|s| - 1]) + DigitValue(s[|s| - 1])
  }

  /** strconv.Itoa. */
  function Itoa(i: int): string {
    if i < 0 then "-" + Digits(-i) else Digits(i)
  }

  predicate Signed(s: string) {
    s != "" && (s[0] == '+' || s[0] == '-')
  }

  /** strconv.Atoi: an optional sign, at least one digit, and the range of a 64-bit int. */
  function Atoi(s: string): Option<int> {
    var digits := if Signed(s) then s[1..] else s;
    if digits == "" || !AllDigits(digits) then None
    else
      var n: int := if s[0] == '-' then 0 - Number(digits) else Number(digits);
      if -MAX_INT - 1 <= n <= MAX_INT then Some(n) else None
  }

  /** The number strconv.Atoi returns next to an error: the nearest one in range, or zero. */
  function AtoiLoose(s: string): int {
    var digits := if Signed(s) then s[1..] else s;
    if Atoi(s).Some? then Atoi(s).value
    else if digits == "" || !AllDigits(digits) then 0
    else if s[0] == '-' then -MAX_INT - 1 else MAX_INT
  }

  lemma {:induction false} NumberDigits(n: nat)
    ensures Number(Digits(n)) == n
  {
    if n >= 10 {
      NumberDigits(n / 10);
      var s := Digits(n);
      assert s[..|s| - 1] == Digits(n / 10);
    } else {
      assert Digits(n)[..0] == "";
    }
  }

  /** Every 64-bit integer is read back as printed. */
  lemma AtoiItoa(i: int)
    requires -MAX_INT - 1 <= i <= MAX_INT
    ensures Atoi(Itoa(i)) == Some(i)
  {
    NumberDigits(if i < 0 then -i else i);
    if i < 0 {
      assert Itoa(i)[1..] == Digits(-i);
    }
  }

  lemma ItoaNonempty(i: int)
    ensures Itoa(i) != "" && (i >= 0 ==> AllDigits(Itoa(i)))
  {
  }
}
