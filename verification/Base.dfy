/** Types shared by the modules. */
module Base {

  newtype byte = x: int | 0 <= x < 256

  type Bytes = seq<byte>

  datatype Option<+T> = None | Some(value: T)

  function Max(a: int, b: int): int {
    if a > b then a else b
  }

  function Min(a: int, b: int): int {
    if a < b then a else b
  }
}

/** Decimal numerals as Go's fmt and strconv write and read them. */
module Decimal {
  import opened Base

  const ZERO: byte := 48
  const PLUS: byte := 43
  const MINUS: byte := 45
  const MAX_INT: int := 0x7FFF_FFFF_FFFF_FFFF

  predicate IsDigit(c: byte) {
    48 <= c <= 57
  }

  predicate AllDigits(s: Bytes) {
    forall i :: 0 <= i < |s| ==> IsDigit(s[i])
  }

  /** The numeral of n, without leading zeros. */
  function Numeral(n: nat): (s: Bytes)
    ensures s != [] && AllDigits(s)
  {
    var last := [ZERO + (n % 10) as byte];
    if n < 10 then last else Numeral(n / 10) + last
  }

  function Itoa(n: int): Bytes {
    if n < 0 then [MINUS] + Numeral(-n) else Numeral(n)
  }

  function Value(s: Bytes): nat
    requires AllDigits(s)
  {
    if s == [] then 0 else 10 * Value(s[..|s| - 1]) + (s[|s| - 1] - ZERO) as int
  }

  /** The value strconv.Atoi returns beside its error: 0 for text that is no
      numeral, the nearest int for one that is out of range. */
  function Atoi(s: Bytes): int {
    var sign := s != [] && (s[0] == PLUS || s[0] == MINUS);
    var digits := if sign then s[1..] else s;
    if digits == [] || !AllDigits(digits) then
      0
    else if sign && s[0] == MINUS then
      if Value(digits) > MAX_INT then -MAX_INT - 1 else 0 - Value(digits)
    else
      if Value(digits) > MAX_INT then MAX_INT else Value(digits)
  }

  lemma {:induction false} ValueOfNumeral(n: nat)
    ensures Value(Numeral(n)) == n
  {
    var s := Numeral(n);
    if n < 10 {
      assert s[..0] == [];
      assert Value(s) == 10 * Value([]) + n;
    } else {
      ValueOfNumeral(n / 10);
      assert s[..|s| - 1] == Numeral(n / 10);
    }
  }

  /** Reading back what was written, for numbers that fit in an int. */
  lemma AtoiOfItoa(n: nat)
    ensures Atoi(Itoa(n)) == if n > MAX_INT then MAX_INT else n
  {
    ValueOfNumeral(n);
    assert IsDigit(Numeral(n)[0]);
  }
}
