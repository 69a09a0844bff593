/** The decimal form of an integer, as str(value) writes it in ASCII. */
module Decimal {
  import opened ByteStrings
  import opened Wrappers

  const MINUS: Byte := 45
  const ZERO: Byte := 48

  function Digits(n: nat): (b: Bytes)
    ensures |b| >= 1 && forall x | x in b :: ZERO <= x < ZERO + 10
  {
    if n < 10 then [ZERO + n] else Digits(n / 10) + [ZERO + n % 10]
  }

  function Format(i: int): (b: Bytes)
    ensures |b| >= 1
  {
    if i < 0 then [MINUS] + Digits(-i) else Digits(i)
  }

  function ReadDigits(b: Bytes): (r: Option<nat>) {
    if b == [] then Some(0)
    else
      var last := b[|b| - 1];
      match ReadDigits(b[..|b| - 1])
      case None => None
      case Some(n) => if ZERO <= last < ZERO + 10 then Some(10 * n + last - ZERO) else None
  }

  function Read(b: Bytes): (r: Option<int>) {
    if b != [] && b[0] == MINUS then
      match ReadDigits(b[1..])
      case None => None
      case Some(n) => Some(-(n as int))
    else
      ReadDigits(b)
  }

  lemma {:induction false} ReadDigitsOfDigits(n: nat)
    ensures ReadDigits(Digits(n)) == Some(n)
  {
    var b := Digits(n);
    if n < 10 {
      assert b[..|b| - 1] == [];
    } else {
      ReadDigitsOfDigits(n / 10);
      assert b[..|b| - 1] == Digits(n / 10);
    }
  }

  /** No two integers share a decimal form. */
  lemma ReadOfFormat(i: int)
    ensures Read(Format(i)) == Some(i)
  {
    if i < 0 {
      ReadDigitsOfDigits(-i);
      assert Format(i)[1..] == Digits(-i);
    } else {
      ReadDigitsOfDigits(i);
      assert Digits(i)[0] in Digits(i);
    }
  }
}
