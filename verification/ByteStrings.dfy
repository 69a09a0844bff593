/** Byte strings and the fixed-width big-endian lengths that frame a hash token. */
module ByteStrings {
  type Byte = b: int | 0 <= b < 256
  type Bytes = seq<Byte>

  function Power256(width: nat): (p: nat)
    ensures p >= 1
  {
    if width == 0 then 1 else 256 * Power256(width - 1)
  }

  function FromBigEndian(b: Bytes): nat {
    if b == [] then 0 else 256 * FromBigEndian(b[..|b| - 1]) + b[|b| - 1]
  }

  // The source raises OverflowError when n does not fit.
  function BigEndian(n: nat, width: nat): (b: Bytes)
    requires n < Power256(width)
    ensures |b| == width && FromBigEndian(b) == n
  {
    if width == 0 then []
    else
      var high := BigEndian(n / 256, width - 1);
      var b := high + [n % 256];
      assert b[..|b| - 1] == high;
      b
  }

  lemma Power256Of8()
    ensures Power256(2) == 0x1_0000 && Power256(8) == 0x1_0000_0000_0000_0000
  {
    assert Power256(4) == 0x1_0000_0000 by { assert Power256(2) == 0x1_0000; }
    assert Power256(6) == 0x1_0000_0000_0000;
  }

  // The parts written one after the other.
  function Joined(parts: seq<Bytes>): Bytes {
    if parts == [] then [] else parts[0] + Joined(parts[1..])
  }

  lemma {:induction false} JoinedSnoc(parts: seq<Bytes>, last: Bytes)
    ensures Joined(parts + [last]) == Joined(parts) + last
  {
    if parts != [] {
      assert (parts + [last])[1..] == parts[1..] + [last];
      JoinedSnoc(parts[1..], last);
    }
  }
}
