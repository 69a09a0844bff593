/** UTF-8, as str.encode("utf-8") writes it (RFC 3629, section 3). */
module Utf8 {
  import opened ByteStrings
  import opened Wrappers

  predicate IsScalar(n: int) {
    0 <= n < 0xD800 || 0xE000 <= n < 0x11_0000
  }

  function EncodeScalar(n: int): (b: Bytes)
    requires IsScalar(n)
    ensures 1 <= |b| <= 4
  {
    if n < 0x80 then [n]
    else if n < 0x800 then [0xC0 + n / 64, 0x80 + n % 64]
    else if n < 0x1_0000 then [0xE0 + n / 4096, 0x80 + n / 64 % 64, 0x80 + n % 64]
    else [0xF0 + n / 26_2144, 0x80 + n / 4096 % 64, 0x80 + n / 64 % 64, 0x80 + n % 64]
  }

  function Encode(s: string): (b: Bytes)
    ensures |s| <= |b| <= 4 * |s|
  {
    if s == "" then [] else EncodeScalar(s[0] as int) + Encode(s[1..])
  }

  // How many bytes the first character takes, by its first byte.
  function Width(first: Byte): (w: nat)
    ensures 1 <= w <= 4
  {
    if first < 0xC0 then 1 else if first < 0xE0 then 2 else if first < 0xF0 then 3 else 4
  }

  // The six bits of a continuation byte.
  function Six(b: Byte): int {
    b as int - 0x80
  }

  function DecodeScalar(b: Bytes): int
    requires b != [] && |b| == Width(b[0])
  {
    var first := b[0] as int;
    match |b|
    case 1 => first
    case 2 => (first - 0xC0) * 64 + Six(b[1])
    case 3 => ((first - 0xE0) * 64 + Six(b[1])) * 64 + Six(b[2])
    case _ => (((first - 0xF0) * 64 + Six(b[1])) * 64 + Six(b[2])) * 64 + Six(b[3])
  }

  function Decode(b: Bytes): (r: Option<string>) {
    if b == [] then Some("")
    else
      var w := Width(b[0]);
      if |b| < w then None
      else
        var n := DecodeScalar(b[..w]);
        if !IsScalar(n) then None
        else match Decode(b[w..])
          case None => None
          case Some(s) => Some([n as char] + s)
  }

  // The base-64 digits of n put together again.
  lemma Base64Digits(n: nat)
    ensures n == n / 64 * 64 + n % 64
    ensures n / 64 == n / 4096 * 64 + n / 64 % 64
    ensures n / 4096 == n / 26_2144 * 64 + n / 4096 % 64
  {
    assert n / 4096 == n / 64 / 64;
    assert n / 26_2144 == n / 4096 / 64;
  }

  lemma DecodeOfEncodeScalar(n: int)
    requires IsScalar(n)
    ensures var b := EncodeScalar(n); |b| == Width(b[0]) && DecodeScalar(b) == n
  {
    Base64Digits(n);
    assert n < 0x1_0000 ==> n / 4096 < 16;
  }

  /** No two texts share a UTF-8 form. */
  lemma {:induction false} DecodeOfEncode(s: string)
    ensures Decode(Encode(s)) == Some(s)
  {
    if s != "" {
      var n, b := s[0] as int, Encode(s);
      DecodeOfEncodeScalar(n);
      DecodeOfEncode(s[1..]);
      var w := Width(b[0]);
      assert b[..w] == EncodeScalar(n);
      assert b[w..] == Encode(s[1..]);
      assert [s[0]] + s[1..] == s;
    }
  }
}
