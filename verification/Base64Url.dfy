/** Unpadded base64url: the encoder (RFC 4648, sections 3.2 and 5) and the lenient decoder that the
    Python library puts behind urlsafe_b64decode. */
module Base64Url {
  import opened ByteStrings
  import opened Wrappers

  // The character of six bits.
  function Digit(n: nat): (c: char)
    requires n < 64
  {
    if n < 26 then (n + 'A' as int) as char
    else if n < 52 then (n - 26 + 'a' as int) as char
    else if n < 62 then (n - 52 + '0' as int) as char
    else if n == 62 then '-'
    else '_'
  }

  // The two characters of the plain alphabet are read as well.
  function Sextet(c: char): (r: Option<nat>)
    ensures r.Some? ==> r.value < 64
  {
    if 'A' <= c <= 'Z' then Some(c as int - 'A' as int)
    else if 'a' <= c <= 'z' then Some(c as int - 'a' as int + 26)
    else if '0' <= c <= '9' then Some(c as int - '0' as int + 52)
    else if c == '-' || c == '+' then Some(62)
    else if c == '_' || c == '/' then Some(63)
    else None
  }

  predicate IsDigit(c: char) {
    'A' <= c <= 'Z' || 'a' <= c <= 'z' || '0' <= c <= '9' || c == '-' || c == '_'
  }

  function Encode(b: Bytes): string {
    if |b| == 0 then ""
    else if |b| == 1 then [Digit(b[0] / 4), Digit(b[0] % 4 * 16)]
    else if |b| == 2 then [Digit(b[0] / 4), Digit(b[0] % 4 * 16 + b[1] / 16), Digit(b[1] % 16 * 4)]
    else
      [Digit(b[0] / 4), Digit(b[0] % 4 * 16 + b[1] / 16), Digit(b[1] % 16 * 4 + b[2] / 64), Digit(b[2] % 64)]
      + Encode(b[3..])
  }

  function Prepend(b: Byte, r: Option<Bytes>): Option<Bytes> {
    match r case None => None case Some(bytes) => Some([b] + bytes)
  }

  /** The decoder reads on with quad characters of the present group behind it and left their last
      bits. Padding that completes a group ends the input, other characters are skipped. */
  function DecodeFrom(s: string, quad: nat, left: nat, pads: nat): Option<Bytes>
    requires quad < 4
    requires left < (if quad == 1 then 64 else if quad == 2 then 16 else if quad == 3 then 4 else 1)
  {
    if s == "" then
      if quad == 0 then Some([]) else None
    else if s[0] == '=' then
      if quad >= 2 && quad + pads + 1 >= 4 then Some([])
      else DecodeFrom(s[1..], quad, left, if quad >= 2 then pads + 1 else pads)
    else match Sextet(s[0])
      case None => DecodeFrom(s[1..], quad, left, pads)
      case Some(v) =>
        match quad
        case 0 => DecodeFrom(s[1..], 1, v, 0)
        case 1 => Prepend(left * 4 + v / 16, DecodeFrom(s[1..], 2, v % 16, 0))
        case 2 => Prepend(left * 16 + v / 4, DecodeFrom(s[1..], 3, v % 4, 0))
        case _ => Prepend(left * 64 + v, DecodeFrom(s[1..], 0, 0, 0))
  }

  function Padding(n: nat): string {
    match n % 4
    case 0 => ""
    case 1 => "==="
    case 2 => "=="
    case _ => "="
  }

  // _decode: only ASCII text can be read at all.
  function Decode(s: string): Option<Bytes> {
    if exists c | c in s :: c as int >= 128 then None
    else DecodeFrom(s + Padding(|s|), 0, 0, 0)
  }

  // ---- the alphabet and the bits -----------------------------------------------------------

  // RFC 4648, section 5, table 2.
  const UPPER := "ABCDEFGHIJKLMNOPQRSTUVWXYZ"
  const LOWER := "abcdefghijklmnopqrstuvwxyz"
  const FIGURES := "0123456789-_"
  const ALPHABET := UPPER + LOWER + FIGURES

  lemma DigitReads(n: nat)
    requires n < 64
    ensures Sextet(Digit(n)) == Some(n) && IsDigit(Digit(n)) && Digit(n) != '=' && Digit(n) as int < 128
  {
  }

  lemma UpperInOrder(n: nat)
    requires n < 26
    ensures Digit(n) == UPPER[n]
  {
  }

  lemma LowerInOrder(n: nat)
    requires n < 26
    ensures Digit(26 + n) == LOWER[n]
  {
  }

  lemma FiguresInOrder(n: nat)
    requires n < 12
    ensures Digit(52 + n) == FIGURES[n]
  {
  }

  /** The n-th character of the table stands for n, both ways. */
  lemma AlphabetInOrder(n: nat)
    requires n < 64
    ensures |ALPHABET| == 64 && Digit(n) == ALPHABET[n] && Sextet(ALPHABET[n]) == Some(n)
  {
    assert |UPPER| == 26 && |LOWER| == 26 && |FIGURES| == 12;
    if n < 26 {
      UpperInOrder(n);
    } else if n < 52 {
      LowerInOrder(n - 26);
    } else {
      FiguresInOrder(n - 52);
    }
    DigitReads(n);
  }

  lemma DigitOfSextet(c: char)
    requires IsDigit(c)
    ensures Sextet(c).Some? && Digit(Sextet(c).value) == c
  {
  }

  lemma DigitsAreAlphabet(c: char)
    ensures IsDigit(c) <==> c in ALPHABET
  {
    if IsDigit(c) {
      DigitOfSextet(c);
      AlphabetInOrder(Sextet(c).value);
    }
    if c in ALPHABET {
      var n :| 0 <= n < |ALPHABET| && ALPHABET[n] == c;
      AlphabetInOrder(n);
      DigitReads(n);
    }
  }

  /** Beside the table the decoder reads the two characters of the plain alphabet, and no others. */
  lemma SextetMeans(c: char)
    ensures Sextet('+') == Some(62) && Sextet('/') == Some(63)
    ensures Sextet(c).Some? <==> c in ALPHABET || c == '+' || c == '/'
  {
    DigitsAreAlphabet(c);
  }

  /** A character that stands for nothing and is no padding is skipped wherever it is. */
  lemma {:induction false} OthersAreSkipped(a: string, c: char, b: string, quad: nat, left: nat, pads: nat)
    requires Sextet(c) == None && c != '=' && quad < 4
    requires left < (if quad == 1 then 64 else if quad == 2 then 16 else if quad == 3 then 4 else 1)
    ensures DecodeFrom(a + [c] + b, quad, left, pads) == DecodeFrom(a + b, quad, left, pads)
  {
    if a == "" {
      assert a + [c] + b == [c] + b && ([c] + b)[1..] == b && a + b == b;
    } else {
      var s, t := a + [c] + b, a + b;
      assert s[0] == a[0] == t[0] && s[1..] == a[1..] + [c] + b && t[1..] == a[1..] + b;
      if a[0] == '=' {
        OthersAreSkipped(a[1..], c, b, quad, left, if quad >= 2 then pads + 1 else pads);
      } else {
        match Sextet(a[0])
        case None => OthersAreSkipped(a[1..], c, b, quad, left, pads);
        case Some(v) =>
          var next := if quad == 0 then v else if quad == 1 then v % 16 else if quad == 2 then v % 4 else 0;
          OthersAreSkipped(a[1..], c, b, (quad + 1) % 4, next, 0);
      }
    }
  }

  /** Three bytes, as one number of 24 bits, are the four digits of that number to the base 64; then
      come the characters of the rest. */
  lemma GroupIsNumber(b: Bytes) returns (w: nat, x: nat, y: nat, z: nat)
    requires |b| >= 3
    ensures w < 64 && x < 64 && y < 64 && z < 64
    ensures w * 0x4_0000 + x * 0x1000 + y * 0x40 + z == 0x1_0000 * (b[0] as int) + 0x100 * (b[1] as int) + b[2] as int
    ensures Encode(b) == [ALPHABET[w], ALPHABET[x], ALPHABET[y], ALPHABET[z]] + Encode(b[3..])
  {
    w, x, y, z := b[0] / 4, b[0] % 4 * 16 + b[1] / 16, b[1] % 16 * 4 + b[2] / 64, b[2] % 64;
    AlphabetInOrder(w);
    AlphabetInOrder(x);
    AlphabetInOrder(y);
    AlphabetInOrder(z);
  }

  /** One or two bytes at the end are filled up with zero bits to a whole number of characters. */
  lemma TailIsNumber(b: Byte, c: Byte) returns (w: nat, x: nat, x': nat, y: nat)
    ensures w < 64 && x < 64 && x' < 64 && y < 64
    ensures Encode([b]) == [ALPHABET[w], ALPHABET[x]] && w * 0x40 + x == 0x10 * (b as int)
    ensures Encode([b, c]) == [ALPHABET[w], ALPHABET[x'], ALPHABET[y]]
    ensures w * 0x1000 + x' * 0x40 + y == 4 * (0x100 * (b as int) + c as int)
  {
    w, x, x', y := b / 4, b % 4 * 16, b % 4 * 16 + c / 16, c % 16 * 4;
    AlphabetInOrder(w);
    AlphabetInOrder(x);
    AlphabetInOrder(x');
    AlphabetInOrder(y);
  }

  // ---- the round trip --------------------------------------------------------------------

  // One character at each of the four places in a group.
  lemma ReadFirst(n: nat, rest: string)
    requires n < 64
    ensures DecodeFrom([Digit(n)] + rest, 0, 0, 0) == DecodeFrom(rest, 1, n, 0)
  {
    DigitReads(n);
    assert ([Digit(n)] + rest)[1..] == rest;
  }

  lemma ReadSecond(n: nat, left: nat, rest: string)
    requires n < 64 && left < 64
    ensures DecodeFrom([Digit(n)] + rest, 1, left, 0) == Prepend(left * 4 + n / 16, DecodeFrom(rest, 2, n % 16, 0))
  {
    DigitReads(n);
    assert ([Digit(n)] + rest)[1..] == rest;
  }

  lemma ReadThird(n: nat, left: nat, rest: string)
    requires n < 64 && left < 16
    ensures DecodeFrom([Digit(n)] + rest, 2, left, 0) == Prepend(left * 16 + n / 4, DecodeFrom(rest, 3, n % 4, 0))
  {
    DigitReads(n);
    assert ([Digit(n)] + rest)[1..] == rest;
  }

  lemma ReadFourth(n: nat, left: nat, rest: string)
    requires n < 64 && left < 4
    ensures DecodeFrom([Digit(n)] + rest, 3, left, 0) == Prepend(left * 64 + n, DecodeFrom(rest, 0, 0, 0))
  {
    DigitReads(n);
    assert ([Digit(n)] + rest)[1..] == rest;
  }

  // One group of four characters.
  lemma QuadReads(a: nat, b: nat, c: nat, d: nat, s0: string, s1: string, s2: string, s3: string, rest: string)
    requires a < 64 && b < 64 && c < 64 && d < 64
    requires s0 == [Digit(a)] + s1 && s1 == [Digit(b)] + s2 && s2 == [Digit(c)] + s3 && s3 == [Digit(d)] + rest
    ensures DecodeFrom(s0, 0, 0, 0)
            == Prepend(a * 4 + b / 16, Prepend(b % 16 * 16 + c / 4, Prepend(c % 4 * 64 + d, DecodeFrom(rest, 0, 0, 0))))
  {
    ReadFirst(a, s1);
    ReadSecond(b, a, s2);
    ReadThird(c, b % 16, s3);
    ReadFourth(d, c % 4, rest);
  }

  lemma PaddingEnds(left: nat)
    requires left < 4
    ensures DecodeFrom("==", 2, left, 0) == Some([]) && DecodeFrom("=", 3, left, 0) == Some([])
  {
    assert "=="[1..] == "=";
    assert DecodeFrom("=", 2, left, 1) == Some([]);
  }

  lemma OneByteReads(b: Byte)
    ensures DecodeFrom(Encode([b]) + "==", 0, 0, 0) == Some([b])
  {
    var x, y := b / 4, b % 4 * 16;
    assert Encode([b]) + "==" == [Digit(x)] + ([Digit(y)] + "==");
    assert y / 16 == b % 4 && y % 16 == 0;
    ReadFirst(x, [Digit(y)] + "==");
    ReadSecond(y, x, "==");
    PaddingEnds(0);
    assert [b] + [] == [b];
  }

  lemma TwoBytesRead(b: Byte, c: Byte)
    ensures DecodeFrom(Encode([b, c]) + "=", 0, 0, 0) == Some([b, c])
  {
    var x, y, z := b / 4, b % 4 * 16 + c / 16, c % 16 * 4;
    assert Encode([b, c]) + "=" == [Digit(x)] + ([Digit(y)] + ([Digit(z)] + "="));
    assert y / 16 == b % 4 && y % 16 == c / 16 && z / 4 == c % 16 && z % 4 == 0;
    ReadFirst(x, [Digit(y)] + ([Digit(z)] + "="));
    ReadSecond(y, x, [Digit(z)] + "=");
    ReadThird(z, y % 16, "=");
    PaddingEnds(0);
    assert [b] + ([c] + []) == [b, c];
  }

  // The bits of three bytes, cut into four digits and put together again.
  lemma GroupBits(a: Byte, b: Byte, c: Byte)
    ensures var w, x, y, z := a / 4, a % 4 * 16 + b / 16, b % 16 * 4 + c / 64, c % 64;
            w < 64 && x < 64 && y < 64 && w * 4 + x / 16 == a && x % 16 * 16 + y / 4 == b && y % 4 * 64 + z == c
  {
  }

  lemma GroupReads(a: Byte, b: Byte, c: Byte, rest: string)
    ensures DecodeFrom(Encode([a, b, c]) + rest, 0, 0, 0)
            == Prepend(a, Prepend(b, Prepend(c, DecodeFrom(rest, 0, 0, 0))))
  {
    var w, x, y, z := a / 4, a % 4 * 16 + b / 16, b % 16 * 4 + c / 64, c % 64;
    GroupBits(a, b, c);
    assert Encode([]) == "";
    assert [a, b, c][3..] == [];
    var s3 := [Digit(z)] + rest;
    var s2 := [Digit(y)] + s3;
    var s1 := [Digit(x)] + s2;
    assert Encode([a, b, c]) + rest == [Digit(w)] + s1;
    QuadReads(w, x, y, z, [Digit(w)] + s1, s1, s2, s3, rest);
  }

  lemma EncodeGroup(b: Bytes)
    requires |b| >= 3
    ensures Encode(b) == Encode(b[..3]) + Encode(b[3..]) && |Encode(b[..3])| == 4
  {
    var head := b[..3];
    assert head[3..] == [];
    assert Encode(head[3..]) == "";
    assert Encode(head) == Encode(b)[..4];
  }

  // One group in front of bytes that read back.
  lemma GroupThenRest(a: Byte, b: Byte, c: Byte, later: string, tail: Bytes)
    requires DecodeFrom(later, 0, 0, 0) == Some(tail)
    ensures DecodeFrom(Encode([a, b, c]) + later, 0, 0, 0) == Some([a, b, c] + tail)
  {
    GroupReads(a, b, c, later);
    assert [a] + ([b] + ([c] + tail)) == [a, b, c] + tail;
  }

  lemma PadsAlike(head: string, later: string)
    requires |head| == 4
    ensures head + later + Padding(|head + later|) == head + (later + Padding(|later|))
  {
    assert |head + later| % 4 == |later| % 4;
  }

  lemma {:induction false} EncodeReads(b: Bytes)
    ensures DecodeFrom(Encode(b) + Padding(|Encode(b)|), 0, 0, 0) == Some(b)
  {
    if |b| == 1 {
      OneByteReads(b[0]);
      assert b == [b[0]];
    } else if |b| == 2 {
      TwoBytesRead(b[0], b[1]);
      assert b == [b[0], b[1]];
    } else if |b| >= 3 {
      var later := Encode(b[3..]);
      EncodeReads(b[3..]);
      EncodeGroup(b);
      PadsAlike(Encode(b[..3]), later);
      assert b[..3] == [b[0], b[1], b[2]] && b == b[..3] + b[3..];
      GroupThenRest(b[0], b[1], b[2], later + Padding(|later|), b[3..]);
    }
  }

  /** The text is of the URL alphabet and as long as section 3.2 of RFC 4648 makes it without padding. */
  lemma {:induction false} EncodeShape(b: Bytes)
    ensures forall c | c in Encode(b) :: IsDigit(c) && c as int < 128
    ensures |Encode(b)| == |b| / 3 * 4 + (if |b| % 3 == 0 then 0 else |b| % 3 + 1)
  {
    if |b| >= 3 {
      EncodeShape(b[3..]);
      assert |b| / 3 == 1 + |b[3..]| / 3;
      DigitReads(b[0] / 4);
      DigitReads(b[0] % 4 * 16 + b[1] / 16);
      DigitReads(b[1] % 16 * 4 + b[2] / 64);
      DigitReads(b[2] % 64);
    } else if |b| == 2 {
      DigitReads(b[0] / 4);
      DigitReads(b[0] % 4 * 16 + b[1] / 16);
      DigitReads(b[1] % 16 * 4);
    } else if |b| == 1 {
      DigitReads(b[0] / 4);
      DigitReads(b[0] % 4 * 16);
    }
  }

  /** Decoding undoes encoding for every byte string. */
  lemma DecodeOfEncode(b: Bytes)
    ensures Decode(Encode(b)) == Some(b)
  {
    EncodeShape(b);
    EncodeReads(b);
  }
}
