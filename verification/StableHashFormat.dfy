/** The stream of the state proofs down to its bytes: the framing of a token, the tag and the payload
    of every kind of value, and the text forms that payloads use. */
module StableHashFormat {
  import opened ByteStrings
  import opened StableHash
  import Decimal
  import Utf8

  // ---- text forms ---------------------------------------------------------------------

  // b is the ASCII text s.
  predicate IsAscii(b: Bytes, s: string) {
    |b| == |s| && forall i | 0 <= i < |s| :: b[i] == s[i] as int
  }

  lemma Utf8Cons(c: char, s: string)
    ensures Utf8.Encode([c] + s) == Utf8.EncodeScalar(c as int) + Utf8.Encode(s)
  {
    assert ([c] + s)[1..] == s;
  }

  /** ASCII is UTF-8 as it stands. */
  lemma {:induction false} Utf8OfAscii(s: string)
    requires forall i | 0 <= i < |s| :: s[i] as int < 128
    ensures IsAscii(Utf8.Encode(s), s)
  {
    if s != "" {
      Utf8OfAscii(s[1..]);
    }
  }

  /** The bits of a character in the bytes of its width (RFC 3629, section 3). */
  lemma Utf8Bits(c: char)
    ensures var n: int, b: seq<int> := c as int, Utf8.Encode([c]);
            if n < 0x80 then b == [n]
            else if n < 0x800 then |b| == 2 && n == (b[0] - 0xC0) * 64 + (b[1] - 0x80) && b[0] < 0xE0
            else if n < 0x1_0000 then
              |b| == 3 && n == (b[0] - 0xE0) * 4096 + (b[1] - 0x80) * 64 + (b[2] - 0x80) && 0xE0 <= b[0] < 0xF0
            else |b| == 4 && n == (b[0] - 0xF0) * 26_2144 + (b[1] - 0x80) * 4096 + (b[2] - 0x80) * 64 + (b[3] - 0x80)
    ensures var b := Utf8.Encode([c]); forall i | 0 < i < |b| :: 0x80 <= b[i] < 0xC0
  {
    Utf8.Base64Digits(c as int);
    Utf8Cons(c, "");
    assert [c] + "" == [c];
  }

  lemma {:induction false} DigitsLead(n: nat)
    ensures var b := Decimal.Digits(n); (b[0] == 48 <==> n == 0) && (|b| == 1 <==> n < 10)
    ensures var b := Decimal.Digits(n); b[|b| - 1] == 48 + n % 10
  {
    if n >= 10 {
      DigitsLead(n / 10);
    }
  }

  /** A numeral has a sign exactly if it is negative, never a leading zero, and ends in its last digit. */
  lemma NumeralShape(i: int)
    ensures var b := Decimal.Format(i);
            && (b[0] == 45 <==> i < 0)
            && (if i < 0 then |b| > 1 && b[1] != 48 else b[0] == 48 <==> i == 0)
            && (forall k | 0 < k < |b| :: 48 <= b[k] <= 57)
            && b[|b| - 1] == 48 + (if i < 0 then -i else i) % 10
  {
    var d := Decimal.Digits(if i < 0 then -i else i);
    DigitsLead(if i < 0 then -i else i);
    assert forall k | 0 <= k < |d| :: d[k] in d;
  }

  lemma NumeralExample()
    ensures IsAscii(Decimal.Format(1024), "1024") && IsAscii(Decimal.Format(-87), "-87")
  {
    assert Decimal.Digits(102) == Decimal.Digits(10) + [50];
    assert Decimal.Digits(1024) == Decimal.Digits(102) + [52];
  }

  // ---- tokens -------------------------------------------------------------------------

  // The number that eight bytes stand for, the highest first.
  function Number(b: seq<int>): int
    requires |b| == 8
  {
    0x100_0000_0000_0000 * b[0] + 0x1_0000_0000_0000 * b[1] + 0x100_0000_0000 * b[2] + 0x1_0000_0000 * b[3]
    + 0x100_0000 * b[4] + 0x1_0000 * b[5] + 0x100 * b[6] + b[7]
  }

  lemma LastByte(b: Bytes, k: nat)
    requires 0 < k <= |b|
    ensures FromBigEndian(b[..k]) == 256 * FromBigEndian(b[..k - 1]) + b[k - 1]
  {
    assert b[..k][..k - 1] == b[..k - 1];
  }

  lemma EightBytes(b: Bytes)
    requires |b| == 8
    ensures FromBigEndian(b) == Number(b)
  {
    assert b[..0] == [] && b[..8] == b;
    LastByte(b, 1);
    LastByte(b, 2);
    LastByte(b, 3);
    LastByte(b, 4);
    LastByte(b, 5);
    LastByte(b, 6);
    LastByte(b, 7);
    LastByte(b, 8);
  }

  /** A token is the length of the tag in two bytes, the tag, the length of the payload in eight, all
      with the highest byte first, and the payload. */
  lemma TokenLayout(tag: string, payload: Bytes)
    requires |tag| <= 8 && Fits(payload) && forall i | 0 <= i < |tag| :: tag[i] as int < 128
    ensures var b, t := Token(tag, payload), |tag|;
            && |b| == 10 + t + |payload| && b[0] == 0 && b[1] == t
            && IsAscii(b[2..2 + t], tag) && b[10 + t..] == payload
            && Number(b[2 + t..10 + t]) == |payload|
  {
    Power256Of8();
    Utf8OfAscii(tag);
    var b, t := Token(tag, payload), Utf8.Encode(tag);
    var high, low := BigEndian(|t|, 2), BigEndian(|payload|, 8);
    assert high[..0] == [] && high[..2] == high;
    LastByte(high, 1);
    LastByte(high, 2);
    EightBytes(low);
    assert b == high + t + low + payload;
    assert b[2 + |t|..10 + |t|] == low;
  }

  function ItemsBytes(items: seq<Value>): Bytes
    requires forall x | x in items :: Encodable(x)
  {
    if items == [] then [] else Encode(items[0]) + ItemsBytes(items[1..])
  }

  lemma {:induction false} ItemStreamIsBytes(items: seq<Value>)
    requires forall x | x in items :: Encodable(x)
    ensures (forall x | x in CanonItems(items) :: Encodable(x)) && ItemStream(CanonItems(items)) == ItemsBytes(items)
  {
    if items != [] {
      CanonIsEncodable(items[0]);
      ItemStreamIsBytes(items[1..]);
      assert CanonItems(items)[1..] == CanonItems(items[1..]);
    }
  }

  /** The token or tokens of every kind of value that is not a mapping. */
  lemma StreamsByKind(v: Value)
    requires Encodable(v) && !v.Mapping?
    ensures match v
            case Null => Encode(v) == Token("null", [])
            case Bool(b) => Encode(v) == Token("bool", if b then [49] else [48])
            case Int(i) => Encode(v) == Token("integer", Decimal.Format(i))
            case Real(hex) => Encode(v) == Token("real", hex)
            case Text(s) => Encode(v) == Token("text", Utf8.Encode(s))
            case Blob(bytes) => Encode(v) == Token("blob", bytes)
            case Sequence(_, items) => Encode(v) == Token("sequence", Decimal.Format(|items|)) + ItemsBytes(items)
            case _ => false
  {
    if v.Sequence? {
      CanonIsEncodable(v);
      ItemStreamIsBytes(v.items);
    }
  }
}
