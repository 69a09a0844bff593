/** UTF-8 keeps the order of code points: sorting texts and sorting their bytes come to the same. */
module Utf8Order {
  import opened ByteStrings
  import opened Ordering
  import Utf8

  /** The order in which SQLite compares texts: byte by byte, and a prefix before what continues it. */
  ghost predicate BytesLe(a: Bytes, b: Bytes) {
    a <= b || exists k :: 0 <= k < |a| && k < |b| && a[..k] == b[..k] && a[k] < b[k]
  }

  // a and b first differ at k, where a has the smaller byte.
  predicate SmallerAt(a: Bytes, b: Bytes, k: nat) {
    k < |a| && k < |b| && a[..k] == b[..k] && a[k] < b[k]
  }

  lemma SmallerIsBelow(a: Bytes, b: Bytes, k: nat, a': Bytes, b': Bytes)
    requires SmallerAt(a, b, k)
    ensures BytesLe(a + a', b + b') && !BytesLe(b + b', a + a')
  {
    var x, y := a + a', b + b';
    assert x[..k] == a[..k] && y[..k] == b[..k] && x[k] < y[k];
    forall j | k < j <= |x| && j <= |y| ensures y[..j] != x[..j] {
      assert y[..j][k] != x[..j][k];
    }
    assert y[..|y|] == y;
  }

  lemma CommonFront(p: Bytes, a: Bytes, b: Bytes)
    ensures BytesLe(p + a, p + b) <==> BytesLe(a, b)
  {
    var x, y := p + a, p + b;
    if k :| 0 <= k < |a| && k < |b| && a[..k] == b[..k] && a[k] < b[k] {
      assert x[..|p| + k] == p + a[..k] && y[..|p| + k] == p + b[..k];
      assert x[|p| + k] < y[|p| + k];
    }
    if k :| 0 <= k < |x| && k < |y| && x[..k] == y[..k] && x[k] < y[k] {
      assert k >= |p|;
      assert a[..k - |p|] == x[..k][|p|..] && b[..k - |p|] == y[..k][|p|..];
      assert a[k - |p|] < b[k - |p|];
    }
    if a <= b {
      assert x <= y;
    }
    if x <= y {
      assert a == x[|p|..] && b == y[|p|..];
      assert y[..|x|] == x;
      assert b[..|a|] == a;
    }
  }

  lemma ScalarsCompare(n: int, m: int) returns (k: nat)
    requires Utf8.IsScalar(n) && Utf8.IsScalar(m) && n < m
    ensures SmallerAt(Utf8.EncodeScalar(n), Utf8.EncodeScalar(m), k)
  {
    var a, b := Utf8.EncodeScalar(n), Utf8.EncodeScalar(m);
    Utf8.Base64Digits(n);
    Utf8.Base64Digits(m);
    if |a| < |b| {
      k := 0;
    } else {
      k := if a[0] != b[0] then 0 else if a[1] != b[1] then 1 else if a[2] != b[2] then 2 else 3;
    }
  }

  /** Texts compare by code point exactly as their UTF-8 forms compare by byte. */
  lemma {:induction false} Utf8KeepsOrder(a: string, b: string)
    ensures CodePointLe(a, b) <==> BytesLe(Utf8.Encode(a), Utf8.Encode(b))
  {
    if a != "" && b != "" {
      var n, m := a[0] as int, b[0] as int;
      if n == m {
        CodePointTail(a, b);
        Utf8KeepsOrder(a[1..], b[1..]);
        CommonFront(Utf8.EncodeScalar(n), Utf8.Encode(a[1..]), Utf8.Encode(b[1..]));
      } else {
        FrontDiffers(a, b);
        var x, y := Utf8.Encode(a[1..]), Utf8.Encode(b[1..]);
        if n < m {
          var k := ScalarsCompare(n, m);
          SmallerIsBelow(Utf8.EncodeScalar(n), Utf8.EncodeScalar(m), k, x, y);
        } else {
          var k := ScalarsCompare(m, n);
          SmallerIsBelow(Utf8.EncodeScalar(m), Utf8.EncodeScalar(n), k, y, x);
        }
      }
    }
  }
}
